/** server/src/jobs/delegateTools.ts: paged reading of a long job result, and the detector of repeated reads. */
module DelegateTools {

  const PAGINATION_REPEAT_WINDOW_MS := 20 * 60_000
  const PAGINATION_SEEN_MAX := 2_048

  // ---- keys ----

  function Decimal(n: nat): (s: string)
    ensures s != "" && ':' !in s
  {
    var digit := "0123456789"[n % 10];
    if n < 10 then [digit] else Decimal(n / 10) + [digit]
  }

  function KeyOf(contact: string, job: string, offset: nat): (key: string)
    ensures key != ""
  {
    contact + ":" + job + ":" + Decimal(offset)
  }

  lemma {:induction false} DecimalInjective(m: nat, n: nat)
    requires Decimal(m) == Decimal(n)
    ensures m == n
  {
    var a, b := Decimal(m), Decimal(n);
    assert a[|a| - 1] == "0123456789"[m % 10] && b[|b| - 1] == "0123456789"[n % 10];
    assert m % 10 == n % 10;
    assert |a| == 1 <==> m < 10;
    assert |b| == 1 <==> n < 10;
    if m >= 10 {
      assert Decimal(m / 10) == a[..|a| - 1] == b[..|b| - 1] == Decimal(n / 10);
      DecimalInjective(m / 10, n / 10);
    }
  }

  lemma LastColon(a: string, b: string, x: string, y: string)
    requires ':' !in x && ':' !in y && a + ":" + x == b + ":" + y
    ensures a == b && x == y
  {
    var s := a + ":" + x;
    assert s[|a|] == ':' && forall i :: |a| < i < |s| ==> s[i] == x[i - |a| - 1];
    assert s[|b|] == ':' && forall i :: |b| < i < |s| ==> s[i] == y[i - |b| - 1];
    assert |a| == |b| && s[..|a|] == a && s[..|b|] == b && s[|a| + 1..] == x && s[|b| + 1..] == y;
  }

  lemma FirstColon(a: string, b: string, x: string, y: string)
    requires ':' !in a && ':' !in b && a + ":" + x == b + ":" + y
    ensures a == b && x == y
  {
    var s := a + ":" + x;
    assert s[|a|] == ':' && forall i :: 0 <= i < |a| ==> s[i] == a[i];
    assert s[|b|] == ':' && forall i :: 0 <= i < |b| ==> s[i] == b[i];
    assert s[..|a|] == a && s[..|b|] == b && s[|a| + 1..] == x && s[|b| + 1..] == y;
  }

  /** Different reads have different keys, whatever is in the job part, as long as contact ids hold no colon. */
  lemma KeysAreDistinct(c: string, j: string, o: nat, c': string, j': string, o': nat)
    requires ':' !in c && ':' !in c'
    ensures KeyOf(c, j, o) == KeyOf(c', j', o') <==> c == c' && j == j' && o == o'
  {
    if KeyOf(c, j, o) == KeyOf(c', j', o') {
      LastColon(c + ":" + j, c' + ":" + j', Decimal(o), Decimal(o'));
      FirstColon(c, c', j, j');
      DecimalInjective(o, o');
    }
  }

  // ---- the history of reads ----

  datatype Read = Read(key: string, at: int)

  predicate InTimeOrder(list: seq<Read>) {
    forall i, j :: 0 <= i < j < |list| ==> list[i].at <= list[j].at
  }

  predicate LastReadAt(history: seq<Read>, key: string, i: nat) {
    i < |history| && history[i].key == key && forall j :: i < j < |history| ==> history[j].key != key
  }

  function KeysOf(list: seq<Read>): set<string> {
    set i | 0 <= i < |list| :: list[i].key
  }

  /** What the detector should answer, from everything ever read: the key was last read within the
      window, and fewer than 2047 other keys were read since. */
  ghost predicate Repeats(history: seq<Read>, key: string, now: int) {
    exists i: nat :: LastReadAt(history, key, i) && now - history[i].at <= 1_200_000
        && |KeysOf(history[i + 1..])| < 2_047
  }

  // ---- lists of reads ----

  function Without(list: seq<Read>, key: string): (r: seq<Read>)
    ensures |r| <= |list|
  {
    if list == [] then []
    else
      var before, last := Without(list[..|list| - 1], key), list[|list| - 1];
      if last.key == key then before else before + [last]
  }

  function Unexpired(list: seq<Read>, now: int): (r: seq<Read>)
    ensures |r| <= |list|
  {
    if list == [] then []
    else
      var before, last := Unexpired(list[..|list| - 1], now), list[|list| - 1];
      if now - last.at > PAGINATION_REPEAT_WINDOW_MS then before else before + [last]
  }

  function Trimmed(list: seq<Read>): (r: seq<Read>)
    ensures |r| < PAGINATION_SEEN_MAX
  {
    if |list| >= PAGINATION_SEEN_MAX then list[|list| - PAGINATION_SEEN_MAX + 1..] else list
  }

  predicate DistinctKeys(list: seq<Read>) {
    forall i, j :: 0 <= i < j < |list| ==> list[i].key != list[j].key
  }

  /** The last read of every key, oldest first. */
  function Recency(history: seq<Read>): seq<Read> {
    if history == [] then []
    else
      var last := history[|history| - 1];
      Without(Recency(history[..|history| - 1]), last.key) + [last]
  }

  lemma {:induction false} WithoutAppend(a: seq<Read>, b: seq<Read>, key: string)
    ensures Without(a + b, key) == Without(a, key) + Without(b, key)
  {
    if b == [] {
      assert a + b == a;
    } else {
      assert (a + b)[..|a + b| - 1] == a + b[..|b| - 1];
      WithoutAppend(a, b[..|b| - 1], key);
    }
  }

  lemma {:induction false} WithoutAbsent(list: seq<Read>, key: string)
    requires key !in KeysOf(list)
    ensures Without(list, key) == list
  {
    if list != [] {
      var front := list[..|list| - 1];
      assert list == front + [list[|list| - 1]];
      KeysOfAppend(front, [list[|list| - 1]]);
      assert list[|list| - 1].key in KeysOf(list);
      WithoutAbsent(front, key);
    }
  }

  lemma KeysOfAppend(a: seq<Read>, b: seq<Read>)
    ensures KeysOf(a + b) == KeysOf(a) + KeysOf(b)
  {
    var c := a + b;
    forall k | k in KeysOf(a) ensures k in KeysOf(c) {
      var i :| 0 <= i < |a| && a[i].key == k;
      assert c[i].key == k;
    }
    forall k | k in KeysOf(b) ensures k in KeysOf(c) {
      var i :| 0 <= i < |b| && b[i].key == k;
      assert c[|a| + i].key == k;
    }
  }

  lemma {:induction false} WithoutKeys(list: seq<Read>, key: string)
    ensures KeysOf(Without(list, key)) == KeysOf(list) - {key}
  {
    if list != [] {
      var front, last := list[..|list| - 1], list[|list| - 1];
      assert list == front + [last];
      WithoutKeys(front, key);
      KeysOfAppend(front, [last]);
      assert KeysOf([last]) == {last.key} by { assert [last][0].key == last.key; }
      KeysOfAppend(Without(front, key), [last]);
    }
  }

  lemma {:induction false} WithoutKeepsOrder(list: seq<Read>, key: string)
    requires InTimeOrder(list)
    ensures InTimeOrder(Without(list, key))
  {
    if list != [] {
      var front, last := list[..|list| - 1], list[|list| - 1];
      assert forall r :: r in front ==> r.at <= last.at;
      WithoutKeepsOrder(front, key);
      WithoutIsPart(front, key);
      AppendKeepsOrder(Without(front, key), last);
    }
  }

  lemma {:induction false} WithoutKeepsDistinct(list: seq<Read>, key: string)
    requires DistinctKeys(list)
    ensures DistinctKeys(Without(list, key))
  {
    if list != [] {
      var front, last := list[..|list| - 1], list[|list| - 1];
      WithoutKeepsDistinct(front, key);
      WithoutKeys(front, key);
      AppendKeepsDistinct(Without(front, key), last);
    }
  }

  lemma WithoutDropsOne(list: seq<Read>, key: string)
    requires DistinctKeys(list)
    ensures |Without(list, key)| == if key in KeysOf(list) then |list| - 1 else |list|
  {
    WithoutKeepsDistinct(list, key);
    WithoutKeys(list, key);
    DistinctCount(list);
    DistinctCount(Without(list, key));
  }

  lemma {:induction false} WithoutIsPart(list: seq<Read>, key: string)
    ensures forall r :: r in Without(list, key) ==> r in list
  {
    if list != [] {
      WithoutIsPart(list[..|list| - 1], key);
    }
  }

  lemma RecencyAppend(history: seq<Read>, last: Read)
    ensures Recency(history + [last]) == Without(Recency(history), last.key) + [last]
  {
    assert (history + [last])[..|history|] == history;
  }

  lemma KeysOfOne(r: Read)
    ensures KeysOf([r]) == {r.key}
  {
    assert [r][0].key == r.key;
  }

  lemma {:induction false} RecencyKeys(history: seq<Read>)
    ensures KeysOf(Recency(history)) == KeysOf(history)
  {
    if history != [] {
      var front, last := history[..|history| - 1], history[|history| - 1];
      assert history == front + [last];
      RecencyKeys(front);
      RecencyAppend(front, last);
      WithoutKeys(Recency(front), last.key);
      KeysOfAppend(front, [last]);
      KeysOfAppend(Without(Recency(front), last.key), [last]);
      KeysOfOne(last);
    }
  }

  lemma AppendKeepsOrder(list: seq<Read>, last: Read)
    requires InTimeOrder(list) && forall r :: r in list ==> r.at <= last.at
    ensures InTimeOrder(list + [last])
  {
  }

  lemma AppendKeepsDistinct(list: seq<Read>, last: Read)
    requires DistinctKeys(list) && last.key !in KeysOf(list)
    ensures DistinctKeys(list + [last])
  {
  }

  lemma {:induction false} RecencyIsOrdered(history: seq<Read>)
    requires InTimeOrder(history)
    ensures InTimeOrder(Recency(history))
    ensures forall r :: r in Recency(history) ==> r in history
  {
    if history != [] {
      var front, last := history[..|history| - 1], history[|history| - 1];
      assert history == front + [last] && forall r :: r in front ==> r.at <= last.at;
      RecencyIsOrdered(front);
      RecencyAppend(front, last);
      WithoutKeepsOrder(Recency(front), last.key);
      WithoutIsPart(Recency(front), last.key);
      AppendKeepsOrder(Without(Recency(front), last.key), last);
    }
  }

  lemma {:induction false} RecencyIsDistinct(history: seq<Read>)
    ensures DistinctKeys(Recency(history))
  {
    if history != [] {
      var front, last := history[..|history| - 1], history[|history| - 1];
      assert history == front + [last];
      RecencyIsDistinct(front);
      RecencyAppend(front, last);
      WithoutKeepsDistinct(Recency(front), last.key);
      WithoutKeys(Recency(front), last.key);
      AppendKeepsDistinct(Without(Recency(front), last.key), last);
    }
  }

  /** Where the last read of a key stands in the order of recency: after it come the keys read since. */
  lemma {:induction false} RecencySplits(history: seq<Read>, key: string, i: nat) returns (a: seq<Read>, b: seq<Read>)
    requires LastReadAt(history, key, i)
    ensures Recency(history) == a + [history[i]] + b && KeysOf(b) == KeysOf(history[i + 1..])
  {
    var front, last := history[..|history| - 1], history[|history| - 1];
    assert history == front + [last];
    if i == |history| - 1 {
      RecencyAppend(front, last);
      a, b := Without(Recency(front), last.key), [];
    } else {
      assert last.key != key && LastReadAt(front, key, i);
      a, b := RecencySplits(front, key, i);
      SplitAppend(front, last, i, a, b);
      a, b := Without(a, last.key), Without(b, last.key) + [last];
    }
  }

  lemma SplitAppend(front: seq<Read>, last: Read, i: nat, a: seq<Read>, b: seq<Read>)
    requires i < |front| && front[i].key != last.key
    requires Recency(front) == a + [front[i]] + b && KeysOf(b) == KeysOf(front[i + 1..])
    ensures Recency(front + [last]) == Without(a, last.key) + [front[i]] + (Without(b, last.key) + [last])
    ensures KeysOf(Without(b, last.key) + [last]) == KeysOf((front + [last])[i + 1..])
  {
    ReadSince(front[i + 1..], last, b);
    SliceAppend(front, last, i + 1);
    RecencyAppend(front, last);
    WithoutMiddle(a, front[i], b, last.key);
    assert Without(a, last.key) + [front[i]] + Without(b, last.key) + [last]
        == Without(a, last.key) + [front[i]] + (Without(b, last.key) + [last]);
  }

  lemma SliceAppend(front: seq<Read>, last: Read, i: nat)
    requires i <= |front|
    ensures (front + [last])[i..] == front[i..] + [last]
  {
  }

  lemma ReadSince(since: seq<Read>, last: Read, b: seq<Read>)
    requires KeysOf(b) == KeysOf(since)
    ensures KeysOf(Without(b, last.key) + [last]) == KeysOf(since + [last])
  {
    WithoutKeys(b, last.key);
    KeysOfAppend(Without(b, last.key), [last]);
    KeysOfAppend(since, [last]);
    KeysOfOne(last);
  }

  lemma WithoutMiddle(a: seq<Read>, r: Read, b: seq<Read>, key: string)
    requires r.key != key
    ensures Without(a + [r] + b, key) == Without(a, key) + [r] + Without(b, key)
  {
    WithoutAppend(a + [r], b, key);
    WithoutAppend(a, [r], key);
    KeysOfOne(r);
    WithoutAbsent([r], key);
  }

  lemma {:induction false} DistinctCount(list: seq<Read>)
    requires DistinctKeys(list)
    ensures |KeysOf(list)| == |list|
  {
    if list != [] {
      var front, last := list[..|list| - 1], list[|list| - 1];
      DistinctCount(front);
      assert list == front + [last];
      KeysOfAppend(front, [last]);
      assert KeysOf([last]) == {last.key} by { assert [last][0].key == last.key; }
      assert last.key !in KeysOf(front);
    }
  }

  /** In time order, what is unexpired is a suffix. */
  lemma {:induction false} UnexpiredIsSuffix(list: seq<Read>, now: int)
    requires InTimeOrder(list)
    ensures var n := |list| - |Unexpired(list, now)|;
      && Unexpired(list, now) == list[n..]
      && (forall i :: 0 <= i < n ==> now - list[i].at > PAGINATION_REPEAT_WINDOW_MS)
      && (forall i :: n <= i < |list| ==> now - list[i].at <= PAGINATION_REPEAT_WINDOW_MS)
  {
    if list != [] {
      var front, last := list[..|list| - 1], list[|list| - 1];
      UnexpiredIsSuffix(front, now);
      if now - last.at > PAGINATION_REPEAT_WINDOW_MS {
        assert forall i :: 0 <= i < |front| ==> front[i].at <= last.at;
        assert Unexpired(list, now) == [];
      }
    }
  }

  lemma {:induction false} UnexpiredIsPart(list: seq<Read>, now: int)
    ensures forall r :: r in Unexpired(list, now) ==> r in list
  {
    if list != [] {
      UnexpiredIsPart(list[..|list| - 1], now);
    }
  }

  // ---- the bounded map against the whole history ----

  predicate Expired(r: Read, now: int) {
    now - r.at > PAGINATION_REPEAT_WINDOW_MS
  }

  predicate AllExpired(list: seq<Read>, now: int) {
    forall i :: 0 <= i < |list| ==> Expired(list[i], now)
  }

  /** What is missing from a map was over age at `now`, or is older than 2047 others. */
  predicate Excused(missing: seq<Read>, entries: seq<Read>, now: int) {
    |entries| >= PAGINATION_SEEN_MAX - 1 || AllExpired(missing, now)
  }

  /** The map holds the most recent part of the order of recency. */
  ghost predicate Tracks(history: seq<Read>, entries: seq<Read>, now: int) {
    && InTimeOrder(history) && (forall r :: r in history ==> r.at <= now)
    && |entries| <= PAGINATION_SEEN_MAX && IsRecent(Recency(history), entries, now)
  }

  ghost predicate IsRecent(all: seq<Read>, entries: seq<Read>, now: int) {
    exists missing :: all == missing + entries && Excused(missing, entries, now)
  }

  /** What a read leaves of the map before it looks for its key. */
  function Kept(entries: seq<Read>, now: int): seq<Read> {
    Trimmed(Unexpired(entries, now))
  }

  lemma KeptTracks(history: seq<Read>, entries: seq<Read>, before: int, now: int)
    requires Tracks(history, entries, before) && before <= now
    ensures Tracks(history, Kept(entries, now), now) && |Kept(entries, now)| < PAGINATION_SEEN_MAX
    ensures AllUnexpired(Kept(entries, now), now)
  {
    RecencyIsOrdered(history);
    KeptIsRecent(Recency(history), entries, before, now);
  }

  /** A read drops what is over age, or all but the newest 2047. */
  lemma KeptSplits(entries: seq<Read>, now: int) returns (gone: seq<Read>)
    requires InTimeOrder(entries)
    ensures entries == gone + Kept(entries, now) && AllUnexpired(Kept(entries, now), now)
    ensures |Kept(entries, now)| == PAGINATION_SEEN_MAX - 1 || AllExpired(gone, now)
  {
    UnexpiredIsSuffix(entries, now);
    gone := entries[..|entries| - |Kept(entries, now)|];
  }

  predicate AllUnexpired(list: seq<Read>, now: int) {
    forall i :: 0 <= i < |list| ==> !Expired(list[i], now)
  }

  lemma KeptIsRecent(all: seq<Read>, entries: seq<Read>, before: int, now: int)
    requires InTimeOrder(all) && IsRecent(all, entries, before) && before <= now
    ensures IsRecent(all, Kept(entries, now), now) && AllUnexpired(Kept(entries, now), now)
  {
    var missing :| all == missing + entries && Excused(missing, entries, before);
    assert InTimeOrder(entries) by { SuffixInOrder(missing, entries); }
    var kept := Kept(entries, now);
    var gone := KeptSplits(entries, now);
    assert all == (missing + gone) + kept;
    if |kept| < PAGINATION_SEEN_MAX - 1 {
      MissingExpired(missing, entries, gone, before, now);
    }
    assert Excused(missing + gone, kept, now);
  }

  lemma SuffixInOrder(a: seq<Read>, b: seq<Read>)
    requires InTimeOrder(a + b)
    ensures InTimeOrder(b)
  {
    forall i, j | 0 <= i < j < |b| ensures b[i].at <= b[j].at {
      assert (a + b)[|a| + i] == b[i] && (a + b)[|a| + j] == b[j];
    }
  }

  /** In time order, what is missing is at least as old as what went after it. */
  lemma MissingExpired(missing: seq<Read>, entries: seq<Read>, gone: seq<Read>, before: int, now: int)
    requires InTimeOrder(missing + entries) && Excused(missing, entries, before) && before <= now
    requires gone <= entries && AllExpired(gone, now) && (gone == [] ==> |entries| < PAGINATION_SEEN_MAX - 1)
    ensures AllExpired(missing + gone, now)
  {
    forall i | 0 <= i < |missing| ensures Expired(missing[i], now) {
      if gone != [] {
        assert (missing + entries)[i] == missing[i] && (missing + entries)[|missing|] == gone[0];
      }
    }
  }

  /** The bounded map knows exactly what the whole history says. */
  lemma KeptAgrees(history: seq<Read>, kept: seq<Read>, key: string, now: int)
    requires Tracks(history, kept, now) && |kept| < PAGINATION_SEEN_MAX && AllUnexpired(kept, now)
    ensures key in KeysOf(kept) <==> Repeats(history, key, now)
  {
    RecencyIsDistinct(history);
    var missing :| Recency(history) == missing + kept && Excused(missing, kept, now);
    if Repeats(history, key, now) {
      var i: nat :| LastReadAt(history, key, i) && now - history[i].at <= PAGINATION_REPEAT_WINDOW_MS
        && |KeysOf(history[i + 1..])| < PAGINATION_SEEN_MAX - 1;
      var a, b := Rank(history, key, i);
      FreshIsKept(a, history[i], b, missing, kept, now);
    }
    if key in KeysOf(kept) {
      RecencyKeys(history);
      KeysOfAppend(missing, kept);
      var i := LastOf(history, key);
      var a, b := Rank(history, key, i);
      KeptIsFresh(a, history[i], b, missing, kept, now);
      assert |KeysOf(history[i + 1..])| < PAGINATION_SEEN_MAX - 1;
    }
  }

  /** An unexpired read with fewer than 2047 behind it is not missing. */
  lemma FreshIsKept(a: seq<Read>, r: Read, b: seq<Read>, missing: seq<Read>, kept: seq<Read>, now: int)
    requires a + [r] + b == missing + kept && Excused(missing, kept, now)
    requires !Expired(r, now) && |b| < PAGINATION_SEEN_MAX - 1
    ensures r.key in KeysOf(kept)
  {
    var all := a + [r] + b;
    assert all[|a|] == r && |all| == |missing| + |kept| && |b| == |all| - |a| - 1;
    assert AllExpired(missing, now) || |a| >= |missing|;
    assert forall i :: 0 <= i < |missing| ==> all[i] == missing[i];
    assert kept[|a| - |missing|] == r;
  }

  /** A read that is kept is unexpired and has fewer than 2047 behind it. */
  lemma KeptIsFresh(a: seq<Read>, r: Read, b: seq<Read>, missing: seq<Read>, kept: seq<Read>, now: int)
    requires a + [r] + b == missing + kept && DistinctKeys(missing + kept)
    requires r.key in KeysOf(kept) && AllUnexpired(kept, now) && |kept| < PAGINATION_SEEN_MAX
    ensures !Expired(r, now) && |b| < PAGINATION_SEEN_MAX - 1
  {
    var all := missing + kept;
    var n :| 0 <= n < |kept| && kept[n].key == r.key;
    assert all[|missing| + n] == kept[n] && all[|a|] == r;
    assert |a| == |missing| + n;
  }

  lemma Rank(history: seq<Read>, key: string, i: nat) returns (a: seq<Read>, b: seq<Read>)
    requires LastReadAt(history, key, i)
    ensures Recency(history) == a + [history[i]] + b && |b| == |KeysOf(history[i + 1..])|
  {
    a, b := RecencySplits(history, key, i);
    RecencyIsDistinct(history);
    var all := Recency(history);
    assert b == all[|a| + 1..];
    DistinctCount(b);
  }

  lemma {:induction false} LastOf(history: seq<Read>, key: string) returns (i: nat)
    requires key in KeysOf(history)
    ensures LastReadAt(history, key, i)
  {
    var front, last := history[..|history| - 1], history[|history| - 1];
    if last.key == key {
      i := |history| - 1;
    } else {
      assert history == front + [last];
      KeysOfAppend(front, [last]);
      KeysOfOne(last);
      i := LastOf(front, key);
    }
  }

  /** After a read its key is the most recent one. */
  lemma ReadTracks(history: seq<Read>, kept: seq<Read>, key: string, now: int)
    requires Tracks(history, kept, now) && |kept| < PAGINATION_SEEN_MAX
    ensures Tracks(history + [Read(key, now)], Without(kept, key) + [Read(key, now)], now)
  {
    RecencyAppend(history, Read(key, now));
    RecencyIsDistinct(history);
    AppendKeepsOrder(history, Read(key, now));
    ReadIsRecent(Recency(history), kept, Read(key, now), now);
  }

  lemma ReadIsRecent(all: seq<Read>, kept: seq<Read>, r: Read, now: int)
    requires DistinctKeys(all) && IsRecent(all, kept, now)
    ensures IsRecent(Without(all, r.key) + [r], Without(kept, r.key) + [r], now)
  {
    var missing :| all == missing + kept && Excused(missing, kept, now);
    var rest, entries := Without(missing, r.key), Without(kept, r.key) + [r];
    WithoutAppend(missing, kept, r.key);
    assert Without(all, r.key) + [r] == rest + entries;
    SuffixDistinct(missing, kept);
    WithoutDropsOne(kept, r.key);
    if AllExpired(missing, now) {
      WithoutExpired(missing, r.key, now);
    }
    assert Excused(rest, entries, now);
  }

  lemma SuffixDistinct(a: seq<Read>, b: seq<Read>)
    requires DistinctKeys(a + b)
    ensures DistinctKeys(b)
  {
    forall i, j | 0 <= i < j < |b| ensures b[i].key != b[j].key {
      assert (a + b)[|a| + i] == b[i] && (a + b)[|a| + j] == b[j];
    }
  }

  lemma {:induction false} WithoutExpired(list: seq<Read>, key: string, now: int)
    requires AllExpired(list, now)
    ensures AllExpired(Without(list, key), now)
  {
    if list != [] {
      assert AllExpired(list[..|list| - 1], now);
      WithoutExpired(list[..|list| - 1], key, now);
    }
  }

  function Next(entries: seq<Read>, key: string, now: int): seq<Read> {
    Without(Kept(entries, now), key) + [Read(key, now)]
  }

  ghost predicate NoEmptyKey(entries: seq<Read>) {
    forall r :: r in entries ==> r.key != ""
  }

  /** One read: the map keeps tracking the history, and knows what the history says. */
  lemma OneRead(history: seq<Read>, entries: seq<Read>, key: string, before: int, now: int)
    requires Tracks(history, entries, before) && before <= now && key != "" && NoEmptyKey(entries)
    ensures Tracks(history + [Read(key, now)], Next(entries, key, now), now)
    ensures NoEmptyKey(Unexpired(entries, now)) && NoEmptyKey(Next(entries, key, now))
    ensures key in KeysOf(Kept(entries, now)) <==> Repeats(history, key, now)
  {
    var kept := Kept(entries, now);
    KeptTracks(history, entries, before, now);
    KeptAgrees(history, kept, key, now);
    ReadTracks(history, kept, key, now);
    UnexpiredIsPart(entries, now);
    WithoutIsPart(kept, key);
  }

  lemma TrackedIsOrdered(history: seq<Read>, entries: seq<Read>, now: int)
    requires Tracks(history, entries, now)
    ensures |entries| <= PAGINATION_SEEN_MAX && InTimeOrder(entries) && DistinctKeys(entries)
  {
    RecencyIsOrdered(history);
    RecencyIsDistinct(history);
    var missing :| Recency(history) == missing + entries && Excused(missing, entries, now);
    SuffixInOrder(missing, entries);
    SuffixDistinct(missing, entries);
  }

  lemma UnexpiredAppend(list: seq<Read>, r: Read, now: int)
    ensures Unexpired(list + [r], now) == if Expired(r, now) then Unexpired(list, now) else Unexpired(list, now) + [r]
  {
    assert (list + [r])[..|list|] == list;
  }

  lemma Shift(a: seq<Read>, b: seq<Read>)
    requires b != []
    ensures (a + b)[|a|] == b[0]
    ensures a + b == (a + [b[0]]) + b[1..]
    ensures (a + b)[..|a|] + (a + b)[|a| + 1..] == a + b[1..]
  {
  }

  class PaginationReads {
    var entries: seq<Read>
    ghost var history: seq<Read>
    ghost var latest: int

    ghost predicate Valid()
      reads this
    {
      Tracks(history, entries, latest) && NoEmptyKey(entries)
    }

    constructor ()
      ensures Valid() && history == [] && latest == 0
    {
      entries, history, latest := [], [], 0;
      assert Recency([]) == [] + [] && Excused([], [], 0);
    }

    /** Answers from a map of at most 2048 entries, in the order of their last reads, what the whole
        history of reads says. */
    method RecordPaginationRead(contact: string, job: string, offset: nat, now: int) returns (repeated: bool)
      requires Valid() && latest <= now
      modifies this
      ensures Valid() && latest == now && history == old(history) + [Read(KeyOf(contact, job, offset), now)]
      ensures repeated <==> Repeats(old(history), KeyOf(contact, job, offset), now)
      ensures |entries| <= 2_048 && InTimeOrder(entries) && DistinctKeys(entries)
    {
      var key := KeyOf(contact, job, offset);
      OneRead(history, entries, key, latest, now);
      Expire(now);
      Evict();
      repeated := key in KeysOf(entries);
      entries := Without(entries, key) + [Read(key, now)];
      history, latest := history + [Read(key, now)], now;
      TrackedIsOrdered(history, entries, latest);
    }

    method Expire(now: int)
      modifies this`entries
      ensures entries == Unexpired(old(entries), now)
    {
      ghost var seen, live, rest := [], [], entries;
      var i := 0;
      while i < |entries|
        invariant old(entries) == seen + rest
        invariant live == Unexpired(seen, now) && i == |live| && entries == live + rest
        decreases |entries| - i
      {
        Shift(seen, rest);
        Shift(live, rest);
        UnexpiredAppend(seen, rest[0], now);
        if now - entries[i].at > PAGINATION_REPEAT_WINDOW_MS {
          entries := entries[..i] + entries[i + 1..];
        } else {
          i := i + 1;
          live := live + [rest[0]];
        }
        seen, rest := seen + [rest[0]], rest[1..];
      }
      assert rest == [] && seen + rest == seen && live + rest == live;
    }

    method Evict()
      requires NoEmptyKey(entries)
      modifies this`entries
      ensures entries == Trimmed(old(entries))
    {
      while |entries| >= PAGINATION_SEEN_MAX
        invariant |entries| <= |old(entries)| && entries == old(entries)[|old(entries)| - |entries|..]
        invariant |old(entries)| >= PAGINATION_SEEN_MAX ==> |entries| >= PAGINATION_SEEN_MAX - 1
        invariant |old(entries)| < PAGINATION_SEEN_MAX ==> entries == old(entries)
      {
        var oldest := entries[0].key;
        if oldest == "" {
          break;
        }
        entries := entries[1..];
      }
    }
  }

  // ---- pages ----

  datatype Page = Page(text: string, nextOffset: nat, atEnd: bool)

  function PageAt(payload: string, offset: nat, limit: nat): Page {
    var start := if offset < |payload| then offset else |payload|;
    var end := if start + limit < |payload| then start + limit else |payload|;
    Page(payload[start..end], end, end >= |payload|)
  }

  /** A page starts where it was asked to and has the characters asked for, as far as there are any; it is
      the last if and only if nothing is left behind it. */
  lemma PageHolds(payload: string, offset: nat, limit: nat)
    requires offset <= |payload|
    ensures var page, left := PageAt(payload, offset, limit), |payload| - offset;
      && |page.text| == (if limit < left then limit else left)
      && (forall i :: 0 <= i < |page.text| ==> page.text[i] == payload[offset + i])
      && page.nextOffset == offset + |page.text| && (page.atEnd <==> limit >= left)
  {
  }

  /** Behind the end there is an empty last page. */
  lemma PageBehindEnd(payload: string, offset: nat, limit: nat)
    requires offset > |payload|
    ensures PageAt(payload, offset, limit) == Page("", |payload|, true)
  {
  }

  type Limit = n: nat | 1 <= n witness 1

  /** The pages a reader gets who starts at `offset` and follows `nextOffset` until `atEnd`, choosing a
      limit for every request. */
  function Follow(payload: string, offset: nat, limits: nat -> Limit, request: nat): seq<Page>
    decreases |payload| - offset
  {
    var page := PageAt(payload, offset, limits(request));
    if page.atEnd then [page] else [page] + Follow(payload, page.nextOffset, limits, request + 1)
  }

  function Texts(pages: seq<Page>): string {
    if pages == [] then "" else pages[0].text + Texts(pages[1..])
  }

  lemma {:induction false} FollowReadsTheRest(payload: string, offset: nat, limits: nat -> Limit, request: nat)
    requires offset <= |payload|
    decreases |payload| - offset
    ensures Texts(Follow(payload, offset, limits, request)) == payload[offset..]
  {
    var page := PageAt(payload, offset, limits(request));
    if page.atEnd {
      assert Texts([page]) == page.text + Texts([]);
    } else {
      var rest := Follow(payload, page.nextOffset, limits, request + 1);
      FollowReadsTheRest(payload, page.nextOffset, limits, request + 1);
      assert Texts([page] + rest) == page.text + Texts(rest) by { assert ([page] + rest)[1..] == rest; }
      assert payload[offset..] == page.text + payload[page.nextOffset..];
    }
  }

  predicate Forward(pages: seq<Page>, offset: nat) {
    && (forall i :: 0 <= i < |pages| - 1 ==> offset < pages[i].nextOffset)
    && (forall i, j :: 0 <= i < j < |pages| ==> pages[i].nextOffset <= pages[j].nextOffset)
    && (forall i, j :: 0 <= i < j < |pages| - 1 ==> pages[i].nextOffset < pages[j].nextOffset)
  }

  /** Only the last page says that it is the last, and every request asks for a later offset. */
  lemma {:induction false} FollowGoesForward(payload: string, offset: nat, limits: nat -> Limit, request: nat)
    requires offset <= |payload|
    decreases |payload| - offset
    ensures var pages := Follow(payload, offset, limits, request);
      && pages != [] && pages[|pages| - 1].atEnd && (forall i :: 0 <= i < |pages| - 1 ==> !pages[i].atEnd)
      && Forward(pages, offset) && pages[0].nextOffset >= offset
  {
    var page := PageAt(payload, offset, limits(request));
    if !page.atEnd {
      FollowGoesForward(payload, page.nextOffset, limits, request + 1);
    }
  }

  /** Reading from the start gives the whole payload, in pages none of which is asked for twice. */
  lemma PagesAreThePayload(payload: string, limits: nat -> Limit)
    ensures var pages := Follow(payload, 0, limits, 0);
      && Texts(pages) == payload
      && pages != [] && pages[|pages| - 1].atEnd && (forall i :: 0 <= i < |pages| - 1 ==> !pages[i].atEnd)
      && Forward(pages, 0) && |pages| <= |payload| + 1
  {
    FollowReadsTheRest(payload, 0, limits, 0);
    FollowGoesForward(payload, 0, limits, 0);
    FewPages(payload, 0, limits, 0);
  }

  lemma {:induction false} FewPages(payload: string, offset: nat, limits: nat -> Limit, request: nat)
    requires offset <= |payload|
    decreases |payload| - offset
    ensures |Follow(payload, offset, limits, request)| <= |payload| - offset + 1
  {
    var page := PageAt(payload, offset, limits(request));
    if !page.atEnd {
      FewPages(payload, page.nextOffset, limits, request + 1);
    }
  }
}
