/** server/src/companion/lifeEvents.ts: the table of life events, and the block of lines that another
    contact is told about. */
module LifeEvents {
  import opened Sequences
  import TaobaoContent

  datatype Severity = Safety | Health | Schedule | Mood
  datatype Status = Active | Resolved | Expired

  /** `id` is the primary key; times are milliseconds. */
  datatype LifeEvent = LifeEvent(id: int, severity: Severity, status: Status, summary: string, source: string,
      updatedAt: int)

  const BLOCK_MAX_CHARS := 700
  const BLOCK_MAX_EVENTS := 5
  const BLOCK_MAX_SAFETY := 3

  function TtlHours(s: Severity): int {
    match s case Safety => 48 case Health => 24 case Schedule => 12 case Mood => 6
  }

  function SeverityIndex(s: Severity): int {
    match s case Safety => 0 case Health => 1 case Schedule => 2 case Mood => 3
  }

  predicate Lapsed(e: LifeEvent, now: int) {
    now - e.updatedAt > TtlHours(e.severity) * 60 * 60_000
  }

  // ---- sorting ----

  datatype Criterion = Recency | SeverityThenRecency

  predicate Ahead(c: Criterion, a: LifeEvent, b: LifeEvent) {
    if c.SeverityThenRecency? && a.severity != b.severity then SeverityIndex(a.severity) < SeverityIndex(b.severity)
    else a.updatedAt > b.updatedAt
  }

  predicate Sorted(c: Criterion, list: seq<LifeEvent>) {
    forall i, j :: 0 <= i < j < |list| ==> !Ahead(c, list[j], list[i])
  }

  /** Behind everything it is not ahead of: equals keep their order. */
  function Insert(c: Criterion, list: seq<LifeEvent>, e: LifeEvent): seq<LifeEvent> {
    if list == [] || !Ahead(c, e, list[|list| - 1]) then list + [e]
    else Insert(c, list[..|list| - 1], e) + [list[|list| - 1]]
  }

  function Sort(c: Criterion, list: seq<LifeEvent>): seq<LifeEvent> {
    if list == [] then [] else Insert(c, Sort(c, list[..|list| - 1]), list[|list| - 1])
  }

  lemma {:induction false} InsertKeepsAll(c: Criterion, list: seq<LifeEvent>, e: LifeEvent)
    ensures multiset(Insert(c, list, e)) == multiset(list) + multiset{e}
  {
    if list != [] && Ahead(c, e, list[|list| - 1]) {
      InsertKeepsAll(c, list[..|list| - 1], e);
      assert list == list[..|list| - 1] + [list[|list| - 1]];
    }
  }

  lemma InsertMembers(c: Criterion, list: seq<LifeEvent>, e: LifeEvent)
    ensures forall x :: x in Insert(c, list, e) ==> x in list || x == e
  {
    InsertKeepsAll(c, list, e);
    forall x | x in Insert(c, list, e) ensures x in list || x == e {
      assert x in multiset(Insert(c, list, e));
    }
  }

  lemma SortedAppend(c: Criterion, list: seq<LifeEvent>, e: LifeEvent)
    requires Sorted(c, list) && forall x :: x in list ==> !Ahead(c, e, x)
    ensures Sorted(c, list + [e])
  {
  }

  lemma {:induction false} InsertSorts(c: Criterion, list: seq<LifeEvent>, e: LifeEvent)
    requires Sorted(c, list)
    ensures Sorted(c, Insert(c, list, e))
  {
    if list != [] && Ahead(c, e, list[|list| - 1]) {
      var front, last := list[..|list| - 1], list[|list| - 1];
      InsertSorts(c, front, e);
      InsertMembers(c, front, e);
      SortedAppend(c, Insert(c, front, e), last);
    } else {
      forall x | x in list ensures !Ahead(c, e, x) {
        var i :| 0 <= i < |list| && list[i] == x;
        assert i == |list| - 1 || !Ahead(c, list[|list| - 1], list[i]);
      }
      SortedAppend(c, list, e);
    }
  }

  lemma {:induction false} SortSorts(c: Criterion, list: seq<LifeEvent>)
    ensures Sorted(c, Sort(c, list)) && multiset(Sort(c, list)) == multiset(list)
  {
    if list != [] {
      var front, last := list[..|list| - 1], list[|list| - 1];
      SortSorts(c, front);
      InsertSorts(c, Sort(c, front), last);
      InsertKeepsAll(c, Sort(c, front), last);
      assert list == front + [last];
    }
  }

  lemma SortMembers(c: Criterion, list: seq<LifeEvent>)
    ensures forall e :: e in Sort(c, list) <==> e in list
  {
    SortSorts(c, list);
    forall e ensures e in Sort(c, list) <==> e in list {
      assert e in Sort(c, list) <==> e in multiset(Sort(c, list));
      assert e in list <==> e in multiset(list);
    }
  }

  // ---- the table ----

  predicate DistinctIds(table: seq<LifeEvent>) {
    forall i, j :: 0 <= i < j < |table| ==> table[i].id != table[j].id
  }

  function Where(table: seq<LifeEvent>, keep: LifeEvent -> bool): seq<LifeEvent> {
    if table == [] then []
    else
      var before, last := Where(table[..|table| - 1], keep), table[|table| - 1];
      if keep(last) then before + [last] else before
  }

  lemma {:induction false} WhereMembers(table: seq<LifeEvent>, keep: LifeEvent -> bool)
    ensures forall e :: e in Where(table, keep) <==> e in table && keep(e)
  {
    if table != [] {
      WhereMembers(table[..|table| - 1], keep);
      assert table == table[..|table| - 1] + [table[|table| - 1]];
    }
  }

  lemma WhereAppend(table: seq<LifeEvent>, e: LifeEvent, keep: LifeEvent -> bool)
    ensures Where(table + [e], keep) == if keep(e) then Where(table, keep) + [e] else Where(table, keep)
  {
    assert (table + [e])[..|table|] == table;
  }

  /** The query for active events, newest first. */
  function ActiveRows(table: seq<LifeEvent>): seq<LifeEvent> {
    Sort(Recency, Where(table, (e: LifeEvent) => e.status.Active?))
  }

  function Alive(table: seq<LifeEvent>, now: int): seq<LifeEvent> {
    Where(ActiveRows(table), (e: LifeEvent) => !Lapsed(e, now))
  }

  /** Events that are found over age stop being active. */
  function Lapse(table: seq<LifeEvent>, now: int): seq<LifeEvent> {
    seq(|table|, i requires 0 <= i < |table| =>
      if table[i].status.Active? && Lapsed(table[i], now) then table[i].(status := Expired) else table[i])
  }

  // ---- lazy expiry ----

  lemma {:induction false} InsertWhere(c: Criterion, list: seq<LifeEvent>, e: LifeEvent, keep: LifeEvent -> bool)
    requires Sorted(c, list)
    ensures Where(Insert(c, list, e), keep) == if keep(e) then Insert(c, Where(list, keep), e) else Where(list, keep)
  {
    if list != [] && Ahead(c, e, list[|list| - 1]) {
      var front, last := list[..|list| - 1], list[|list| - 1];
      InsertWhere(c, front, e, keep);
      WhereAppend(Insert(c, front, e), last, keep);
      if keep(last) {
        InsertBefore(c, Where(front, keep), e, last);
      }
    } else {
      WhereAppend(list, e, keep);
      if keep(e) {
        InsertLast(c, list, e, keep);
      }
    }
  }

  lemma InsertBefore(c: Criterion, list: seq<LifeEvent>, e: LifeEvent, last: LifeEvent)
    requires Ahead(c, e, last)
    ensures Insert(c, list + [last], e) == Insert(c, list, e) + [last]
  {
    assert (list + [last])[..|list|] == list;
  }

  lemma InsertLast(c: Criterion, list: seq<LifeEvent>, e: LifeEvent, keep: LifeEvent -> bool)
    requires Sorted(c, list) && (list == [] || !Ahead(c, e, list[|list| - 1]))
    ensures Insert(c, Where(list, keep), e) == Where(list, keep) + [e]
  {
    var kept := Where(list, keep);
    WhereMembers(list, keep);
    if kept != [] {
      assert kept[|kept| - 1] in list;
      var i :| 0 <= i < |list| && list[i] == kept[|kept| - 1];
      assert i == |list| - 1 || !Ahead(c, list[|list| - 1], list[i]);
    }
  }

  lemma {:induction false} SortWhere(c: Criterion, list: seq<LifeEvent>, keep: LifeEvent -> bool)
    ensures Where(Sort(c, list), keep) == Sort(c, Where(list, keep))
  {
    if list != [] {
      var front, last := list[..|list| - 1], list[|list| - 1];
      SortWhere(c, front, keep);
      SortSorts(c, front);
      InsertWhere(c, Sort(c, front), last, keep);
      assert (Where(front, keep) + [last])[..|Where(front, keep)|] == Where(front, keep);
    }
  }

  /** Filtering one table by two conditions and another by two others, event by event to the same effect. */
  lemma {:induction false} SameWhere(a: seq<LifeEvent>, b: seq<LifeEvent>, active: LifeEvent -> bool,
      young: LifeEvent -> bool)
    requires |a| == |b|
    requires forall i :: 0 <= i < |a| ==>
        (active(a[i]) && young(a[i]) <==> active(b[i]) && young(b[i])) && (active(a[i]) && young(a[i]) ==> a[i] == b[i])
    ensures Where(Where(a, active), young) == Where(Where(b, active), young)
  {
    if a != [] {
      var n := |a| - 1;
      SameWhere(a[..n], b[..n], active, young);
      WhereAppend(Where(a[..n], active), a[n], young);
      WhereAppend(Where(b[..n], active), b[n], young);
    }
  }

  /** Marking events as expired when somebody looks, rather than on time, is never seen: whoever looks later finds
      what he would have found anyway. */
  lemma LazyExpiryUnseen(table: seq<LifeEvent>, looked: int, now: int)
    requires looked <= now
    ensures Alive(Lapse(table, looked), now) == Alive(table, now)
  {
    var active, young := (e: LifeEvent) => e.status.Active?, (e: LifeEvent) => !Lapsed(e, now);
    SortWhere(Recency, Where(table, active), young);
    SortWhere(Recency, Where(Lapse(table, looked), active), young);
    SameWhere(table, Lapse(table, looked), active, young);
  }

  // ---- choosing the lines ----

  /** What another contact may be told, most urgent first. */
  function Order(table: seq<LifeEvent>, reader: string, now: int): seq<LifeEvent> {
    Sort(SeverityThenRecency, Where(Alive(table, now), (e: LifeEvent) => e.source != reader))
  }

  function JoinedLength(lines: seq<string>): nat {
    if lines == [] then 0
    else if |lines| == 1 then |lines[0]|
    else JoinedLength(lines[..|lines| - 1]) + 1 + |lines[|lines| - 1]|
  }

  /** It is the length of the lines joined by line feeds. */
  lemma {:induction false} JoinedLengthIsLength(lines: seq<string>)
    ensures JoinedLength(lines) == |TaobaoContent.JoinLines(lines)|
  {
    TaobaoContent.JoinLength(lines);
    if lines != [] {
      var front, last := lines[..|lines| - 1], lines[|lines| - 1];
      JoinedLengthIsLength(front);
      TaobaoContent.JoinLength(front);
      TaobaoContent.ConcatAppend(front, last);
      assert lines == front + [last];
      assert |lines| == 1 ==> front == [] && TaobaoContent.Concat(front) == "";
    }
  }

  function Lines(chosen: seq<LifeEvent>, render: LifeEvent -> string): (r: seq<string>)
    ensures |r| == |chosen|
  {
    seq(|chosen|, i requires 0 <= i < |chosen| => render(chosen[i]))
  }

  lemma LinesAppend(chosen: seq<LifeEvent>, e: LifeEvent, render: LifeEvent -> string)
    ensures Lines(chosen + [e], render) == Lines(chosen, render) + [render(e)]
    ensures JoinedLength(Lines(chosen + [e], render)) ==
      if chosen == [] then |render(e)| else JoinedLength(Lines(chosen, render)) + 1 + |render(e)|
  {
    assert Lines(chosen + [e], render) == Lines(chosen, render) + [render(e)];
    assert (Lines(chosen, render) + [render(e)])[..|chosen|] == Lines(chosen, render);
  }

  function SafetyCount(chosen: seq<LifeEvent>): nat {
    if chosen == [] then 0
    else SafetyCount(chosen[..|chosen| - 1]) + if chosen[|chosen| - 1].severity.Safety? then 1 else 0
  }

  lemma SafetyCountAppend(chosen: seq<LifeEvent>, e: LifeEvent)
    ensures SafetyCount(chosen + [e]) == SafetyCount(chosen) + if e.severity.Safety? then 1 else 0
  {
    assert (chosen + [e])[..|chosen|] == chosen;
  }

  predicate Takes(chosen: seq<LifeEvent>, e: LifeEvent, render: LifeEvent -> string) {
    && |chosen| < BLOCK_MAX_EVENTS
    && (e.severity.Safety? ==> SafetyCount(chosen) < BLOCK_MAX_SAFETY)
    && (!e.severity.Safety? ==> JoinedLength(Lines(chosen, render)) + |render(e)| <= BLOCK_MAX_CHARS - 260)
  }

  function Choose(order: seq<LifeEvent>, render: LifeEvent -> string): seq<LifeEvent> {
    if order == [] then []
    else
      var before, last := Choose(order[..|order| - 1], render), order[|order| - 1];
      if Takes(before, last, render) then before + [last] else before
  }

  lemma ChooseAppend(order: seq<LifeEvent>, e: LifeEvent, render: LifeEvent -> string)
    ensures Choose(order + [e], render) ==
      if Takes(Choose(order, render), e, render) then Choose(order, render) + [e] else Choose(order, render)
  {
    assert (order + [e])[..|order|] == order;
  }

  /** Once there are five lines, the rest is not looked at. */
  lemma {:induction false} ChooseFull(order: seq<LifeEvent>, rest: seq<LifeEvent>, render: LifeEvent -> string)
    requires |Choose(order, render)| >= BLOCK_MAX_EVENTS
    ensures Choose(order + rest, render) == Choose(order, render)
  {
    if rest == [] {
      assert order + rest == order;
    } else {
      ChooseFull(order, rest[..|rest| - 1], render);
      ChooseAppend(order + rest[..|rest| - 1], rest[|rest| - 1], render);
      assert order + rest == order + rest[..|rest| - 1] + [rest[|rest| - 1]];
    }
  }

  /** The chosen events stand in the order in which they are offered. */
  lemma {:induction false} ChosenIsSubsequence(order: seq<LifeEvent>, render: LifeEvent -> string)
      returns (at: seq<nat>)
    ensures Selects(order, Choose(order, render), at) && |at| <= BLOCK_MAX_EVENTS
  {
    if order == [] {
      at := [];
    } else {
      var front, last := order[..|order| - 1], order[|order| - 1];
      at := ChosenIsSubsequence(front, render);
      SelectsMore(front, Choose(front, render), at, last);
      assert order == front + [last];
      if Takes(Choose(front, render), last, render) {
        at := at + [|front|];
      }
    }
  }

  predicate SafetyFirst(order: seq<LifeEvent>, n: nat) {
    n <= |order| && forall i :: 0 <= i < |order| ==> (order[i].severity.Safety? <==> i < n)
  }

  function Min(a: nat, b: nat): nat {
    if a < b then a else b
  }

  /** Of n safety events the first min(3, n) are chosen, and no other. */
  predicate SafetyIn(order: seq<LifeEvent>, n: nat, chosen: seq<LifeEvent>) {
    var m := Min(BLOCK_MAX_SAFETY, n);
    && m <= |chosen| && m <= |order| && chosen[..m] == order[..m] && SafetyCount(chosen) == m
    && (forall i :: m <= i < |chosen| ==> !chosen[i].severity.Safety?)
    && (n == |order| ==> |chosen| == m)
  }

  predicate WithinBudget(n: nat, chosen: seq<LifeEvent>, render: LifeEvent -> string) {
    |chosen| > Min(BLOCK_MAX_SAFETY, n) ==> JoinedLength(Lines(chosen, render)) <= 441
  }

  lemma SafetyInAfter(front: seq<LifeEvent>, last: LifeEvent, k: nat, n: nat, chosen: seq<LifeEvent>,
      render: LifeEvent -> string)
    requires SafetyFirst(front + [last], n) && n == k + (if last.severity.Safety? then 1 else 0)
    requires SafetyIn(front, k, chosen) && WithinBudget(k, chosen, render)
    ensures var next := if Takes(chosen, last, render) then chosen + [last] else chosen;
      SafetyIn(front + [last], n, next) && WithinBudget(n, next, render)
  {
    assert (front + [last])[|front|] == last;
    assert last.severity.Safety? ==> n == |front| + 1;
    if Takes(chosen, last, render) {
      LinesAppend(chosen, last, render);
      SafetyCountAppend(chosen, last);
      SafetyInTaken(front, last, k, n, chosen);
    }
  }

  lemma SafetyInTaken(front: seq<LifeEvent>, last: LifeEvent, k: nat, n: nat, chosen: seq<LifeEvent>)
    requires SafetyFirst(front + [last], n) && n == k + (if last.severity.Safety? then 1 else 0)
    requires SafetyIn(front, k, chosen)
        && (last.severity.Safety? ==> n == |front| + 1 && SafetyCount(chosen) < BLOCK_MAX_SAFETY)
    requires SafetyCount(chosen + [last]) == SafetyCount(chosen) + if last.severity.Safety? then 1 else 0
    ensures SafetyIn(front + [last], n, chosen + [last])
  {
    var m := Min(BLOCK_MAX_SAFETY, k);
    assert (chosen + [last])[..m] == chosen[..m] && (front + [last])[..m] == front[..m];
    if last.severity.Safety? {
      assert chosen == chosen[..m] && front == front[..m];
    } else {
      assert (front + [last])[|front|] == last;
    }
  }

  /** The first safety events are always in, whatever their length, and only a block of nothing but safety
      lines can be longer than 441 characters. */
  lemma {:induction false} SafetyAlwaysIn(order: seq<LifeEvent>, n: nat, render: LifeEvent -> string)
    requires SafetyFirst(order, n)
    ensures SafetyIn(order, n, Choose(order, render)) && WithinBudget(n, Choose(order, render), render)
  {
    if order != [] {
      var front, last := order[..|order| - 1], order[|order| - 1];
      assert order == front + [last];
      var k := if last.severity.Safety? then n - 1 else n;
      SafetyAlwaysIn(front, k, render);
      ChooseAppend(front, last, render);
      SafetyInAfter(front, last, k, n, Choose(front, render), render);
    }
  }

  /** An event that is not a safety event is left out only for want of room. */
  lemma {:induction false} LeftOutForRoom(order: seq<LifeEvent>, k: nat, render: LifeEvent -> string)
    requires k < |order| && !order[k].severity.Safety?
    ensures var chosen := Choose(order, render);
      order[k] in chosen || |chosen| == BLOCK_MAX_EVENTS
          || JoinedLength(Lines(chosen, render)) + |render(order[k])| > 440
  {
    var front, last := order[..|order| - 1], order[|order| - 1];
    assert order == front + [last];
    ChooseAppend(front, last, render);
    var at := ChosenIsSubsequence(front, render);
    LinesAppend(Choose(front, render), last, render);
    if k < |front| {
      LeftOutForRoom(front, k, render);
    }
  }

  lemma {:induction false} SortedPutsSafetyFirst(order: seq<LifeEvent>) returns (n: nat)
    requires Sorted(SeverityThenRecency, order)
    ensures SafetyFirst(order, n)
  {
    if order == [] {
      n := 0;
    } else {
      var front, last := order[..|order| - 1], order[|order| - 1];
      n := SortedPutsSafetyFirst(front);
      if last.severity.Safety? {
        forall i | 0 <= i < |front| ensures front[i].severity.Safety? {
          assert !Ahead(SeverityThenRecency, order[|order| - 1], order[i]);
        }
        n := |order|;
      }
    }
  }

  // ---- what a reader is told ----

  predicate Offered(table: seq<LifeEvent>, reader: string, now: int, e: LifeEvent) {
    e in table && e.status.Active? && !Lapsed(e, now) && e.source != reader
  }

  lemma OrderOffers(table: seq<LifeEvent>, reader: string, now: int)
    ensures Sorted(SeverityThenRecency, Order(table, reader, now))
    ensures forall e :: e in Order(table, reader, now) <==> Offered(table, reader, now, e)
  {
    var active := Where(table, (e: LifeEvent) => e.status.Active?);
    WhereMembers(table, (e: LifeEvent) => e.status.Active?);
    SortMembers(Recency, active);
    WhereMembers(ActiveRows(table), (e: LifeEvent) => !Lapsed(e, now));
    var others := Where(Alive(table, now), (e: LifeEvent) => e.source != reader);
    WhereMembers(Alive(table, now), (e: LifeEvent) => e.source != reader);
    SortMembers(SeverityThenRecency, others);
    SortSorts(SeverityThenRecency, others);
  }

  /** For every table and reader: at most five lines, none from the reader's own conversation and none over
      age; a safety event that is missing is no newer than three that are told; and the lines are longer
      than 441 characters only when all are safety lines. */
  lemma TurnBlockPromises(table: seq<LifeEvent>, reader: string, now: int, render: LifeEvent -> string)
    ensures var chosen := Choose(Order(table, reader, now), render);
      && |chosen| <= 5 && (forall e :: e in chosen ==> Offered(table, reader, now, e))
      && Sorted(SeverityThenRecency, chosen) && SafetyCount(chosen) <= 3
      && (forall e :: Offered(table, reader, now, e) && e.severity.Safety? && e !in chosen ==> ToldInstead(chosen, e))
      && (JoinedLength(Lines(chosen, render)) > 441 ==> forall i :: 0 <= i < |chosen| ==> chosen[i].severity.Safety?)
  {
    OrderOffers(table, reader, now);
    ChosenPromises(Order(table, reader, now), render);
  }

  lemma ChosenPromises(order: seq<LifeEvent>, render: LifeEvent -> string)
    requires Sorted(SeverityThenRecency, order)
    ensures var chosen := Choose(order, render);
      && |chosen| <= 5 && (forall e :: e in chosen ==> e in order)
      && Sorted(SeverityThenRecency, chosen) && SafetyCount(chosen) <= 3
      && (forall e :: e in order && e.severity.Safety? && e !in chosen ==> ToldInstead(chosen, e))
      && (JoinedLength(Lines(chosen, render)) > 441 ==> forall i :: 0 <= i < |chosen| ==> chosen[i].severity.Safety?)
  {
    var n := SortedPutsSafetyFirst(order);
    SafetyAlwaysIn(order, n, render);
    ChosenSorted(order, render);
    var chosen := Choose(order, render);
    assert forall i :: 0 <= i < Min(BLOCK_MAX_SAFETY, n) ==>
        chosen[i] == chosen[..Min(BLOCK_MAX_SAFETY, n)][i] == order[i];
    forall e | e in order && e.severity.Safety? && e !in chosen ensures ToldInstead(chosen, e) {
      MissingIsOlder(order, n, e, chosen);
    }
  }

  lemma ChosenSorted(order: seq<LifeEvent>, render: LifeEvent -> string)
    requires Sorted(SeverityThenRecency, order)
    ensures var chosen := Choose(order, render);
      |chosen| <= BLOCK_MAX_EVENTS && Sorted(SeverityThenRecency, chosen) && forall e :: e in chosen ==> e in order
  {
    var at := ChosenIsSubsequence(order, render);
    var chosen := Choose(order, render);
    forall i, j | 0 <= i < j < |chosen| ensures !Ahead(SeverityThenRecency, chosen[j], chosen[i]) {
      assert !Ahead(SeverityThenRecency, order[at[j]], order[at[i]]);
    }
  }

  /** An event of the safety kind is told for 48 hours after its last update, one of health for 24, of the
      schedule for 12 and of a mood for 6. */
  lemma OfferedFor(table: seq<LifeEvent>, reader: string, now: int, e: LifeEvent)
    requires e in table && e.status == Active && e.source != reader
    ensures var age := now - e.updatedAt;
      e in Order(table, reader, now) <==>
        || (e.severity == Safety && age <= 172_800_000) || (e.severity == Health && age <= 86_400_000)
        || (e.severity == Schedule && age <= 43_200_000) || (e.severity == Mood && age <= 21_600_000)
  {
    OrderOffers(table, reader, now);
  }

  predicate MoreUrgent(a: Severity, b: Severity) {
    || (a == Safety && b != Safety) || (a == Health && (b == Schedule || b == Mood)) || (a == Schedule && b == Mood)
  }

  /** What is told comes in the order of urgency, safety before health before schedule before mood, and the
      newest first. */
  lemma ToldInOrder(table: seq<LifeEvent>, reader: string, now: int, render: LifeEvent -> string, i: nat, j: nat)
    requires i < j < |Choose(Order(table, reader, now), render)|
    ensures var chosen := Choose(Order(table, reader, now), render);
      && !MoreUrgent(chosen[j].severity, chosen[i].severity)
      && (chosen[i].severity == chosen[j].severity ==> chosen[i].updatedAt >= chosen[j].updatedAt)
  {
    TurnBlockPromises(table, reader, now, render);
    var chosen := Choose(Order(table, reader, now), render);
    assert !Ahead(SeverityThenRecency, chosen[j], chosen[i]);
  }

  /** Three safety events at least as recent are in. */
  predicate ToldInstead(chosen: seq<LifeEvent>, e: LifeEvent) {
    |chosen| >= 3 && forall i :: 0 <= i < 3 ==> chosen[i].severity.Safety? && chosen[i].updatedAt >= e.updatedAt
  }

  lemma MissingIsOlder(order: seq<LifeEvent>, n: nat, e: LifeEvent, chosen: seq<LifeEvent>)
    requires Sorted(SeverityThenRecency, order) && SafetyFirst(order, n) && SafetyIn(order, n, chosen)
    requires e in order && e.severity.Safety? && e !in chosen
    ensures ToldInstead(chosen, e)
  {
    var k :| 0 <= k < |order| && order[k] == e;
    var m := Min(BLOCK_MAX_SAFETY, n);
    assert forall i :: 0 <= i < m ==> chosen[i] == chosen[..m][i] == order[i];
    assert m <= k < n;
    forall i | 0 <= i < 3 ensures chosen[i].severity.Safety? && chosen[i].updatedAt >= e.updatedAt {
      assert !Ahead(SeverityThenRecency, order[k], order[i]);
    }
  }

  // ---- the objects ----

  class LifeEventRepo {
    var table: seq<LifeEvent>

    constructor ()
      ensures table == []
    {
      table := [];
    }

    /** Marks the row with this id as expired. */
    method Expire(id: int)
      modifies this
      ensures |table| == |old(table)|
      ensures forall k :: 0 <= k < |table| ==>
          table[k] == (if old(table)[k].id == id then old(table)[k].(status := Expired) else old(table)[k])
    {
      var before := table;
      table := seq(|before|, k requires 0 <= k < |before| =>
        if before[k].id == id then before[k].(status := Expired) else before[k]);
    }

    method ActiveEvents(now: int) returns (alive: seq<LifeEvent>)
      requires DistinctIds(table)
      modifies this
      ensures alive == Alive(old(table), now)
      ensures table == Lapse(old(table), now)
    {
      ghost var before := table;
      var rows := ActiveRows(table);
      ActiveRowsMembers(table);
      alive := [];
      ghost var seen, rest := [], rows;
      var i := 0;
      while i < |rows|
        invariant i == |seen| <= |rows| && rows == seen + rest
        invariant alive == Where(seen, (e: LifeEvent) => !Lapsed(e, now))
        invariant |table| == |before| && forall k :: 0 <= k < |before| ==> table[k] == Seen(before[k], seen, now)
      {
        var row := rows[i];
        Shift(seen, rest);
        WhereAppend(seen, row, (e: LifeEvent) => !Lapsed(e, now));
        SeenMore(before, seen, row, now);
        seen, rest, i := seen + [row], rest[1..], i + 1;
        if Lapsed(row, now) {
          Expire(row.id);
          continue;
        }
        alive := alive + [row];
      }
      assert seen + rest == seen;
    }
  }

  lemma ActiveRowsMembers(table: seq<LifeEvent>)
    ensures forall e :: e in ActiveRows(table) <==> e in table && e.status.Active?
  {
    WhereMembers(table, (e: LifeEvent) => e.status.Active?);
    SortMembers(Recency, Where(table, (e: LifeEvent) => e.status.Active?));
  }

  /** An event after the rows in `seen` were gone through. */
  function Seen(e: LifeEvent, seen: seq<LifeEvent>, now: int): LifeEvent {
    if e in seen && Lapsed(e, now) then e.(status := Expired) else e
  }

  lemma SeenMore(table: seq<LifeEvent>, seen: seq<LifeEvent>, row: LifeEvent, now: int)
    requires DistinctIds(table) && row in table
    ensures forall k :: 0 <= k < |table| ==>
      Seen(table[k], seen + [row], now) ==
        if table[k].id == row.id && Lapsed(row, now)
        then Seen(table[k], seen, now).(status := Expired) else Seen(table[k], seen, now)
  {
    var n :| 0 <= n < |table| && table[n] == row;
    forall k | 0 <= k < |table| && k != n ensures table[k].id != row.id {
      assert table[if k < n then k else n].id != table[if k < n then n else k].id;
    }
  }

  lemma Shift(a: seq<LifeEvent>, b: seq<LifeEvent>)
    requires b != []
    ensures (a + b)[|a|] == b[0] && a + b == (a + [b[0]]) + b[1..]
  {
  }

  lemma SelectStep(order: seq<LifeEvent>, e: LifeEvent, render: LifeEvent -> string)
    ensures var chosen, next := Choose(order, render), Choose(order + [e], render);
      if Takes(chosen, e, render)
      then next == chosen + [e] && Lines(next, render) == Lines(chosen, render) + [render(e)]
          && SafetyCount(next) == SafetyCount(chosen) + (if e.severity.Safety? then 1 else 0)
      else next == chosen
  {
    ChooseAppend(order, e, render);
    LinesAppend(Choose(order, render), e, render);
    SafetyCountAppend(Choose(order, render), e);
  }

  class LifeEventService {
    const repo: LifeEventRepo

    constructor ()
    {
      repo := new LifeEventRepo();
    }

    /** The lines of the block; none means no block. `render` puts an event into words. */
    method TurnBlock(reader: string, enabled: bool, now: int, render: LifeEvent -> string) returns (lines: seq<string>)
      requires DistinctIds(repo.table)
      modifies repo
      ensures !enabled ==> lines == [] && repo.table == old(repo.table)
      ensures enabled ==> lines == Lines(Choose(Order(old(repo.table), reader, now), render), render)
      ensures enabled ==> repo.table == Lapse(old(repo.table), now)
    {
      if !enabled {
        return [];
      }
      var alive := repo.ActiveEvents(now);
      var events := Sort(SeverityThenRecency, Where(alive, (e: LifeEvent) => e.source != reader));
      lines := Select(events, render);
    }

    static method Select(events: seq<LifeEvent>, render: LifeEvent -> string) returns (lines: seq<string>)
      ensures lines == Lines(Choose(events, render), render)
    {
      lines := [];
      var safetyCount := 0;
      ghost var seen, rest, chosen := [], events, [];
      var i := 0;
      while i < |events|
        invariant i == |seen| <= |events| && events == seen + rest
        invariant chosen == Choose(seen, render) && lines == Lines(chosen, render) && safetyCount == SafetyCount(chosen)
      {
        if |lines| >= BLOCK_MAX_EVENTS {
          ChooseFull(seen, rest, render);
          return;
        }
        var event := events[i];
        SelectStep(seen, event, render);
        Shift(seen, rest);
        seen, rest, i := seen + [event], rest[1..], i + 1;
        if event.severity.Safety? && safetyCount >= BLOCK_MAX_SAFETY {
          continue;
        }
        var line := render(event);
        var projected := JoinedLength(lines) + |line|;
        if !event.severity.Safety? && projected > BLOCK_MAX_CHARS - 260 {
          continue;
        }
        lines, chosen := lines + [line], chosen + [event];
        if event.severity.Safety? {
          safetyCount := safetyCount + 1;
        }
      }
      assert seen + rest == seen;
    }
  }
}
