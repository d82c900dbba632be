/** server/src/devices/taobaoBridge.ts: requests parked until a worker claims and answers them, and the
    text taken from an answer. */
module TaobaoContent {
  import opened Options

  const MAX_TEXT_CHARS := 200_000

  /** A block of a worker's answer; only text blocks count. */
  datatype Block = Text(text: string) | OtherBlock

  function Min(a: nat, b: nat): nat {
    if a < b then a else b
  }

  function Texts(blocks: seq<Block>): seq<string> {
    if blocks == [] then []
    else if blocks[0].Text? then [blocks[0].text] + Texts(blocks[1..])
    else Texts(blocks[1..])
  }

  function Concat(texts: seq<string>): string {
    if texts == [] then "" else texts[0] + Concat(texts[1..])
  }

  function JoinLines(texts: seq<string>): string {
    if texts == [] then ""
    else if |texts| == 1 then texts[0]
    else texts[0] + "\n" + JoinLines(texts[1..])
  }

  /** What is kept of the texts: each as far as the budget goes, and none once it is spent. */
  function Kept(texts: seq<string>, budget: nat): seq<string> {
    if texts == [] || budget == 0 then []
    else
      var slice := texts[0][..Min(|texts[0]|, budget)];
      [slice] + Kept(texts[1..], budget - |slice|)
  }

  // ---- the contents of the blocks kept ----

  /** The contents are the first characters of all texts, as many as the budget allows. */
  lemma {:induction false} KeptContents(texts: seq<string>, budget: nat)
    ensures Concat(Kept(texts, budget)) == Concat(texts)[..Min(|Concat(texts)|, budget)]
  {
    if texts != [] && budget > 0 {
      var slice := texts[0][..Min(|texts[0]|, budget)];
      KeptContents(texts[1..], budget - |slice|);
      assert Kept(texts, budget)[1..] == Kept(texts[1..], budget - |slice|);
    }
  }

  /** Block by block, what is kept is a prefix of what came; all but the last block are whole. */
  lemma {:induction false} KeptBlocks(texts: seq<string>, budget: nat)
    ensures var kept := Kept(texts, budget);
      && |kept| <= |texts|
      && (forall i :: 0 <= i < |kept| ==> kept[i] <= texts[i])
      && (forall i :: 0 <= i < |kept| - 1 ==> kept[i] == texts[i])
  {
    if texts != [] && budget > 0 {
      KeptBlocks(texts[1..], budget - Min(|texts[0]|, budget));
    }
  }

  /** A block is kept if and only if the ones before it leave some budget. */
  lemma {:induction false} KeptWhileBudgetLasts(texts: seq<string>, budget: nat, i: nat)
    requires i < |texts|
    ensures i < |Kept(texts, budget)| <==> |Concat(texts[..i])| < budget
  {
    if i == 0 {
      assert texts[..0] == [];
    } else if budget > 0 {
      assert texts[..i][1..] == texts[1..][..i - 1];
      KeptWhileBudgetLasts(texts[1..], budget - Min(|texts[0]|, budget), i - 1);
    }
  }

  // ---- the joined text ----

  lemma {:induction false} JoinLength(texts: seq<string>)
    ensures |JoinLines(texts)| == |Concat(texts)| + if texts == [] then 0 else |texts| - 1
  {
    if texts != [] {
      JoinLength(texts[1..]);
    }
  }

  lemma {:induction false} ConcatAppend(texts: seq<string>, last: string)
    ensures Concat(texts + [last]) == Concat(texts) + last
  {
    if texts == [] {
      assert [last][1..] == [];
    } else {
      assert (texts + [last])[1..] == texts[1..] + [last];
      ConcatAppend(texts[1..], last);
    }
  }

  lemma {:induction false} KeptJoinIsPrefix(texts: seq<string>, budget: nat)
    ensures JoinLines(Kept(texts, budget)) <= JoinLines(texts)
  {
    if texts != [] && budget > 0 {
      var slice := texts[0][..Min(|texts[0]|, budget)];
      var rest := Kept(texts[1..], budget - |slice|);
      KeptJoinIsPrefix(texts[1..], budget - |slice|);
      assert Kept(texts, budget)[1..] == rest;
      if rest != [] {
        assert slice == texts[0] && |texts| > 1;
      }
    }
  }

  /** The text handed back is a prefix of all texts joined; it is longer than its contents by a line feed
      between any two blocks kept. */
  lemma BoundedText(texts: seq<string>, budget: nat)
    ensures var kept := Kept(texts, budget);
      && JoinLines(kept) <= JoinLines(texts)
      && |JoinLines(kept)| == Min(|Concat(texts)|, budget) + (if kept == [] then 0 else |kept| - 1)
  {
    KeptJoinIsPrefix(texts, budget);
    KeptContents(texts, budget);
    JoinLength(Kept(texts, budget));
  }

  /** The bound is kept by the joined text if and only if there is at most one text, or the first alone
      spends the budget; and then the text is a prefix of the texts concatenated. */
  lemma TextWithinBound(texts: seq<string>)
    ensures var text := JoinLines(Kept(texts, MAX_TEXT_CHARS));
      && (|text| == Min(|Concat(texts)|, MAX_TEXT_CHARS) <==> |texts| <= 1 || |texts[0]| >= MAX_TEXT_CHARS)
      && (text == Concat(texts)[..Min(|Concat(texts)|, MAX_TEXT_CHARS)] <==>
          |texts| <= 1 || |texts[0]| >= MAX_TEXT_CHARS)
  {
    var kept := Kept(texts, MAX_TEXT_CHARS);
    BoundedText(texts, MAX_TEXT_CHARS);
    KeptContents(texts, MAX_TEXT_CHARS);
    if |texts| >= 2 {
      KeptWhileBudgetLasts(texts, MAX_TEXT_CHARS, 1);
      assert texts[..1] == [texts[0]] && Concat([texts[0]]) == texts[0] + Concat([]);
    }
    KeptBlocks(texts, MAX_TEXT_CHARS);
    if |kept| == 1 {
      assert Concat(kept) == kept[0] + Concat([]);
    }
  }

  /** Two short blocks are enough to break the bound. */
  lemma TwoBlocksBreakBound()
    ensures var texts := ["a", "b"];
      && JoinLines(Kept(texts, MAX_TEXT_CHARS)) == "a\nb" && Concat(texts) == "ab" && !("a\nb" <= "ab")
      && |JoinLines(Kept(texts, MAX_TEXT_CHARS))| > Min(|Concat(texts)|, MAX_TEXT_CHARS)
  {
    assert ["a", "b"][1..] == ["b"] && ["b"][1..] == [];
    assert "a"[..1] == "a" && "b"[..1] == "b";
    assert Kept(["b"], MAX_TEXT_CHARS - 1) == ["b"] + Kept([], MAX_TEXT_CHARS - 2);
    assert Kept(["a", "b"], MAX_TEXT_CHARS) == ["a"] + Kept(["b"], MAX_TEXT_CHARS - 1);
    assert ["a"] + ["b"] == ["a", "b"];
  }

  function Empties(n: nat): seq<string> {
    if n == 0 then [] else [""] + Empties(n - 1)
  }

  /** Empty blocks never shrink the budget, so no number bounds the text: n of them give n - 1 line feeds. */
  lemma {:induction false} EmptyBlocksAreUnbounded(n: nat)
    ensures Kept(Empties(n), MAX_TEXT_CHARS) == Empties(n) && Concat(Empties(n)) == ""
    ensures |JoinLines(Kept(Empties(n), MAX_TEXT_CHARS))| == if n == 0 then 0 else n - 1
  {
    EmptiesKept(n);
    JoinLength(Empties(n));
  }

  lemma {:induction false} EmptiesKept(n: nat)
    ensures Kept(Empties(n), MAX_TEXT_CHARS) == Empties(n) && Concat(Empties(n)) == "" && |Empties(n)| == n
  {
    if n > 0 {
      EmptiesKept(n - 1);
      assert Empties(n)[1..] == Empties(n - 1);
    }
  }

  // ---- the loop ----

  /** What becomes of a worker's content; `raw` is None when that is not an array. */
  function ContentOf(raw: Option<seq<Block>>): seq<string> {
    if raw.None? then [] else Kept(Texts(raw.value), MAX_TEXT_CHARS)
  }

  method BoundedContent(raw: Option<seq<Block>>) returns (out: seq<string>)
    ensures out == ContentOf(raw)
  {
    if raw.None? {
      return [];
    }
    var blocks := raw.value;
    out := [];
    var budget := MAX_TEXT_CHARS;
    var i := 0;
    while i < |blocks|
      invariant 0 <= i <= |blocks| && 0 <= budget
      invariant out + Kept(Texts(blocks[i..]), budget) == Kept(Texts(blocks), MAX_TEXT_CHARS)
    {
      if budget <= 0 {
        return;
      }
      var block := blocks[i];
      assert blocks[i..][1..] == blocks[i + 1..];
      i := i + 1;
      if !block.Text? {
        continue;
      }
      var slice := block.text[..Min(|block.text|, budget)];
      assert ([block.text] + Texts(blocks[i..]))[1..] == Texts(blocks[i..]);
      budget := budget - |slice|;
      out := out + [slice];
    }
  }
}

module TaobaoBridges {
  import opened Options
  import opened Sequences
  import opened TaobaoContent

  const MAX_PENDING := 4
  const CLAIM_TIMEOUT_MS := 45_000

  datatype Answer =
    | Busy
    | Full
    | TimedOut(seconds: int)
    | Fulfilled(text: string, content: seq<string>, isError: bool)
    | Failed(reason: string)

  datatype Pending = Pending(id: string, contact: string, name: string, arguments: string, createdAt: int,
      timeoutMs: int, claimed: bool)
  {
    function Deadline(): int {
      createdAt + timeoutMs
    }
  }

  datatype Payload = Payload(id: string, name: string, arguments: string, timeoutMs: int)

  datatype Resolution = Resolution(id: string, answer: Answer)

  /** `pending` in insertion order, and what has happened so far: the ids accepted and claimed and the
      promises resolved. */
  datatype State = State(pending: seq<Pending>, now: int, accepted: seq<string>, claimed: seq<string>,
      resolved: seq<Resolution>)
  {
    predicate Holds(id: string) {
      exists i :: 0 <= i < |pending| && pending[i].id == id
    }

    predicate HasContact(contact: string) {
      exists i :: 0 <= i < |pending| && pending[i].contact == contact
    }

    function Request(contact: string, name: string, arguments: string, timeoutMs: int, id: string)
      : (State, Option<Answer>)
    {
      if HasContact(contact) then (this, Some(Busy))
      else if |pending| >= MAX_PENDING then (this, Some(Full))
      else (this.(pending := pending + [Pending(id, contact, name, arguments, now, timeoutMs, false)],
          accepted := accepted + [id]), None)
    }

    /** The position of the oldest request not claimed yet. */
    function Unclaimed(from: nat): (i: nat)
      requires from <= |pending|
      ensures from <= i <= |pending|
      ensures i < |pending| ==> !pending[i].claimed
      ensures forall j :: from <= j < i ==> pending[j].claimed
      decreases |pending| - from
    {
      if from < |pending| && pending[from].claimed then Unclaimed(from + 1) else from
    }

    function TakePending(capable: bool): (State, Option<Payload>) {
      var i := Unclaimed(0);
      if !capable || i == |pending| then (this, None)
      else
        var item := pending[i];
        (this.(pending := pending[i := item.(claimed := true)], claimed := claimed + [item.id]),
         Some(Payload(item.id, item.name, item.arguments,
                      if item.timeoutMs < CLAIM_TIMEOUT_MS then item.timeoutMs else CLAIM_TIMEOUT_MS)))
    }

    function Settle(id: string, answer: Answer): (State, bool) {
      if !Holds(id) then (this, false)
      else (this.(pending := Drop(pending, id), resolved := resolved + [Resolution(id, answer)]), true)
    }
  }

  function Drop(pending: seq<Pending>, id: string): seq<Pending> {
    if pending == [] then []
    else
      var before, last := Drop(pending[..|pending| - 1], id), pending[|pending| - 1];
      if last.id == id then before else before + [last]
  }

  const INITIAL := State([], 0, [], [], [])

  datatype Event =
    | RequestCall(contact: string, name: string, arguments: string, timeoutMs: int, id: string)
    | TakeCall(capable: bool)
    | Settlement(id: string, answer: Answer)
    | ClockAdvance(to: int)

  /** Random identifiers are new, and timers fire on time. */
  predicate Enabled(s: State, e: Event) {
    match e
    case RequestCall(_, _, _, timeoutMs, id) => id !in s.accepted && timeoutMs >= 0
    case TakeCall(_) => true
    case Settlement(_, _) => true
    case ClockAdvance(to) => s.now <= to && forall i :: 0 <= i < |s.pending| ==> to <= s.pending[i].Deadline()
  }

  function Step(s: State, e: Event): State {
    if !Enabled(s, e) then s
    else match e
      case RequestCall(contact, name, arguments, timeoutMs, id) => s.Request(contact, name, arguments, timeoutMs, id).0
      case TakeCall(capable) => s.TakePending(capable).0
      case Settlement(id, answer) => s.Settle(id, answer).0
      case ClockAdvance(to) => s.(now := to)
  }

  function Run(events: seq<Event>): State {
    if events == [] then INITIAL else Step(Run(events[..|events| - 1]), events[|events| - 1])
  }

  ghost predicate Reachable(s: State) {
    exists events :: s == Run(events)
  }

  lemma StepReachable(s: State, e: Event)
    requires Reachable(s)
    ensures Reachable(Step(s, e))
  {
    var events :| s == Run(events);
    assert (events + [e])[..|events|] == events;
    assert Run(events + [e]) == Step(s, e);
  }

  // ---- what every step keeps ----

  predicate Distinct(list: seq<string>) {
    forall i, j :: 0 <= i < j < |list| ==> list[i] != list[j]
  }

  /** a was accepted before b. */
  predicate Before(accepted: seq<string>, a: string, b: string) {
    exists i, j :: 0 <= i < j < |accepted| && accepted[i] == a && accepted[j] == b
  }

  ghost predicate PendingOk(s: State) {
    && |s.pending| <= MAX_PENDING
    && (forall i :: 0 <= i < |s.pending| ==> s.pending[i].id in s.accepted && s.now <= s.pending[i].Deadline())
    && (forall i, j :: 0 <= i < j < |s.pending| ==>
          s.pending[i].contact != s.pending[j].contact && Before(s.accepted, s.pending[i].id, s.pending[j].id))
  }

  ghost predicate ClaimsOk(s: State) {
    && (forall i :: 0 <= i < |s.claimed| ==> s.claimed[i] in s.accepted)
    && (forall i, j :: 0 <= i < j < |s.claimed| ==> Before(s.accepted, s.claimed[i], s.claimed[j]))
    && (forall i :: 0 <= i < |s.pending| ==> (s.pending[i].claimed <==> s.pending[i].id in s.claimed))
    && (forall i, j :: 0 <= i < |s.pending| && !s.pending[i].claimed && 0 <= j < |s.claimed| ==>
        Before(s.accepted, s.claimed[j], s.pending[i].id))
  }

  predicate Resolved(s: State, id: string) {
    exists i :: 0 <= i < |s.resolved| && s.resolved[i].id == id
  }

  ghost predicate ResolvedOk(s: State) {
    && (forall id :: id in s.accepted <==> s.Holds(id) || Resolved(s, id))
    && (forall id :: !(s.Holds(id) && Resolved(s, id)))
    && (forall i, j :: 0 <= i < j < |s.resolved| ==> s.resolved[i].id != s.resolved[j].id)
  }

  ghost predicate Inv(s: State) {
    Distinct(s.accepted) && PendingOk(s) && ClaimsOk(s) && ResolvedOk(s)
  }

  lemma BeforeGrows(accepted: seq<string>, id: string, a: string, b: string)
    ensures Before(accepted, a, b) ==> Before(accepted + [id], a, b)
    ensures a in accepted ==> Before(accepted + [id], a, id)
  {
    var more := accepted + [id];
    if Before(accepted, a, b) {
      var i, j :| 0 <= i < j < |accepted| && accepted[i] == a && accepted[j] == b;
      assert more[i] == a && more[j] == b;
    }
    if a in accepted {
      var i :| 0 <= i < |accepted| && accepted[i] == a;
      assert more[i] == a && more[|accepted|] == id;
    }
  }

  lemma NeverBeforeItself(accepted: seq<string>, a: string, b: string)
    requires Distinct(accepted) && Before(accepted, a, b)
    ensures !Before(accepted, b, a) && a != b
  {
  }

  lemma RequestKeepsPending(s: State, t: State, p: Pending)
    requires PendingOk(s) && |s.pending| < MAX_PENDING && !s.HasContact(p.contact) && s.now <= p.Deadline()
    requires t == s.(pending := s.pending + [p], accepted := s.accepted + [p.id])
    ensures PendingOk(t)
  {
    forall i, j | 0 <= i < j < |t.pending|
      ensures t.pending[i].contact != t.pending[j].contact && Before(t.accepted, t.pending[i].id, t.pending[j].id)
    {
      BeforeGrows(s.accepted, p.id, t.pending[i].id, t.pending[j].id);
    }
  }

  lemma RequestKeepsClaims(s: State, t: State, p: Pending)
    requires ClaimsOk(s) && p.id !in s.accepted && !p.claimed
    requires t == s.(pending := s.pending + [p], accepted := s.accepted + [p.id])
    ensures ClaimsOk(t)
  {
    forall i, j | 0 <= i < j < |t.claimed| ensures Before(t.accepted, t.claimed[i], t.claimed[j]) {
      BeforeGrows(s.accepted, p.id, t.claimed[i], t.claimed[j]);
    }
    forall i, j | 0 <= i < |t.pending| && !t.pending[i].claimed && 0 <= j < |t.claimed|
        ensures Before(t.accepted, t.claimed[j], t.pending[i].id) {
      BeforeGrows(s.accepted, p.id, t.claimed[j], t.pending[i].id);
    }
  }

  lemma RequestKeepsResolved(s: State, t: State, p: Pending)
    requires ResolvedOk(s) && p.id !in s.accepted
    requires t == s.(pending := s.pending + [p], accepted := s.accepted + [p.id])
    ensures ResolvedOk(t)
  {
    forall other
        ensures (t.Holds(other) <==> s.Holds(other) || other == p.id) && (Resolved(t, other) <==> Resolved(s, other)) {
      assert t.pending[|s.pending|].id == p.id;
      if s.Holds(other) {
        var i :| 0 <= i < |s.pending| && s.pending[i].id == other;
        assert t.pending[i].id == other;
      }
    }
  }

  lemma RequestKeeps(s: State, contact: string, name: string, arguments: string, timeoutMs: int, id: string)
    requires Inv(s) && id !in s.accepted && timeoutMs >= 0
    ensures Inv(s.Request(contact, name, arguments, timeoutMs, id).0)
  {
    var t := s.Request(contact, name, arguments, timeoutMs, id).0;
    if !s.HasContact(contact) && |s.pending| < MAX_PENDING {
      var p := Pending(id, contact, name, arguments, s.now, timeoutMs, false);
      RequestKeepsPending(s, t, p);
      RequestKeepsClaims(s, t, p);
      RequestKeepsResolved(s, t, p);
    }
  }

  /** Which requests are pending, and in what order, does not change by claiming one. */
  predicate SameRequests(a: seq<Pending>, b: seq<Pending>) {
    |a| == |b| && forall i :: 0 <= i < |a| ==> b[i] == a[i].(claimed := b[i].claimed)
  }

  lemma SameRequestsKeeps(s: State, t: State)
    requires PendingOk(s) && ResolvedOk(s) && SameRequests(s.pending, t.pending)
    requires t == s.(pending := t.pending, claimed := t.claimed)
    ensures PendingOk(t) && ResolvedOk(t)
  {
    forall other ensures t.Holds(other) <==> s.Holds(other) {
    }
    assert forall other :: Resolved(t, other) <==> Resolved(s, other);
  }

  lemma PendingIdsDistinct(s: State, i: nat, j: nat)
    requires Distinct(s.accepted) && PendingOk(s) && i < |s.pending| && j < |s.pending| && i != j
    ensures s.pending[i].id != s.pending[j].id
  {
    if i < j {
      NeverBeforeItself(s.accepted, s.pending[i].id, s.pending[j].id);
    } else {
      NeverBeforeItself(s.accepted, s.pending[j].id, s.pending[i].id);
    }
  }

  /** The request at `i` is the oldest unclaimed one: everything claimed came before it, every other
      unclaimed one after. */
  lemma ClaimKeeps(s: State, i: nat)
    requires Inv(s) && i < |s.pending| && !s.pending[i].claimed && forall j :: 0 <= j < i ==> s.pending[j].claimed
    ensures ClaimsOk(s.(pending := s.pending[i := s.pending[i].(claimed := true)],
        claimed := s.claimed + [s.pending[i].id]))
  {
    var t := s.(pending := s.pending[i := s.pending[i].(claimed := true)], claimed := s.claimed + [s.pending[i].id]);
    forall j | 0 <= j < |s.pending| && j != i ensures s.pending[j].id != s.pending[i].id {
      PendingIdsDistinct(s, i, j);
    }
    forall j, k | 0 <= j < |t.pending| && !t.pending[j].claimed && 0 <= k < |t.claimed|
        ensures Before(t.accepted, t.claimed[k], t.pending[j].id) {
      assert j > i && t.pending[j] == s.pending[j];
    }
  }

  lemma TakeKeeps(s: State, capable: bool)
    requires Inv(s)
    ensures Inv(s.TakePending(capable).0)
  {
    var i := s.Unclaimed(0);
    if capable && i < |s.pending| {
      ClaimKeeps(s, i);
      SameRequestsKeeps(s, s.TakePending(capable).0);
    }
  }

  /** Dropping an id keeps the rest, in order. */
  lemma {:induction false} DropSelects(pending: seq<Pending>, id: string) returns (at: seq<nat>)
    ensures Selects(pending, Drop(pending, id), at)
  {
    if pending == [] {
      at := [];
    } else {
      var front, last := pending[..|pending| - 1], pending[|pending| - 1];
      at := DropSelects(front, id);
      SelectsMore(front, Drop(front, id), at, last);
      assert pending == front + [last];
      if last.id != id {
        at := at + [|front|];
      }
    }
  }

  lemma {:induction false} DropMembers(pending: seq<Pending>, id: string)
    ensures forall p :: p in Drop(pending, id) <==> p in pending && p.id != id
  {
    if pending != [] {
      var n := |pending| - 1;
      DropMembers(pending[..n], id);
      assert pending == pending[..n] + [pending[n]];
    }
  }

  lemma SelectionKeepsPending(s: State, t: State, at: seq<nat>)
    requires PendingOk(s) && Selects(s.pending, t.pending, at) && t == s.(pending := t.pending, resolved := t.resolved)
    ensures PendingOk(t)
  {
  }

  lemma SelectionKeepsClaims(s: State, t: State, at: seq<nat>)
    requires ClaimsOk(s) && Selects(s.pending, t.pending, at) && t == s.(pending := t.pending, resolved := t.resolved)
    ensures ClaimsOk(t)
  {
  }

  lemma DroppedHolds(s: State, id: string, answer: Answer, other: string)
    requires s.Holds(id)
    ensures s.Settle(id, answer).0.Holds(other) <==> s.Holds(other) && other != id
  {
    var t := s.Settle(id, answer).0;
    DropMembers(s.pending, id);
    if s.Holds(other) && other != id {
      var k :| 0 <= k < |s.pending| && s.pending[k].id == other;
      assert s.pending[k] in t.pending;
    }
    if t.Holds(other) {
      var k :| 0 <= k < |t.pending| && t.pending[k].id == other;
      assert t.pending[k] in s.pending;
    }
  }

  lemma ResolvedGrows(s: State, id: string, answer: Answer, other: string)
    requires s.Holds(id)
    ensures Resolved(s.Settle(id, answer).0, other) <==> Resolved(s, other) || other == id
  {
    var t := s.Settle(id, answer).0;
    assert t.resolved[|s.resolved|].id == id;
    if Resolved(s, other) {
      var i :| 0 <= i < |s.resolved| && s.resolved[i].id == other;
      assert t.resolved[i].id == other;
    }
  }

  lemma SettleKeeps(s: State, id: string, answer: Answer)
    requires Inv(s)
    ensures Inv(s.Settle(id, answer).0)
  {
    if s.Holds(id) {
      var t := s.Settle(id, answer).0;
      var at := DropSelects(s.pending, id);
      SelectionKeepsPending(s, t, at);
      SelectionKeepsClaims(s, t, at);
      SettleKeepsResolved(s, id, answer);
    }
  }

  lemma SettleKeepsResolved(s: State, id: string, answer: Answer)
    requires ResolvedOk(s) && s.Holds(id)
    ensures ResolvedOk(s.Settle(id, answer).0)
  {
    var t := s.Settle(id, answer).0;
    forall other
        ensures (t.Holds(other) <==> s.Holds(other) && other != id)
            && (Resolved(t, other) <==> Resolved(s, other) || other == id) {
      DroppedHolds(s, id, answer, other);
      ResolvedGrows(s, id, answer, other);
    }
    assert !Resolved(s, id);
  }

  lemma StepKeeps(s: State, e: Event)
    requires Inv(s)
    ensures Inv(Step(s, e))
  {
    if Enabled(s, e) {
      match e
      case RequestCall(contact, name, arguments, timeoutMs, id) =>
        RequestKeeps(s, contact, name, arguments, timeoutMs, id);
      case TakeCall(capable) => TakeKeeps(s, capable);
      case Settlement(id, answer) => SettleKeeps(s, id, answer);
      case ClockAdvance(to) =>
        var t := s.(now := to);
        assert forall id :: (t.Holds(id) <==> s.Holds(id)) && (Resolved(t, id) <==> Resolved(s, id));
    }
  }

  lemma {:induction false} RunKeeps(events: seq<Event>)
    ensures Inv(Run(events))
  {
    if events != [] {
      RunKeeps(events[..|events| - 1]);
      StepKeeps(Run(events[..|events| - 1]), events[|events| - 1]);
    } else {
      assert forall id :: !INITIAL.Holds(id) && !Resolved(INITIAL, id);
    }
  }

  // ---- what the bridge promises ----

  lemma AtMostFourContacts(events: seq<Event>)
    ensures var s := Run(events);
      && |s.pending| <= 4
      && forall i, j :: 0 <= i < j < |s.pending| ==> s.pending[i].contact != s.pending[j].contact
  {
    RunKeeps(events);
  }

  /** An accepted request is pending or was resolved, never both, and was resolved once; a pending one is
      within its time. */
  lemma ResolvedExactlyOnce(events: seq<Event>, id: string)
    ensures var s := Run(events);
      && (id in s.accepted <==> s.Holds(id) || Resolved(s, id)) && !(s.Holds(id) && Resolved(s, id))
      && (forall i, j :: 0 <= i < j < |s.resolved| && s.resolved[i].id == id ==> s.resolved[j].id != id)
      && (forall i :: 0 <= i < |s.pending| && s.pending[i].id == id ==>
          s.now <= s.pending[i].createdAt + s.pending[i].timeoutMs)
  {
    RunKeeps(events);
    var s := Run(events);
  }

  /** A settlement touches no request but the one it names, and an unknown or late one none at all. */
  lemma ResolvedByItsOwnId(events: seq<Event>, id: string, answer: Answer, other: string)
    ensures var s := Run(events); var (t, known) := s.Settle(id, answer);
      && (known <==> id in s.accepted && !Resolved(s, id))
      && (known ==> t.resolved == s.resolved + [Resolution(id, answer)] && !t.Holds(id))
      && (!known ==> t == s)
      && (other != id ==> forall p: Pending :: p.id == other ==> (p in t.pending <==> p in s.pending))
  {
    RunKeeps(events);
    var s := Run(events);
    SettleKeeps(s, id, answer);
    var t := s.Settle(id, answer).0;
    assert s.Holds(id) ==> t.resolved[|s.resolved|].id == id;
    DropMembers(s.pending, id);
  }

  /** Requests are claimed at most once and in the order in which they were accepted. */
  lemma ClaimedInOrder(events: seq<Event>)
    ensures var s := Run(events);
      && (forall i, j :: 0 <= i < j < |s.claimed| ==>
          s.claimed[i] != s.claimed[j] && Before(s.accepted, s.claimed[i], s.claimed[j]))
      && (forall i, j :: 0 <= i < j < |s.pending| && s.pending[j].claimed ==> s.pending[i].claimed)
  {
    RunKeeps(events);
    var s := Run(events);
    forall i, j | 0 <= i < j < |s.claimed| ensures s.claimed[i] != s.claimed[j] {
      NeverBeforeItself(s.accepted, s.claimed[i], s.claimed[j]);
    }
    forall i, j | 0 <= i < j < |s.pending| && s.pending[j].claimed ensures s.pending[i].claimed {
      if !s.pending[i].claimed {
        var c :| 0 <= c < |s.claimed| && s.claimed[c] == s.pending[j].id;
        NeverBeforeItself(s.accepted, s.pending[i].id, s.pending[j].id);
        assert false;
      }
    }
  }

  /** A claim hands out the oldest request that was not claimed before, under its own name and with its own
      arguments, for at most 45 s and at most the time it has; a capable worker gets nothing if and only if
      every pending request is claimed. */
  lemma ClaimAnswers(events: seq<Event>, capable: bool)
    ensures var s := Run(events); var (t, payload) := s.TakePending(capable);
      && (payload.Some? ==> exists i :: Claims(s, t, payload.value, i))
      && (payload.None? ==> t == s)
      && (capable ==> (payload.None? <==> forall i :: 0 <= i < |s.pending| ==> s.pending[i].claimed))
      && (!capable ==> payload.None?)
  {
    RunKeeps(events);
    var s := Run(events);
    var (t, payload) := s.TakePending(capable);
    if payload.Some? {
      assert Claims(s, t, payload.value, s.Unclaimed(0));
    }
  }

  /** The request at `i` is claimed, for the first time, and everything before it was claimed already. */
  ghost predicate Claims(s: State, t: State, payload: Payload, i: nat) {
    && i < |s.pending| && payload.id == s.pending[i].id && payload.id !in s.claimed
    && payload.name == s.pending[i].name && payload.arguments == s.pending[i].arguments
    && payload.timeoutMs <= 45_000 && payload.timeoutMs <= s.pending[i].timeoutMs
    && (payload.timeoutMs == 45_000 || payload.timeoutMs == s.pending[i].timeoutMs)
    && t.claimed == s.claimed + [payload.id] && t.resolved == s.resolved && t.accepted == s.accepted
    && t.pending == s.pending[i := s.pending[i].(claimed := true)]
    && forall j :: 0 <= j < i ==> s.pending[j].claimed
  }

  /** A request is refused while the contact has one pending, or four are; otherwise it is parked as it is,
      unclaimed and behind the others, and its promise stays open. */
  lemma RequestAnswers(s: State, contact: string, name: string, arguments: string, timeoutMs: int, id: string)
    ensures var (t, refusal) := s.Request(contact, name, arguments, timeoutMs, id);
      var known := exists i :: 0 <= i < |s.pending| && s.pending[i].contact == contact;
      && (refusal == Some(Busy) <==> known)
      && (refusal == Some(Full) <==> !known && |s.pending| >= 4)
      && (refusal == None <==> !known && |s.pending| < 4)
      && (refusal.Some? ==> t == s)
      && (refusal.None? ==>
            && |t.pending| == |s.pending| + 1 && t.pending[..|s.pending|] == s.pending
            && t.accepted == s.accepted + [id] && t.claimed == s.claimed && t.resolved == s.resolved
            && var item := t.pending[|s.pending|];
               && item.id == id && item.contact == contact && item.name == name && item.arguments == arguments
               && !item.claimed && item.createdAt == s.now && item.Deadline() == s.now + timeoutMs)
  {
  }

  // ---- the object ----

  class TaobaoBridge {
    var pending: seq<Pending>
    var now: int
    ghost var accepted: seq<string>
    ghost var claimed: seq<string>
    ghost var resolved: seq<Resolution>

    ghost function View(): State
      reads this
    {
      State(pending, now, accepted, claimed, resolved)
    }

    /** Some run of the broker leads to where the object is. */
    ghost predicate Valid()
      reads this
    {
      Reachable(View())
    }

    constructor ()
      ensures Valid() && View() == INITIAL
    {
      pending, now := [], 0;
      accepted, claimed, resolved := [], [], [];
      new;
      assert Run([]) == View();
    }

    method Request(contact: string, name: string, arguments: string, timeoutMs: int, id: string)
        returns (refusal: Option<Answer>)
      requires Valid() && id !in accepted && timeoutMs >= 0
      modifies this
      ensures (View(), refusal) == old(View()).Request(contact, name, arguments, timeoutMs, id)
      ensures Valid()
    {
      StepReachable(View(), RequestCall(contact, name, arguments, timeoutMs, id));
      var i := 0;
      while i < |pending|
        invariant 0 <= i <= |pending| && forall j :: 0 <= j < i ==> pending[j].contact != contact
        invariant View() == old(View())
      {
        if pending[i].contact == contact {
          return Some(Busy);
        }
        i := i + 1;
      }
      if |pending| >= MAX_PENDING {
        return Some(Full);
      }
      pending := pending + [Pending(id, contact, name, arguments, now, timeoutMs, false)];
      accepted := accepted + [id];
      refusal := None;
    }

    method TakePending(capable: bool) returns (payload: Option<Payload>)
      requires Valid()
      modifies this
      ensures (View(), payload) == old(View()).TakePending(capable)
      ensures Valid()
    {
      StepReachable(View(), TakeCall(capable));
      if !capable {
        return None;
      }
      var i := 0;
      while i < |pending|
        invariant 0 <= i <= |pending| && View() == old(View()) && View().Unclaimed(0) == View().Unclaimed(i)
      {
        var item := pending[i];
        if item.claimed {
          i := i + 1;
          continue;
        }
        pending := pending[i := item.(claimed := true)];
        claimed := claimed + [item.id];
        return Some(Payload(item.id, item.name, item.arguments,
            if item.timeoutMs < CLAIM_TIMEOUT_MS then item.timeoutMs else CLAIM_TIMEOUT_MS));
      }
      payload := None;
    }

    /** What `fulfill`, `fail` and a timer have in common. */
    method Settle(id: string, answer: Answer) returns (known: bool)
      requires Valid()
      modifies this
      ensures (View(), known) == old(View()).Settle(id, answer)
      ensures Valid()
    {
      StepReachable(View(), Settlement(id, answer));
      if forall i :: 0 <= i < |pending| ==> pending[i].id != id {
        return false;
      }
      pending := Drop(pending, id);
      resolved := resolved + [Resolution(id, answer)];
      known := true;
    }

    method Fulfill(id: string, raw: Option<seq<Block>>, isError: bool) returns (known: bool)
      requires Valid()
      modifies this
      ensures var content := ContentOf(raw);
        (View(), known) == old(View()).Settle(id, Fulfilled(JoinLines(content), content, isError))
      ensures Valid()
    {
      var content := BoundedContent(raw);
      known := Settle(id, Fulfilled(JoinLines(content), content, isError));
    }

    method Fail(id: string, reason: string) returns (known: bool)
      requires Valid()
      modifies this
      ensures (View(), known) == old(View()).Settle(id, Failed(reason[..Min(|reason|, 1000)]))
      ensures Valid()
    {
      known := Settle(id, Failed(reason[..Min(|reason|, 1000)]));
    }

    method TimerFires(id: string, timeoutMs: int)
      requires Valid()
      modifies this
      ensures View() == old(View()).Settle(id, TimedOut((timeoutMs + 500) / 1000)).0
      ensures Valid()
    {
      var _ := Settle(id, TimedOut((timeoutMs + 500) / 1000));
    }

    method Elapse(to: int)
      requires Valid() && now <= to && forall i :: 0 <= i < |pending| ==> to <= pending[i].Deadline()
      modifies this`now
      ensures View() == Step(old(View()), ClockAdvance(to)) && Valid()
    {
      StepReachable(View(), ClockAdvance(to));
      now := to;
    }
  }

  /** What the object keeps through any calls. */
  lemma ObjectPromises(b: TaobaoBridge, id: string)
    requires b.Valid()
    ensures |b.pending| <= 4
    ensures forall i, j :: 0 <= i < j < |b.pending| ==> b.pending[i].contact != b.pending[j].contact
    ensures id in b.accepted <==> b.View().Holds(id) || Resolved(b.View(), id)
    ensures !(b.View().Holds(id) && Resolved(b.View(), id))
    ensures forall i, j :: 0 <= i < j < |b.claimed| ==> Before(b.accepted, b.claimed[i], b.claimed[j])
  {
    var events :| b.View() == Run(events);
    AtMostFourContacts(events);
    ResolvedExactlyOnce(events, id);
    ClaimedInOrder(events);
  }
}
