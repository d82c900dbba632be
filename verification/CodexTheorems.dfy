/** What the invariant means: statements about every reachable state of the Codex protocol, read off its log,
    its queues and its clock. */
module CodexTheorems {
  import opened Options
  import opened TurnEvents
  import opened CodexProtocol
  import opened CodexInvariant

  // ---- a user turn never overlaps a compaction ----

  /** Every barrier made before act i has been resolved before act i. */
  ghost predicate AllReleased(log: seq<Act>, i: nat)
    requires i <= |log|
  {
    forall j, b: nat :: 0 <= j < i && log[j] == BarrierMade(b) ==> ReleasedBetween(log, j, i, b)
  }

  ghost predicate ReleasedBetween(log: seq<Act>, j: int, i: int, b: nat)
    requires 0 <= j && i <= |log|
  {
    exists k :: j < k < i && log[k] == BarrierResolved(b)
  }

  predicate UserTurnAct(a: Act) {
    (a.Called? && a.call.TurnStart?) || (a.Pushed? && a.ev.Chat())
  }

  lemma {:induction false} OpenOrReleased(log: seq<Act>)
    requires LegalLog(log)
    ensures forall j, b: nat :: 0 <= j < |log| && log[j] == BarrierMade(b) ==>
      Observe(log).open == Some(b) || ReleasedBetween(log, j, |log|, b)
  {
    if log != [] {
      var front, last := log[..|log| - 1], log[|log| - 1];
      FrontLegal(log);
      OpenOrReleased(front);
      forall j, b: nat | 0 <= j < |log| && log[j] == BarrierMade(b)
        ensures Observe(log).open == Some(b) || ReleasedBetween(log, j, |log|, b)
      {
        if j < |front| && ReleasedBetween(front, j, |front|, b) {
          var k :| j < k < |front| && front[k] == BarrierResolved(b);
          assert log[k] == BarrierResolved(b);
        } else if j < |front| {
          assert front[j] == BarrierMade(b);
        }
      }
    }
  }

  lemma FrontLegal(log: seq<Act>)
    requires LegalLog(log) && log != []
    ensures LegalLog(log[..|log| - 1]) && Legal(Observe(log[..|log| - 1]), log[|log| - 1])
  {
    PrefixLegal(log, |log| - 1);
    assert LegalAt(log, |log| - 1);
  }

  lemma PrefixLegal(log: seq<Act>, n: nat)
    requires LegalLog(log) && n <= |log|
    ensures LegalLog(log[..n])
  {
    forall i | 0 <= i < n
      ensures LegalAt(log[..n], i)
    {
      assert LegalAt(log, i);
      assert log[..n][..i] == log[..i];
    }
  }

  lemma LegalMeansReleased(log: seq<Act>, i: nat)
    requires LegalLog(log) && i < |log| && UserTurnAct(log[i])
    ensures AllReleased(log, i)
  {
    PrefixLegal(log, i);
    assert LegalAt(log, i);
    OpenOrReleased(log[..i]);
    forall j, b: nat | 0 <= j < i && log[j] == BarrierMade(b)
      ensures ReleasedBetween(log, j, i, b)
    {
      assert log[..i][j] == BarrierMade(b);
      var k :| j < k < i && log[..i][k] == BarrierResolved(b);
      assert log[k] == BarrierResolved(b);
    }
  }

  /** In every reachable state, `turn/start` was requested and delta, thinking, tool and done events
      were delivered only after every compaction barrier made until then had been released. */
  lemma UserTurnNeverOverlapsCompaction(env: Env, s: State, i: nat)
    requires Reachable(env, s) && i < |s.log| && UserTurnAct(s.log[i])
    ensures AllReleased(s.log, i)
  {
    ReachableInv(env, s);
    LegalMeansReleased(s.log, i);
  }

  /** The same of the fields: a requested user turn is open, and no compaction is in flight. */
  lemma RequestedMeansOpenAndAlone(env: Env, s: State)
    requires Reachable(env, s) && s.chat.userTurnStartRequested
    ensures s.chat.turn.Some? && !s.compact.inFlight
  {
    ReachableInv(env, s);
  }

  // ---- barriers ----

  ghost predicate Once(log: seq<Act>, a: Act) {
    forall i, j :: 0 <= i < |log| && 0 <= j < |log| && log[i] == a && log[j] == a ==> i == j
  }

  /** Barriers are numbered as they are made, and each is made once and resolved at most once,
      after it was made. */
  lemma {:induction false} BarriersOnce(log: seq<Act>)
    requires LegalLog(log)
    ensures forall b: nat :: BarrierMade(b) in log <==> b < Observe(log).made
    ensures Observe(log).open.Some? ==> Observe(log).open.value < Observe(log).made
    ensures forall b: nat :: BarrierResolved(b) in log <==> b < Observe(log).made && Observe(log).open != Some(b)
    ensures forall b: nat :: Once(log, BarrierMade(b)) && Once(log, BarrierResolved(b))
  {
    if log != [] {
      var front, last := log[..|log| - 1], log[|log| - 1];
      FrontLegal(log);
      BarriersOnce(front);
      assert log == front + [last];
      forall b: nat
        ensures Once(log, BarrierMade(b)) && Once(log, BarrierResolved(b))
      {
        if last == BarrierMade(b) { assert BarrierMade(b) !in front; }
        if last == BarrierResolved(b) { assert BarrierResolved(b) !in front; }
        OnceAppend(front, last, BarrierMade(b));
        OnceAppend(front, last, BarrierResolved(b));
      }
    }
  }

  lemma OnceAppend(front: seq<Act>, last: Act, a: Act)
    requires Once(front, a) && (last == a ==> a !in front)
    ensures Once(front + [last], a)
  {
    var log := front + [last];
    forall i, j | 0 <= i < |log| && 0 <= j < |log| && log[i] == a && log[j] == a
      ensures i == j
    {
      if i < |front| { assert front[i] == a; }
      if j < |front| { assert front[j] == a; }
    }
  }

  /** In every reachable state each barrier ever made is resolved exactly once, except the one a compaction in
      flight still holds, which is the newest, belongs to the current thread, and has an
      unanswered request, a continuation or an armed timer to release it. */
  lemma EveryBarrierResolvedOnce(env: Env, s: State)
    requires Reachable(env, s)
    ensures
      && (s.compact.inFlight <==> s.compact.barrier.Some?)
      && (s.compact.inFlight ==> s.compact.threadId == s.threadId && Attended(s.compact, s.rpc))
      && (forall b: nat :: b < |s.compact.barriers| ==>
           && Once(s.log, BarrierResolved(b))
           && (BarrierResolved(b) in s.log <==> s.compact.barrier != Some(b))
           && (BarrierResolved(b) in s.log <==> b in s.compact.resolved))
  {
    ReachableInv(env, s);
    BarriersOnce(s.log);
  }

  // ---- hysteresis ----

  predicate CompactCall(a: Act) {
    a.Called? && a.call.CompactStart?
  }

  predicate Rearms(a: Act) {
    a == UsageLow(true) || a == ThreadChanged
  }

  ghost predicate RearmedBetween(log: seq<Act>, i: int, j: int)
    requires 0 <= i && j <= |log|
  {
    exists k :: i < k < j && Rearms(log[k])
  }

  lemma {:induction false} RearmedAfter(log: seq<Act>, i: nat)
    requires i < |log| && CompactCall(log[i]) && Observe(log).rearmed
    ensures RearmedBetween(log, i, |log|)
  {
    var front, last := log[..|log| - 1], log[|log| - 1];
    if Rearms(last) {
    } else {
      RearmedAfter(front, i);
      var k :| i < k < |front| && Rearms(front[k]);
      assert Rearms(log[k]);
    }
  }

  lemma LegalMeansRearmed(log: seq<Act>, i: nat, j: nat)
    requires LegalLog(log) && i < j < |log| && CompactCall(log[i]) && CompactCall(log[j])
    ensures RearmedBetween(log, i, j)
  {
    assert LegalAt(log, j);
    RearmedAfter(log[..j], i);
    var k :| i < k < j && Rearms(log[..j][k]);
    assert Rearms(log[k]);
  }

  /** Between two compaction requests the thread changed, or usage was seen below the threshold
      (or not finite) while nothing was queued or in flight. */
  lemma CompactionHysteresis(env: Env, s: State, i: nat, j: nat)
    requires Reachable(env, s) && i < j < |s.log| && CompactCall(s.log[i]) && CompactCall(s.log[j])
    ensures RearmedBetween(s.log, i, j)
  {
    ReachableInv(env, s);
    LegalMeansRearmed(s.log, i, j);
  }

  /** Queued and in flight never hold together, and either implies the latch. */
  lemma QueuedOrInFlight(env: Env, s: State)
    requires Reachable(env, s)
    ensures !(s.compact.queued && s.compact.inFlight)
    ensures s.compact.queued || s.compact.inFlight ==> s.compact.thresholdLatched
  {
    ReachableInv(env, s);
  }

  // ---- the queue of a turn ----

  /** The events of one turn, closed by its one terminal event unless the turn may lack it. */
  ghost predicate WellFormedTurn(events: seq<TurnEvent>, mayLackTerminal: bool) {
    && (forall i :: 0 <= i < |events| && events[i].Terminal() ==> i == |events| - 1)
    && (!mayLackTerminal ==> events != [] && events[|events| - 1].Terminal())
    && (forall i :: 0 <= i < |events| && events[i].Done? ==> events[i].finalText == DeltaText(events[..i]))
    && (forall i :: 0 <= i < |events| && events[i].ToolResult? ==> UsedBefore(events, i, events[i].name))
  }

  lemma QueueIsWellFormed(chat: Chat, q: nat)
    requires q < |chat.queues| && QueueInv(chat, q)
    ensures WellFormedTurn(chat.queues[q].events, chat.turn == Some(q) || q in chat.stopped)
  {
    var events := chat.queues[q].events;
    forall i | 0 <= i < |events|
      ensures CoherentAt(events, i)
      ensures events[i].Terminal() ==> i == |events| - 1
    {
      if i < |events| - 1 && Concluded(events) {
        assert events[..|events| - 1][i] == events[i];
      }
    }
  }

  /** A turn's queue receives at most one terminal event, always last, and exactly one unless the
      turn is still open or `stop()` ended it; a final text is the concatenation of the
      deltas before it; a tool result follows a use of that tool in the same turn. */
  lemma QueueOfATurn(env: Env, s: State, q: nat)
    requires Reachable(env, s) && q < |s.chat.queues|
    ensures WellFormedTurn(s.chat.queues[q].events, s.chat.turn == Some(q) || q in s.chat.stopped)
  {
    ReachableInv(env, s);
    assert QueueInv(s.chat, q);
    QueueIsWellFormed(s.chat, q);
  }

  // ---- JSON-RPC correlation ----

  predicate CallOf(a: Act, id: nat) {
    a.Called? && a.id == id
  }

  predicate SettlementOf(a: Act, id: nat) {
    a.Settled? && id in a.ids
  }

  /** Indices of the calls, and of the settlements, of one request. */
  ghost function Calls(log: seq<Act>, id: nat): set<int> {
    set i | 0 <= i < |log| && CallOf(log[i], id)
  }

  ghost function Settlements(log: seq<Act>, id: nat): set<int> {
    set i | 0 <= i < |log| && SettlementOf(log[i], id)
  }

  /** The calls are numbered 1, 2, 3, ...; a number is settled at most once, after its call, and is
      outstanding exactly as long as it is not settled. */
  lemma {:induction false} Correlation(log: seq<Act>, id: nat)
    requires LegalLog(log)
    ensures |Calls(log, id)| == (if 1 <= id < Observe(log).issued then 1 else 0)
    ensures id in Observe(log).outstanding ==> 1 <= id < Observe(log).issued
    ensures |Settlements(log, id)| ==
        (if 1 <= id < Observe(log).issued && id !in Observe(log).outstanding then 1 else 0)
    ensures forall i, j :: i in Calls(log, id) && j in Settlements(log, id) ==> i < j
    ensures Observe(log).issued >= 1
  {
    if log == [] {
      assert Calls(log, id) == {} && Settlements(log, id) == {};
    } else {
      var front, last := log[..|log| - 1], log[|log| - 1];
      FrontLegal(log);
      Correlation(front, id);
      assert Calls(log, id) == Calls(front, id) + if CallOf(last, id) then {|front|} else {};
      assert Settlements(log, id) == Settlements(front, id) + if SettlementOf(last, id) then {|front|} else {};
    }
  }

  /** In every reachable state request ids are never reused, each request is settled at most once, and the ones
      not yet settled are exactly the pending ones; the exit of the process leaves none. */
  lemma RequestsSettleOnce(env: Env, s: State, id: nat)
    requires Reachable(env, s)
    ensures
      && |Calls(s.log, id)| == (if 1 <= id < s.rpc.nextId then 1 else 0)
      && |Settlements(s.log, id)| == (if 1 <= id < s.rpc.nextId && id !in s.rpc.pending then 1 else 0)
      && (forall i, j :: i in Calls(s.log, id) && j in Settlements(s.log, id) ==> i < j)
  {
    ReachableInv(env, s);
    Correlation(s.log, id);
  }

  /** The exit of a process settles every request sent before it. That of the current process leaves none
      pending; after that of an earlier one there may be the compaction request that the end of the turn
      gave way to. */
  lemma ExitLeavesNothingPending(env: Env, s: State, current: bool, message: string, notSteerable: bool)
    ensures var t := Step(env, s, ProcessExit(current, message, notSteerable));
      && (current ==> t.rpc.pending == map[])
      && (forall id :: id in t.rpc.pending ==> id == s.rpc.nextId && t.rpc.pending[id].call.CompactStart?)
  {
    var s1 := s.RequestsRejected(current, Rejected(message, notSteerable));
    var s2 := s1.Emit(Error(message, true)).CloseTurn();
    assert s1.rpc.pending == map[] && s2.rpc == s1.rpc;
  }

  /** A late or unknown answer, and the timeout of a request already settled, change nothing. */
  lemma StrayAnswersChangeNothing(env: Env, s: State, id: nat, outcome: Outcome)
    ensures id !in s.rpc.pending ==> Step(env, s, AnswerLine(id, outcome)) == s && Step(env, s, RequestTimeout(id)) == s
    ensures id in s.rpc.pending ==>
      var s' := Step(env, s, AnswerLine(id, outcome));
      && s'.rpc.pending == s.rpc.pending - {id}
      && s'.rpc.jobs == s.rpc.jobs[id := Job(s.rpc.pending[id].call, outcome)]
      && s' == s.(rpc := s'.rpc, log := s.log + [Settled({id})])
  {
  }

  // ---- no turn is stranded ----

  /** With prompt timers, a barrier is released within the ack limit plus the completion limit. */
  lemma BarrierReleasedInTime(env: Env, s: State)
    requires Reachable(env, s) && env.prompt && s.compact.inFlight
    ensures
      && s.compact.barriers != []
      && s.now <= s.compact.barriers[|s.compact.barriers| - 1].madeAt + COMPACT_START_ACK_TIMEOUT_MS +
          env.CompletionTimeoutMs()
  {
    ReachableInv(env, s);
    var b := s.compact.barrier.value;
    var id := s.compact.barriers[b].callId;
    assert id in s.rpc.pending ==> s.now <= s.rpc.pending[id].deadline;
  }

  /** So a turn that waits behind a compaction can go on at once, or is at most that long away
      from it. */
  lemma NoTurnStranded(env: Env, s: State, q: nat)
    requires Reachable(env, s) && env.prompt && q in s.waiting && s.chat.turn == Some(q)
    ensures var b := s.waiting[q];
      && b < |s.compact.barriers|
      && (b in s.compact.resolved ||
          s.now <= s.compact.barriers[b].madeAt + COMPACT_START_ACK_TIMEOUT_MS + env.CompletionTimeoutMs())
  {
    ReachableInv(env, s);
    if s.compact.inFlight {
      BarrierReleasedInTime(env, s);
    }
  }
}
