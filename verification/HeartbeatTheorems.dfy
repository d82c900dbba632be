/** What the heartbeat promises over every run of the ledger. */
module HeartbeatTheorems {
  import opened Options
  import opened HeartbeatPolicy
  import opened HeartbeatProtocol
  import opened HeartbeatInvariant

  // ---- sessions ----

  /** An expired session may still look active, but a contact never has two sessions that are not stopped. */
  lemma OneActiveSession(p: Patterns, s: State, a: SessionId, b: SessionId)
    requires Reachable(p, s) && a in s.sessions && b in s.sessions
    requires s.sessions[a].contact == s.sessions[b].contact && !s.sessions[a].stopped && !s.sessions[b].stopped
    ensures a == b
  {
    ReachableInv(p, s);
    assert Unstopped(s, a) && Unstopped(s, b) && SameContact(s, a, b);
  }

  /** A new session takes over from an expired one, and only an unexpired one keeps it out. */
  lemma StartReplacesExpired(p: Patterns, s: State, contact: string, minutes: Option<int>, newId: SessionId,
      sample: real)
    requires Reachable(p, s) && newId !in s.sessions && 0.0 <= sample < 1.0
    requires minutes.None? || 5 <= minutes.value <= 480
    ensures var (t, error) := s.StartSession(contact, minutes, newId, false, true, sample);
      && (error == None || error == Some(AlreadyActive))
      && (error == Some(AlreadyActive) <==>
            exists id :: id in s.sessions && s.sessions[id].ActiveFor(contact) && !s.sessions[id].Expired(s.now))
      && (error == None ==> forall id :: id in t.sessions && t.sessions[id].ActiveFor(contact) ==> id == newId)
      && (error == None ==> newId in t.sessions && !t.sessions[newId].stopped)
  {
    var t := s.LookAt(contact);
    if t.Active(contact) {
      var id :| id in t.sessions && t.sessions[id].contact == contact && !t.sessions[id].stopped;
      assert id in s.sessions && s.sessions[id].ActiveFor(contact) && !s.sessions[id].Expired(s.now);
    }
    if id :| id in s.sessions && s.sessions[id].ActiveFor(contact) && !s.sessions[id].Expired(s.now) {
      assert id in t.sessions && t.sessions[id].contact == contact && !t.sessions[id].stopped;
    }
  }

  lemma FailureAndIntervalBounds(p: Patterns, s: State, id: SessionId)
    requires Reachable(p, s) && id in s.sessions
    ensures 4 <= s.sessions[id].intervalMinutes <= 30
    ensures s.sessions[id].failureCount <= 3
    ensures s.sessions[id].failureCount == 3 ==> Halted(s, id)
  {
    ReachableInv(p, s);
    assert SessionOk(s, id);
  }

  // ---- pacing ----

  /** Ticks of a session are at least four minutes apart, and the f-th failure in a row delays the next
      one by min(30, 5 * 2^(f-1)) minutes. */
  lemma TicksArePaced(p: Patterns, s: State, i: nat, j: nat)
    requires Reachable(p, s) && i < j < |s.log| && s.log[j].Ticked? && s.log[i].session == s.log[j].session
    ensures s.log[i].Ticked? ==> s.log[j].at >= s.log[i].at + 4 * MINUTE_MS
    ensures s.log[i].FailureRecorded? ==>
      s.log[i].failures >= 1 && s.log[j].at >= s.log[i].at + BackoffMinutes(s.log[i].failures) * MINUTE_MS
  {
    ReachableInv(p, s);
    assert Compatible(s.log[i], s.log[j]);
  }

  /** After a failure that may have written, or the third in a row, nothing happens in the session any more: no tick, no
      dispatch, no record. */
  lemma NoRetryAfterWrite(p: Patterns, s: State, i: nat, j: nat)
    requires Reachable(p, s) && i < j < |s.log|
    requires s.log[i].FailureRecorded? && (s.log[i].wrote || s.log[i].failures >= 3)
    ensures s.log[j].session != s.log[i].session
  {
    ReachableInv(p, s);
    assert Compatible(s.log[i], s.log[j]);
  }

  // ---- failures in a row ----

  /** Failures recorded since the last success. */
  function Streak(log: seq<Act>, id: SessionId): nat {
    if log == [] then 0
    else
      var before, last := Streak(log[..|log| - 1], id), log[|log| - 1];
      if last.session != id then before
      else match last
        case SuccessRecorded(_) => 0
        case FailureRecorded(_, _, _, _) => before + 1
        case _ => before
  }

  lemma StreakAppend(log: seq<Act>, a: Act, id: SessionId)
    ensures Streak(log + [a], id) ==
      if a.session != id then Streak(log, id)
      else if a.SuccessRecorded? then 0 else if a.FailureRecorded? then Streak(log, id) + 1 else Streak(log, id)
  {
    assert (log + [a])[..|log|] == log;
  }

  lemma {:induction false} NoActNoStreak(log: seq<Act>, id: SessionId)
    requires forall a :: a in log ==> a.session != id
    ensures Streak(log, id) == 0
  {
    if log != [] {
      NoActNoStreak(log[..|log| - 1], id);
    }
  }

  ghost predicate Counted(s: State, id: SessionId) {
    id in s.sessions ==> s.sessions[id].failureCount == Streak(s.log, id)
  }

  /** A failure is recorded under its number in its row of failures. */
  predicate NumberedAt(log: seq<Act>, i: nat) {
    i < |log| && log[i].FailureRecorded? ==> log[i].failures == Streak(log[..i + 1], log[i].session)
  }

  ghost predicate Numbered(log: seq<Act>) {
    forall i :: NumberedAt(log, i)
  }

  lemma NumberedAppend(log: seq<Act>, a: Act)
    requires Numbered(log) && (a.FailureRecorded? ==> a.failures == Streak(log, a.session) + 1)
    ensures Numbered(log + [a])
  {
    forall i: nat ensures NumberedAt(log + [a], i) {
      assert NumberedAt(log, i);
      if i < |log| {
        assert (log + [a])[..i + 1] == log[..i + 1];
      } else if i == |log| {
        assert (log + [a])[..i + 1] == log + [a];
        StreakAppend(log, a, a.session);
      }
    }
  }

  ghost predicate StreaksOk(s: State) {
    Numbered(s.log) && forall id :: Counted(s, id)
  }

  lemma CalmsKeepsStreaks(s: State, t: State)
    requires StreaksOk(s) && Calms(s, t)
    ensures StreaksOk(t)
  {
    forall id ensures Counted(t, id) {
      assert Counted(s, id) && Related(s, t, id);
    }
  }

  lemma TickKeepsStreaks(s: State, id: SessionId, w: Surroundings)
    requires StreaksOk(s) && id in s.sessions && 0.0 <= w.sample < 1.0
    ensures StreaksOk(s.Tick(id, w))
  {
    if s.Due(id, w) {
      var t, idles := s.BeginTick(id, w.sample), s.Idles(id, w);
      var u := t.Dispatch(id, w, idles);
      NumberedAppend(s.log, Ticked(id, s.now));
      NumberedAppend(t.log, Dispatched(id, t.sessions[id].tickCount));
      forall other ensures Counted(u, other) {
        assert Counted(s, other);
        StreakAppend(s.log, Ticked(id, s.now), other);
        StreakAppend(t.log, Dispatched(id, t.sessions[id].tickCount), other);
      }
    } else {
      StopsCalm(s, s.sessions[id].contact);
      CalmsKeepsStreaks(s, s.StopSession(s.sessions[id].contact));
    }
  }

  lemma RecordBeatKeepsStreaks(p: Patterns, s: State, key: Key, result: TurnResult)
    requires StreaksOk(s) && key.session in s.sessions
    ensures StreaksOk(s.RecordBeat(p, key, result))
  {
    var t := s.RecordBeat(p, key, result);
    var act := if result.outcome.TurnDone? then SuccessRecorded(key.session)
               else FailureRecorded(key.session, s.sessions[key.session].failureCount + 1, s.now,
                   Wrote(p, s.ToolsOf(key.session, result)));
    assert t.log == s.log + [act] && Counted(s, key.session);
    NumberedAppend(s.log, act);
    forall id ensures Counted(t, id) {
      assert Counted(s, id);
      StreakAppend(s.log, act, id);
    }
  }

  lemma CompletionKeepsStreaks(p: Patterns, s: State, key: Key, result: TurnResult, stage: Stage)
    requires Inv(s) && StreaksOk(s) && key in s.unsettled && key.session in s.sessions
    ensures StreaksOk(s.Settle(p, key, result, stage))
  {
    UnsettledIsRecordable(s, key);
    CalmsKeepsStreaks(s, s.(unsettled := s.unsettled - {key}));
    RewrittenKeeps(p, s, key, result);
    var b, settled := s.Rewritten(p, key, result), s.Protected(p, key.session, result);
    CalmsKeepsStreaks(s, b);
    RecordBeatKeepsStreaks(p, b, key, settled);
    var c := b.RecordBeat(p, key, settled);
    MessagesCalm(p, c, key.session, s.unsettled[key], settled);
    CalmsKeepsStreaks(c, c.SettleBeat(key.session, s.unsettled[key], settled));
  }

  lemma StartKeepsStreaks(s: State, contact: string, minutes: Option<int>, newId: SessionId,
                          workflowOnly: bool, enabled: bool, sample: real)
    requires Inv(s) && StreaksOk(s) && newId !in s.sessions && 0.0 <= sample < 1.0
    ensures StreaksOk(s.StartSession(contact, minutes, newId, workflowOnly, enabled, sample).0)
  {
    var t := s.StartSession(contact, minutes, newId, workflowOnly, enabled, sample).0;
    StopsCalm(s, contact);
    CalmsKeepsStreaks(s, s.LookAt(contact));
    forall a | a in s.log ensures a.session != newId {
      assert ActOk(s, a);
    }
    NoActNoStreak(s.log, newId);
    forall id ensures Counted(t, id) {
      assert Counted(s, id) && Counted(s.LookAt(contact), id);
    }
  }

  lemma StepKeepsStreaks(p: Patterns, s: State, e: Event)
    requires Inv(s) && StreaksOk(s)
    ensures StreaksOk(Step(p, s, e))
  {
    if Enabled(s, e) {
      match e
      case StartSessionCall(contact, minutes, newId, workflowOnly, enabled, sample) =>
        StartKeepsStreaks(s, contact, minutes, newId, workflowOnly, enabled, sample);
      case StopSessionCall(contact) =>
        StopsCalm(s, contact);
        CalmsKeepsStreaks(s, s.StopSession(contact));
      case StatusCall(contact) =>
        StopsCalm(s, contact);
        CalmsKeepsStreaks(s, s.LookAt(contact));
      case TickPass(id, w) =>
        TickKeepsStreaks(s, id, w);
      case Completion(key, result) =>
        CompletionKeepsStreaks(p, s, key, result, Finished);
        var contact := s.sessions[key.session].contact;
        StopsCalm(s.Settle(p, key, result, Finished), contact);
        CalmsKeepsStreaks(s.Settle(p, key, result, Finished), s.Complete(p, key, result));
      case SettlementFailure(key, result, stage) =>
        CompletionKeepsStreaks(p, s, key, result, stage);
        SettleKeeps(p, s, key, result, stage);
        var a, contact := s.Settle(p, key, result, stage), s.sessions[key.session].contact;
        GiveUpCalms(a, key);
        CalmsKeepsStreaks(a, a.GiveUp(key));
        StopsCalm(a.GiveUp(key), contact);
        CalmsKeepsStreaks(a.GiveUp(key), a.GiveUp(key).LookAt(contact));
      case Start(newProcess) =>
        RestartCalms(s, newProcess);
        CalmsKeepsStreaks(s, s.Restart(newProcess));
      case MessageWritten(_) =>
        WorldCalms(p, s, e);
        CalmsKeepsStreaks(s, Step(p, s, e));
      case MessageDeleted(_) =>
        WorldCalms(p, s, e);
        CalmsKeepsStreaks(s, Step(p, s, e));
      case ClockAdvance(_) =>
        WorldCalms(p, s, e);
        CalmsKeepsStreaks(s, Step(p, s, e));
    }
  }

  lemma {:induction false} RunKeepsStreaks(p: Patterns, run: seq<State>)
    requires IsRun(p, run)
    ensures StreaksOk(run[|run| - 1])
  {
    if |run| > 1 {
      PrefixIsRun(p, run);
      RunKeepsStreaks(p, run[..|run| - 1]);
      RunKeeps(p, run[..|run| - 1]);
      var e :| run[|run| - 1] == Step(p, run[|run| - 2], e);
      StepKeepsStreaks(p, run[|run| - 2], e);
    }
  }

  /** `failure_count` is the number of failures since the last finished run, and there are never more than three. */
  lemma FailuresInARow(p: Patterns, s: State, id: SessionId)
    requires Reachable(p, s) && id in s.sessions
    ensures s.sessions[id].failureCount == Streak(s.log, id) <= 3
    ensures Streak(s.log, id) == 3 ==> Halted(s, id)
    ensures Numbered(s.log)
  {
    var run :| IsRun(p, run) && run[|run| - 1] == s;
    RunKeepsStreaks(p, run);
    assert Counted(s, id);
    FailureAndIntervalBounds(p, s, id);
  }

  // ---- a paused session ----

  /** Paused with no run in flight. */
  ghost predicate Halted(s: State, id: SessionId) {
    id in s.sessions && s.sessions[id].paused && !InFlight(s, id)
  }

  ghost predicate SameDispatches(s: State, t: State, id: SessionId) {
    forall tick :: Dispatched(id, tick) in s.log <==> Dispatched(id, tick) in t.log
  }

  lemma HaltedAfterCalm(s: State, t: State, id: SessionId)
    requires Halted(s, id) && Calms(s, t)
    ensures Halted(t, id) && SameDispatches(s, t, id)
  {
    assert Related(s, t, id);
  }

  lemma HaltedDuringTick(s: State, id: SessionId, ticking: SessionId, w: Surroundings)
    requires Halted(s, id) && ticking in s.sessions && 0.0 <= w.sample < 1.0
    ensures var t := s.Tick(ticking, w); Halted(t, id) && SameDispatches(s, t, id)
  {
    if s.Due(ticking, w) {
      assert id != ticking;
      var t := s.Tick(ticking, w);
      assert forall k :: k in t.unsettled ==> k in s.unsettled || k.session == ticking;
    } else {
      StopsCalm(s, s.sessions[ticking].contact);
      HaltedAfterCalm(s, s.StopSession(s.sessions[ticking].contact), id);
    }
  }

  lemma HaltedDuringRecord(p: Patterns, s: State, id: SessionId, key: Key, result: TurnResult)
    requires Halted(s, id) && key.session in s.sessions && key.session != id
    ensures var t := s.RecordBeat(p, key, result); Halted(t, id) && SameDispatches(s, t, id)
  {
    var t := s.RecordBeat(p, key, result);
    assert t.sessions[id] == s.sessions[id] && t.unsettled == s.unsettled;
    assert t.log == s.log || (exists a :: t.log == s.log + [a] && !a.Dispatched?);
  }

  lemma HaltedDuringSettle(p: Patterns, s: State, id: SessionId, key: Key, result: TurnResult, stage: Stage)
    requires Inv(s) && Halted(s, id) && key in s.unsettled && key.session in s.sessions
    ensures var t := s.Settle(p, key, result, stage); Halted(t, id) && SameDispatches(s, t, id)
  {
    assert key.session != id;
    UnsettledIsRecordable(s, key);
    HaltedAfterCalm(s, s.(unsettled := s.unsettled - {key}), id);
    RewrittenKeeps(p, s, key, result);
    var b, settled := s.Rewritten(p, key, result), s.Protected(p, key.session, result);
    HaltedAfterCalm(s, b, id);
    HaltedDuringRecord(p, b, id, key, settled);
    var c := b.RecordBeat(p, key, settled);
    MessagesCalm(p, c, key.session, s.unsettled[key], settled);
    HaltedAfterCalm(c, c.SettleBeat(key.session, s.unsettled[key], settled), id);
  }

  lemma HaltedDuringCompletion(p: Patterns, s: State, id: SessionId, key: Key, result: TurnResult)
    requires Inv(s) && Halted(s, id) && key in s.unsettled && key.session in s.sessions
    ensures var t := s.Complete(p, key, result); Halted(t, id) && SameDispatches(s, t, id)
  {
    HaltedDuringSettle(p, s, id, key, result, Finished);
    var a := s.Settle(p, key, result, Finished);
    StopsCalm(a, s.sessions[key.session].contact);
    HaltedAfterCalm(a, s.Complete(p, key, result), id);
  }

  lemma HaltedDuringFailedSettlement(p: Patterns, s: State, id: SessionId, key: Key, result: TurnResult, stage: Stage)
    requires Inv(s) && Halted(s, id) && key in s.unsettled && key.session in s.sessions
    ensures var t := s.SettlementFailed(p, key, result, stage); Halted(t, id) && SameDispatches(s, t, id)
  {
    var contact := s.sessions[key.session].contact;
    HaltedDuringSettle(p, s, id, key, result, stage);
    SettleKeeps(p, s, key, result, stage);
    var a := s.Settle(p, key, result, stage);
    GiveUpCalms(a, key);
    HaltedAfterCalm(a, a.GiveUp(key), id);
    StopsCalm(a.GiveUp(key), contact);
    HaltedAfterCalm(a.GiveUp(key), a.GiveUp(key).LookAt(contact), id);
  }

  lemma HaltedDuringStart(s: State, id: SessionId, contact: string, minutes: Option<int>, newId: SessionId,
                          workflowOnly: bool, enabled: bool, sample: real)
    requires Halted(s, id) && newId !in s.sessions && 0.0 <= sample < 1.0
    ensures var t := s.StartSession(contact, minutes, newId, workflowOnly, enabled, sample).0;
      Halted(t, id) && SameDispatches(s, t, id)
  {
    StopsCalm(s, contact);
    HaltedAfterCalm(s, s.LookAt(contact), id);
  }

  lemma HaltedKeeps(p: Patterns, s: State, e: Event, id: SessionId)
    requires Inv(s) && Halted(s, id)
    ensures Halted(Step(p, s, e), id) && SameDispatches(s, Step(p, s, e), id)
  {
    if Enabled(s, e) {
      match e
      case StartSessionCall(contact, minutes, newId, workflowOnly, enabled, sample) =>
        HaltedDuringStart(s, id, contact, minutes, newId, workflowOnly, enabled, sample);
      case StopSessionCall(contact) =>
        StopsCalm(s, contact);
        HaltedAfterCalm(s, s.StopSession(contact), id);
      case StatusCall(contact) =>
        StopsCalm(s, contact);
        HaltedAfterCalm(s, s.LookAt(contact), id);
      case TickPass(ticking, w) =>
        HaltedDuringTick(s, id, ticking, w);
      case Completion(key, result) =>
        HaltedDuringCompletion(p, s, id, key, result);
      case SettlementFailure(key, result, stage) =>
        HaltedDuringFailedSettlement(p, s, id, key, result, stage);
      case Start(newProcess) =>
        RestartCalms(s, newProcess);
        HaltedAfterCalm(s, s.Restart(newProcess), id);
      case MessageWritten(_) =>
        WorldCalms(p, s, e);
        HaltedAfterCalm(s, Step(p, s, e), id);
      case MessageDeleted(_) =>
        WorldCalms(p, s, e);
        HaltedAfterCalm(s, Step(p, s, e), id);
      case ClockAdvance(_) =>
        WorldCalms(p, s, e);
        HaltedAfterCalm(s, Step(p, s, e), id);
    }
  }

  /** Once paused with no run in flight, a session never dispatches again, restarts included. */
  lemma {:induction false} HaltedForever(p: Patterns, run: seq<State>, i: nat, id: SessionId)
    requires IsRun(p, run) && i < |run| && Halted(run[i], id)
    ensures Halted(run[|run| - 1], id) && SameDispatches(run[i], run[|run| - 1], id)
  {
    if i < |run| - 1 {
      PrefixIsRun(p, run);
      HaltedForever(p, run[..|run| - 1], i, id);
      RunKeeps(p, run[..|run| - 1]);
      HaltedFollows(p, run[|run| - 2], run[|run| - 1], id);
    }
  }

  lemma HaltedFollows(p: Patterns, s: State, t: State, id: SessionId)
    requires Inv(s) && Halted(s, id) && Follows(p, s, t)
    ensures Halted(t, id) && SameDispatches(s, t, id)
  {
    var e :| t == Step(p, s, e);
    HaltedKeeps(p, s, e, id);
  }

  // ---- the ledger ----

  /** Before a tick is dispatched it has no run and no message, so its insert is never a duplicate. */
  lemma DuplicateUnreachable(p: Patterns, s: State, id: SessionId)
    requires Reachable(p, s) && id in s.sessions
    ensures var key := Key(id, s.sessions[id].tickCount + 1);
      key !in s.runs && !s.HasKey(key) && forall i :: 0 <= i < |s.log| ==> s.log[i] != Dispatched(id, key.tick)
  {
    ReachableInv(p, s);
    NextTickIsNew(s, id);
    var key := Key(id, s.sessions[id].tickCount + 1);
    forall i | 0 <= i < |s.log| ensures s.log[i] != Dispatched(id, key.tick) {
      assert ActOk(s, s.log[i]);
    }
  }

  lemma DispatchedOnce(p: Patterns, s: State, i: nat, j: nat)
    requires Reachable(p, s) && i < j < |s.log| && s.log[i].Dispatched?
    ensures s.log[i] != s.log[j]
  {
    ReachableInv(p, s);
    assert Compatible(s.log[i], s.log[j]);
  }

  /** A tick is either skipped or dispatched, and the ledger knows which. */
  lemma DispatchedUnlessSkipped(p: Patterns, s: State, id: SessionId, tick: nat)
    requires Reachable(p, s) && id in s.sessions
    ensures Key(id, tick) in s.runs <==> 1 <= tick <= s.sessions[id].tickCount
    ensures Dispatched(id, tick) in s.log <==> Key(id, tick) in s.runs && s.runs[Key(id, tick)].outcome != Skipped
  {
    ReachableInv(p, s);
    var key := Key(id, tick);
    assert RowOk(s, key) <==> key in s.runs;
    if Dispatched(id, tick) in s.log {
      assert ActOk(s, Dispatched(id, tick));
    }
    assert Begun(s, key) ==> Dispatched(key.session, key.tick) in s.log;
  }

  /** The rows that `stats` adds up. */
  function Rows(s: State, id: SessionId, outcomes: set<Outcome>): set<Key> {
    set k | k in s.runs && k.session == id && s.runs[k].outcome in outcomes
  }

  datatype Stats = Stats(dispatched: nat, silent: nat, visible: nat, failed: nat, skipped: nat)

  function StatsOf(s: State, id: SessionId): Stats {
    Stats(|Rows(s, id, {Running, Silent, Visible, Failed, Interrupted})|, |Rows(s, id, {Silent})|,
        |Rows(s, id, {Visible})|,
          |Rows(s, id, {Failed, Interrupted})|, |Rows(s, id, {Skipped})|)
  }

  function KeysUpTo(id: SessionId, n: nat): set<Key> {
    set t | 1 <= t <= n :: Key(id, t)
  }

  lemma {:induction false} KeysUpToSize(id: SessionId, n: nat)
    ensures |KeysUpTo(id, n)| == n
  {
    if n > 0 {
      KeysUpToSize(id, n - 1);
      assert KeysUpTo(id, n) == KeysUpTo(id, n - 1) + {Key(id, n)};
      assert Key(id, n) !in KeysUpTo(id, n - 1);
    }
  }

  lemma RowsSplit(s: State, id: SessionId, a: set<Outcome>, b: set<Outcome>)
    requires a !! b
    ensures |Rows(s, id, a + b)| == |Rows(s, id, a)| + |Rows(s, id, b)|
  {
    assert Rows(s, id, a + b) == Rows(s, id, a) + Rows(s, id, b);
    assert Rows(s, id, a) !! Rows(s, id, b);
  }

  const EVERY_OUTCOME := {Skipped, Running, Silent, Visible, Failed, Interrupted}

  lemma EveryOutcome(o: Outcome)
    ensures o in EVERY_OUTCOME
  {
    match o case Skipped => case Running => case Silent => case Visible => case Failed => case Interrupted =>
  }

  lemma OneRowPerTick(s: State, id: SessionId)
    requires RunsOk(s) && id in s.sessions
    ensures |Rows(s, id, EVERY_OUTCOME)| == s.sessions[id].tickCount
  {
    forall k ensures k in Rows(s, id, EVERY_OUTCOME) <==> k in KeysUpTo(id, s.sessions[id].tickCount) {
      assert RowOk(s, k) <==> k in s.runs;
      if k in s.runs { EveryOutcome(s.runs[k].outcome); }
      if k.session == id { assert k == Key(id, k.tick); }
    }
    assert Rows(s, id, EVERY_OUTCOME) == KeysUpTo(id, s.sessions[id].tickCount);
    KeysUpToSize(id, s.sessions[id].tickCount);
  }

  /** Every tick is accounted for: tick_count = skipped + running + silent + visible + failed. */
  lemma LedgerConservation(p: Patterns, s: State, id: SessionId)
    requires Reachable(p, s) && id in s.sessions
    ensures var stats := StatsOf(s, id);
      && stats.dispatched == |Rows(s, id, {Running})| + stats.silent + stats.visible + stats.failed
      && s.sessions[id].tickCount == stats.skipped + stats.dispatched
  {
    ReachableInv(p, s);
    OneRowPerTick(s, id);
    RowsSplit(s, id, {Skipped}, {Running, Silent, Visible, Failed, Interrupted});
    assert EVERY_OUTCOME == {Skipped} + {Running, Silent, Visible, Failed, Interrupted};
    RowsSplit(s, id, {Running}, {Silent, Visible, Failed, Interrupted});
    assert {Running, Silent, Visible, Failed, Interrupted} == {Running} + {Silent, Visible, Failed, Interrupted};
    RowsSplit(s, id, {Silent}, {Visible, Failed, Interrupted});
    assert {Silent, Visible, Failed, Interrupted} == {Silent} + {Visible, Failed, Interrupted};
    RowsSplit(s, id, {Visible}, {Failed, Interrupted});
    assert {Visible, Failed, Interrupted} == {Visible} + {Failed, Interrupted};
  }

  // ---- settlement ----

  lemma CompletionRecords(p: Patterns, s: State, key: Key, result: TurnResult)
    requires Inv(s) && key in s.unsettled && key.session in s.sessions
    ensures var settled, b, t := s.Protected(p, key.session, result), s.Rewritten(p, key, result),
        s.Complete(p, key, result);
      && key in t.runs && t.runs[key].outcome == s.RecordedOutcome(settled)
      && t.runs[key].writeAttempted == Wrote(p, b.ToolsOf(key.session, settled))
      && t.messages == b.SettleBeat(key.session, s.unsettled[key], settled).messages
  {
    assert Begun(s, key);
    var settled, b := s.Protected(p, key.session, result), s.Rewritten(p, key, result);
    var c := b.RecordBeat(p, key, settled);
    assert c.messages == b.messages && c.sessions[key.session].contact == b.sessions[key.session].contact;
    SettleBeatReadsMessages(b, c, key.session, s.unsettled[key], settled);
    assert s.Complete(p, key, result) ==
        c.SettleBeat(key.session, s.unsettled[key], settled).LookAt(s.sessions[key.session].contact);
  }

  lemma SettleBeatReadsMessages(b: State, c: State, id: SessionId, prompt: nat, result: TurnResult)
    requires id in b.sessions && id in c.sessions && b.sessions[id].contact == c.sessions[id].contact
    requires b.messages == c.messages
    ensures b.SettleBeat(id, prompt, result).messages == c.SettleBeat(id, prompt, result).messages
    ensures c.SettleBeat(id, prompt, result).runs == c.runs
  {
  }

  predicate Quiet(result: TurnResult) {
    result.outcome.TurnDone? && IsSilent(result.text)
  }

  lemma QuietIsUntouched(p: Patterns, s: State, key: Key, result: TurnResult)
    requires key in s.unsettled && key.session in s.sessions
    ensures var settled, b := s.Protected(p, key.session, result), s.Rewritten(p, key, result);
      && (Quiet(settled) ==> settled == result && b.messages == s.messages)
      && b.messages.Keys == s.messages.Keys && b.sessions == s.sessions
      && (s.RecordedOutcome(settled) == Silent <==> Quiet(settled))
  {
    ReceiptIsNotSilent(p, result.text, s.ToolsOf(key.session, result));
  }

  lemma SettleBeatPrunes(s: State, id: SessionId, prompt: nat, result: TurnResult)
    requires id in s.sessions
    ensures var left := s.SettleBeat(id, prompt, result).messages;
      && (!Quiet(result) ==> left == s.messages)
      && (Quiet(result) ==> left.Keys == KeptRows(s, id, prompt, result))
  {
  }

  function KeptRows(s: State, id: SessionId, prompt: nat, result: TurnResult): set<nat>
    requires id in s.sessions
  {
    set m | m in s.messages && !s.Pruned(s.sessions[id].contact, prompt, result, m)
  }

  /** A settled run is recorded silent exactly when its turn is pruned: prompt, reply and all. */
  lemma SilentExactlyWhenPruned(p: Patterns, s: State, key: Key, result: TurnResult)
    requires Reachable(p, s) && key in s.unsettled && key.session in s.sessions
    ensures var t := s.Complete(p, key, result);
      && key in t.runs
      && (t.runs[key].outcome == Silent ==> t.messages.Keys == KeptRows(s, key.session, s.unsettled[key], result))
      && (t.runs[key].outcome != Silent ==> t.messages.Keys == s.messages.Keys)
      && (s.unsettled[key] in s.messages ==> (t.runs[key].outcome == Silent <==> s.unsettled[key] !in t.messages))
  {
    ReachableInv(p, s);
    CompletionRecords(p, s, key, result);
    QuietIsUntouched(p, s, key, result);
    var settled, b := s.Protected(p, key.session, result), s.Rewritten(p, key, result);
    SettleBeatPrunes(b, key.session, s.unsettled[key], settled);
    if Quiet(settled) {
      SamePruned(b, s, key.session, s.unsettled[key], result);
    }
  }

  lemma SamePruned(b: State, s: State, id: SessionId, prompt: nat, result: TurnResult)
    requires id in s.sessions && b.sessions == s.sessions && b.messages == s.messages
    ensures KeptRows(b, id, prompt, result) == KeptRows(s, id, prompt, result)
        && prompt !in KeptRows(s, id, prompt, result)
  {
  }

  lemma ReceiptIsNotSilent(p: Patterns, text: string, tools: seq<string>)
    ensures IsSilent(Receipt(p, text, tools)) ==> Receipt(p, text, tools) == text
  {
    if Trim(text) == "" || IsSilent(text) {
      ReceiptSpeaks(p, text, tools);
    }
  }

  lemma {:induction false} SameToolCalls(messages: map<nat, Message>, m: nat, row: Message, contact: string,
      turn: string, before: nat)
    requires m in messages && !messages[m].toolUse && !row.toolUse
    ensures ToolCalls(messages[m := row], contact, turn, before) == ToolCalls(messages, contact, turn, before)
  {
    if before > 0 {
      SameToolCalls(messages, m, row, contact, turn, before - 1);
    }
  }

  /** Rewriting a text reply does not change what the turn called. */
  lemma RewritingKeepsTools(p: Patterns, s: State, key: Key, result: TurnResult)
    requires key in s.unsettled && key.session in s.sessions
    requires s.Reply(result).Some? && !s.Reply(result).value.toolUse
    ensures s.Rewritten(p, key, result).ToolsOf(key.session, s.Protected(p, key.session, result)) ==
        s.ToolsOf(key.session, result)
  {
    var m, text := result.messageId.value, s.Protected(p, key.session, result).text;
    var reply := s.messages[m];
    if reply.turn.Some? {
      SameToolCalls(s.messages, m, reply.(content := text), s.sessions[key.session].contact, reply.turn.value,
          s.nextMessage);
    }
  }

  /** A finished turn that called a possible write tool and says nothing about it is given a receipt, is
      kept, and pauses the session for good. */
  lemma SilentWriteGetsReceipt(p: Patterns, s: State, key: Key, result: TurnResult)
    requires Reachable(p, s) && Enabled(s, Completion(key, result))
    requires result.outcome.TurnDone? && (Trim(result.text) == "" || IsSilent(result.text))
    requires s.Reply(result).Some? && Wrote(p, s.ToolsOf(key.session, result))
    ensures var t, m := s.Complete(p, key, result), result.messageId.value;
      && t.messages == s.messages[m := s.messages[m].(content := Receipt(p, "", s.ToolsOf(key.session, result)))]
      && key in t.runs && t.runs[key].outcome == Visible && t.runs[key].writeAttempted
      && Halted(t, key.session)
  {
    ReachableInv(p, s);
    ReceiptSpeaks(p, result.text, s.ToolsOf(key.session, result));
    CompletionRecords(p, s, key, result);
    QuietIsUntouched(p, s, key, result);
    SettleBeatPrunes(s.Rewritten(p, key, result), key.session, s.unsettled[key], s.Protected(p, key.session, result));
    RewritingKeepsTools(p, s, key, result);
    ReceiptHalts(p, s, key, result);
  }

  lemma ReceiptHalts(p: Patterns, s: State, key: Key, result: TurnResult)
    requires Inv(s) && key in s.unsettled && key.session in s.sessions
    requires result.outcome.TurnDone? && (Trim(result.text) == "" || IsSilent(result.text))
    requires s.Reply(result).Some? && !s.Reply(result).value.toolUse
    requires Wrote(p, s.ToolsOf(key.session, result))
    ensures Halted(s.Complete(p, key, result), key.session)
  {
    var settled, b := s.Protected(p, key.session, result), s.Rewritten(p, key, result);
    ReceiptSpeaks(p, result.text, s.ToolsOf(key.session, result));
    RewritingKeepsTools(p, s, key, result);
    RewrittenKeeps(p, s, key, result);
    ReceiptPauses(p, b, key, settled);
    HaltedToTheEnd(p, s, key, result);
  }

  lemma HaltedToTheEnd(p: Patterns, s: State, key: Key, result: TurnResult)
    requires key in s.unsettled && key.session in s.sessions
    requires Halted(s.Rewritten(p, key, result).RecordBeat(p, key, s.Protected(p, key.session, result)), key.session)
    ensures Halted(s.Complete(p, key, result), key.session)
  {
    var settled := s.Protected(p, key.session, result);
    var c := s.Rewritten(p, key, result).RecordBeat(p, key, settled);
    MessagesCalm(p, c, key.session, s.unsettled[key], settled);
    var d := c.SettleBeat(key.session, s.unsettled[key], settled);
    HaltedAfterCalm(c, d, key.session);
    StopsCalm(d, s.sessions[key.session].contact);
    HaltedAfterCalm(d, s.Complete(p, key, result), key.session);
  }

  lemma ReceiptPauses(p: Patterns, s: State, key: Key, result: TurnResult)
    requires key.session in s.sessions && !InFlight(s, key.session) && result.outcome.TurnDone?
    requires var tools := s.ToolsOf(key.session, result); Wrote(p, tools) && result.text == Receipt(p, "", tools)
    ensures Halted(s.RecordBeat(p, key, result), key.session)
  {
    var t := s.RecordBeat(p, key, result);
    assert t.unsettled == s.unsettled;
  }

  /** A failed or interrupted turn that called a possible write tool is recorded so, and pauses the session for good. */
  lemma FailedWriteHalts(p: Patterns, s: State, key: Key, result: TurnResult)
    requires Reachable(p, s) && key in s.unsettled && key.session in s.sessions
    requires !result.outcome.TurnDone? && Wrote(p, s.ToolsOf(key.session, result))
    ensures var t := s.Complete(p, key, result);
      && key in t.runs && t.runs[key].writeAttempted
          && (t.runs[key].outcome == Failed || t.runs[key].outcome == Interrupted)
      && Halted(t, key.session)
  {
    ReachableInv(p, s);
    UnsettledIsRecordable(s, key);
    assert Begun(s, key);
  }
}
