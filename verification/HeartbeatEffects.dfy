/** What each request, pass and settlement does to the rows of the ledger. Nothing here is said in terms of
    the step functions. */
module HeartbeatEffects {
  import opened Options
  import opened HeartbeatPolicy
  import opened HeartbeatProtocol
  import opened HeartbeatInvariant
  import opened HeartbeatTheorems
  import HeartbeatReceipts

  // ---- restarts ----

  predicate LeftRunning(s: State, id: SessionId) {
    Unstopped(s, id) && exists key :: key in s.runs && key.session == id && s.runs[key].outcome == Running
  }

  /** A restart pauses exactly the unstopped sessions with a run left running, and marks exactly those runs
      as interrupted. */
  lemma RestartPauses(p: Patterns, s: State, newProcess: bool)
    ensures var t := Step(p, s, Start(newProcess));
      && t.sessions.Keys == s.sessions.Keys && t.runs.Keys == s.runs.Keys && t.messages == s.messages && t.log == s.log
      && (forall id :: id in s.sessions ==>
            t.sessions[id] == if LeftRunning(s, id) then s.sessions[id].(paused := true) else s.sessions[id])
      && (forall key :: key in s.runs ==>
            t.runs[key] == if s.runs[key].outcome == Running then s.runs[key].(outcome := Interrupted) else s.runs[key])
      && t.unsettled == (if newProcess then map[] else s.unsettled)
  {
  }

  /** So nothing is running afterwards, and in a new process the paused sessions are halted. */
  lemma RestartHalts(p: Patterns, s: State, id: SessionId)
    requires LeftRunning(s, id)
    ensures var t := Step(p, s, Start(true));
      && Halted(t, id) && (forall key :: key in t.runs ==> t.runs[key].outcome != Running)
  {
    RestartPauses(p, s, true);
  }

  /** A session whose run was cut off by a restart of the gateway never dispatches again. */
  lemma CutOffRunIsNotRetried(p: Patterns, run: seq<State>, i: nat, id: SessionId)
    requires IsRun(p, run) && i + 1 < |run| && run[i + 1] == Step(p, run[i], Start(true)) && LeftRunning(run[i], id)
    ensures Halted(run[|run| - 1], id) && SameDispatches(run[i + 1], run[|run| - 1], id)
  {
    RestartHalts(p, run[i], id);
    HaltedForever(p, run, i + 1, id);
  }

  // ---- silence ----

  /** The rows that carry the reply's turn, for the contact. */
  predicate OfTurn(s: State, contact: string, result: TurnResult, m: nat) {
    && m in s.messages && s.Reply(result).Some? && s.Reply(result).value.turn.Some?
    && s.messages[m].contact == contact && s.messages[m].turn == s.Reply(result).value.turn
  }

  predicate IsPromptOrReply(s: State, key: Key, result: TurnResult, m: nat)
    requires key in s.unsettled
  {
    m == s.unsettled[key] || Some(m) == result.messageId
  }

  /** After a run recorded silent the prompt is gone, no row of the contact carries the reply's turn, and a
      reply without a turn is gone; every other row is as it was. */
  lemma SilentTurnIsGone(p: Patterns, s: State, key: Key, result: TurnResult)
    requires Reachable(p, s) && Enabled(s, Completion(key, result))
    requires var t := Step(p, s, Completion(key, result)); key in t.runs && t.runs[key].outcome == Silent
    ensures var t, contact := Step(p, s, Completion(key, result)), s.sessions[key.session].contact;
      && s.unsettled[key] !in t.messages
      && (forall m :: OfTurn(s, contact, result, m) ==> m !in t.messages)
      && (forall m :: m in t.messages ==>
          m in s.messages && t.messages[m] == s.messages[m] && !OfTurn(s, contact, result, m))
      && (forall m :: m in s.messages && !IsPromptOrReply(s, key, result, m) && !OfTurn(s, contact, result, m) ==>
            m in t.messages)
  {
    SilentIsQuiet(p, s, key, result);
  }

  /** The reply itself is gone if and only if it is of the session's contact, or has no turn, or is the prompt. */
  lemma SilentReplyIsGone(p: Patterns, s: State, key: Key, result: TurnResult)
    requires Reachable(p, s) && Enabled(s, Completion(key, result)) && s.Reply(result).Some?
    requires var t := Step(p, s, Completion(key, result)); key in t.runs && t.runs[key].outcome == Silent
    ensures var reply := s.Reply(result).value;
      result.messageId.value !in Step(p, s, Completion(key, result)).messages <==>
        || reply.turn.None? || reply.contact == s.sessions[key.session].contact
        || result.messageId.value == s.unsettled[key]
  {
    SilentIsQuiet(p, s, key, result);
  }

  lemma SilentIsQuiet(p: Patterns, s: State, key: Key, result: TurnResult)
    requires Reachable(p, s) && Enabled(s, Completion(key, result))
    requires var t := Step(p, s, Completion(key, result)); key in t.runs && t.runs[key].outcome == Silent
    ensures Quiet(result) && s.Complete(p, key, result).messages ==
        s.SettleBeat(key.session, s.unsettled[key], result).messages
  {
    ReachableInv(p, s);
    CompletionRecords(p, s, key, result);
    QuietIsUntouched(p, s, key, result);
    SettleBeatReadsMessages(s, s.Rewritten(p, key, result), key.session, s.unsettled[key], result);
  }

  // ---- ticks ----

  /** When a session that is not stopped ticks. */
  predicate TicksNow(x: Session, now: int, w: Surroundings) {
    && !w.workflowOnly && !x.paused
    && (x.expiresAt.Some? ==> now < x.expiresAt.value)
    && (x.lastTickAt.Some? ==> now - x.lastTickAt.value >= x.intervalMinutes * 60_000)
    && (x.lastTickAt.None? ==> now - x.startedAt >= x.intervalMinutes * 60_000)
  }

  predicate RuntimeFree(x: Session, w: Surroundings) {
    w.runtime == Idle || (w.runtime == InError && x.failureCount > 0 && w.contactKnown && w.recovers)
  }

  /** A pass over a session that need not tick stops it if it has expired, and else changes nothing. */
  lemma NoTick(p: Patterns, s: State, id: SessionId, w: Surroundings)
    requires Reachable(p, s) && Enabled(s, TickPass(id, w)) && !TicksNow(s.sessions[id], s.now, w)
    ensures var t, x := Step(p, s, TickPass(id, w)), s.sessions[id];
      t == if !w.workflowOnly && x.expiresAt.Some? && x.expiresAt.value <= s.now
           then s.(sessions := s.sessions[id := x.(stopped := true)]) else s
  {
    ReachableInv(p, s);
    assert Unstopped(s, id);
    var x := s.sessions[id];
    if !w.workflowOnly && x.expiresAt.Some? && x.expiresAt.value <= s.now {
      assert s.StopSession(x.contact).sessions == s.sessions[id := x.(stopped := true)] by {
        forall other | other in s.sessions && other != id && s.sessions[other].contact == x.contact
          ensures s.sessions[other].stopped
        {
          assert Unstopped(s, other) ==> SameContact(s, other, id);
        }
      }
    }
  }

  /** What a tick always does: one more tick now, and the next no sooner than in 4 to 7 minutes. */
  predicate Ticks(s: State, t: State, id: SessionId) {
    && id in s.sessions && id in t.sessions && t.sessions.Keys == s.sessions.Keys
    && var x, y := s.sessions[id], t.sessions[id];
    && y.tickCount == x.tickCount + 1 && y.lastTickAt == Some(s.now) && 4 <= y.intervalMinutes <= 7
    && y == x.(tickCount := y.tickCount, lastTickAt := y.lastTickAt, intervalMinutes := y.intervalMinutes,
        paused := y.paused)
    && forall other :: other in s.sessions && other != id ==> t.sessions[other] == s.sessions[other]
  }

  /** A due tick is dispatched if and only if the runtime is free, the user is away, the contact is there
      and its queue has room; else it is skipped. A runtime in error that does not recover pauses the
      session. */
  lemma DueTick(p: Patterns, s: State, id: SessionId, w: Surroundings)
    requires Reachable(p, s) && Enabled(s, TickPass(id, w)) && TicksNow(s.sessions[id], s.now, w)
    ensures var t, key := Step(p, s, TickPass(id, w)), Key(id, s.sessions[id].tickCount + 1);
      var free := RuntimeFree(s.sessions[id], w);
      && Ticks(s, t, id) && key in t.runs
      && t.nextMessage == s.nextMessage + (if free && !w.userPresent then 1 else 0)
      && (free && !w.userPresent && w.contactKnown && !w.queueFull ==> Dispatches(s, t, key))
      && (!(free && !w.userPresent && w.contactKnown && !w.queueFull) ==> Skips(s, t, key))
      && t.sessions[id].paused == (!free && w.runtime == InError)
  {
    ReachableInv(p, s);
    NextTickIsNew(s, id);
    TickOpens(s, id, w.sample);
    var u := s.BeginTick(id, w.sample);
    var t := u.Dispatch(id, w, s.Idles(id, w));
    DispatchDecides(u, id, w, s.Idles(id, w));
    assert Step(p, s, TickPass(id, w)) == t;
  }

  lemma TickOpens(s: State, id: SessionId, sample: real)
    requires id in s.sessions && 0.0 <= sample < 1.0 && Key(id, s.sessions[id].tickCount + 1) !in s.runs
    ensures var u, key := s.BeginTick(id, sample), Key(id, s.sessions[id].tickCount + 1);
      && Ticks(s, u, id) && u.sessions[id].paused == s.sessions[id].paused
      && u.runs == s.runs[key := RunRow(Skipped, 0, false)]
      && u.messages == s.messages && u.nextMessage == s.nextMessage && u.unsettled == s.unsettled
      && u.log == s.log + [Ticked(id, s.now)] && u.now == s.now
  {
  }

  /** The run is under way, with a prompt that carries its key and a completion waited for. */
  predicate Dispatches(s: State, t: State, key: Key) {
    && key in t.runs && t.runs == s.runs[key := RunRow(Running, 0, false)]
    && key in t.unsettled && t.unsettled == s.unsettled[key := t.unsettled[key]]
    && t.unsettled[key] in t.messages && t.unsettled[key] !in s.messages
    && t.messages == s.messages[t.unsettled[key] := t.messages[t.unsettled[key]]]
    && t.messages[t.unsettled[key]].key == Some(key)
    && key.session in s.sessions && t.messages[t.unsettled[key]].contact == s.sessions[key.session].contact
    && t.log == s.log + [Ticked(key.session, s.now)] + [Dispatched(key.session, key.tick)]
  }

  /** The tick is on record, and nothing is under way for it. */
  predicate Skips(s: State, t: State, key: Key) {
    && t.runs == s.runs[key := RunRow(Skipped, 0, false)] && t.unsettled == s.unsettled && t.messages == s.messages
    && t.log == s.log + [Ticked(key.session, s.now)]
  }

  lemma DispatchDecides(u: State, id: SessionId, w: Surroundings, idles: bool)
    requires id in u.sessions
    requires var key := Key(id, u.sessions[id].tickCount);
      key in u.runs && u.runs[key] == RunRow(Skipped, 0, false) && !u.HasKey(key)
    ensures var t, key, n := u.Dispatch(id, w, idles), Key(id, u.sessions[id].tickCount), u.nextMessage;
      && t.sessions == u.sessions[id := u.sessions[id].(paused := u.sessions[id].paused
          || (!idles && w.runtime == InError))]
      && t.nextMessage == n + (if idles && !w.userPresent then 1 else 0)
      && (idles && !w.userPresent && w.contactKnown && !w.queueFull ==>
            && t.runs == u.runs[key := RunRow(Running, 0, false)] && t.unsettled == u.unsettled[key := n]
            && n in t.messages && t.messages == u.messages[n := t.messages[n]]
            && t.messages[n].key == Some(key) && t.messages[n].contact == u.sessions[id].contact
            && t.log == u.log + [Dispatched(id, key.tick)])
      && (!(idles && !w.userPresent && w.contactKnown && !w.queueFull) ==>
            t.runs == u.runs && t.unsettled == u.unsettled && t.messages == u.messages && t.log == u.log)
  {
    var x := u.sessions[id];
    assert u.sessions[id := x.(paused := x.paused)] == u.sessions;
  }

  /** Each of 4, 5, 6 and 7 minutes is drawn from its quarter of the samples. */
  lemma IntervalsEvenlyDrawn(sample: real, minutes: int)
    requires 0.0 <= sample < 1.0 && 4 <= minutes <= 7
    ensures RandomIntervalMinutes(sample) == minutes <==>
      (minutes - 4) as real / 4.0 <= sample < (minutes - 3) as real / 4.0
  {
  }

  /** Others write messages under numbers of their own, and delete them. */
  lemma OthersWrite(p: Patterns, s: State, message: Message, m: nat)
    requires Reachable(p, s) && message.key.None?
    ensures var t := Step(p, s, MessageWritten(message));
      && s.nextMessage !in s.messages && t.messages == s.messages[s.nextMessage := message]
      && t == s.(messages := t.messages, nextMessage := s.nextMessage + 1)
    ensures var t := Step(p, s, MessageDeleted(m));
      t == s.(messages := t.messages) && m !in t.messages && t.messages.Keys == s.messages.Keys - {m}
  {
    ReachableInv(p, s);
  }

  // ---- sessions ----

  /** Why a session is not started, in the order of the checks. */
  lemma StartRefused(p: Patterns, s: State, contact: string, minutes: Option<int>, newId: SessionId,
                     workflowOnly: bool, enabled: bool, sample: real)
    requires 0.0 <= sample < 1.0
    ensures var (t, error) := s.StartSession(contact, minutes, newId, workflowOnly, enabled, sample);
      var outOfRange := minutes.Some? && !(5 <= minutes.value <= 480);
      && (error == Some(WorkflowOnly) <==> workflowOnly)
      && (error == Some(BadMinutes) <==> !workflowOnly && outOfRange)
      && (error == Some(Disabled) <==> !workflowOnly && !outOfRange && !enabled)
      && (workflowOnly || outOfRange || !enabled ==> t == s)
  {
  }

  /** A started session runs from now on for the minutes asked for, or without end, with all counters at
      zero; nobody else's session changes. */
  lemma StartedSession(p: Patterns, s: State, contact: string, minutes: Option<int>, newId: SessionId,
                       workflowOnly: bool, enabled: bool, sample: real)
    requires 0.0 <= sample < 1.0 && newId !in s.sessions
    requires s.StartSession(contact, minutes, newId, workflowOnly, enabled, sample).1.None?
    ensures var t := s.StartSession(contact, minutes, newId, workflowOnly, enabled, sample).0;
      && newId in t.sessions && var x := t.sessions[newId];
      && x.contact == contact && x.startedAt == s.now && !x.stopped && !x.paused
      && x.tickCount == 0 && x.failureCount == 0 && x.lastTickAt.None? && 4 <= x.intervalMinutes <= 7
      && (minutes.None? ==> x.expiresAt.None?)
      && (minutes.Some? ==> x.expiresAt == Some(s.now + minutes.value * 60_000))
      && t.sessions.Keys == s.sessions.Keys + {newId} && t == s.(sessions := t.sessions)
      && forall id :: id in s.sessions && s.sessions[id].contact != contact ==> t.sessions[id] == s.sessions[id]
  {
  }

  /** Stopping a contact stops its sessions, looking at it those that have expired; no other session changes. */
  lemma SessionsStopped(p: Patterns, s: State, contact: string)
    ensures var t := Step(p, s, StopSessionCall(contact));
      && t == s.(sessions := t.sessions) && t.sessions.Keys == s.sessions.Keys
      && forall id :: id in s.sessions ==>
           t.sessions[id] ==
               if s.sessions[id].contact == contact then s.sessions[id].(stopped := true) else s.sessions[id]
    ensures var t := Step(p, s, StatusCall(contact));
      && t == s.(sessions := t.sessions) && t.sessions.Keys == s.sessions.Keys
      && forall id :: id in s.sessions ==> var x := s.sessions[id];
           var over := x.contact == contact && x.expiresAt.Some? && x.expiresAt.value <= s.now;
           t.sessions[id] == if over then x.(stopped := true) else x
  {
  }

  // ---- settled runs ----

  /** A tool call of the reply's turn that may have written. */
  predicate WriteRow(p: Patterns, s: State, contact: string, turn: string, m: nat) {
    m in s.messages && s.messages[m].toolUse && s.messages[m].contact == contact && s.messages[m].turn == Some(turn)
    && p.isWrite(s.messages[m].content)
  }

  lemma {:induction false} ToolCallsFound(p: Patterns, s: State, contact: string, turn: string, before: nat)
    ensures Wrote(p, ToolCalls(s.messages, contact, turn, before)) <==>
      exists m: nat :: m < before && WriteRow(p, s, contact, turn, m)
  {
    if before > 0 {
      var m := before - 1;
      ToolCallsFound(p, s, contact, turn, m);
      var earlier, all := ToolCalls(s.messages, contact, turn, m), ToolCalls(s.messages, contact, turn, before);
      if Wrote(p, earlier) {
        var i :| 0 <= i < |earlier| && p.isWrite(earlier[i]);
        assert p.isWrite(all[i]);
      }
      if WriteRow(p, s, contact, turn, m) {
        assert all[|earlier|] == s.messages[m].content;
      }
      if Wrote(p, all) {
        var i :| 0 <= i < |all| && p.isWrite(all[i]);
        if i < |earlier| {
          assert p.isWrite(earlier[i]);
        }
      }
    }
  }

  predicate ToolRow(s: State, contact: string, turn: string, m: nat) {
    m in s.messages && s.messages[m].toolUse && s.messages[m].contact == contact && s.messages[m].turn == Some(turn)
  }

  function ToolRows(s: State, contact: string, turn: string, before: nat): set<nat> {
    set m: nat | m < before && ToolRow(s, contact, turn, m)
  }

  lemma OneMoreRow(s: State, contact: string, turn: string, m: nat)
    ensures |ToolRows(s, contact, turn, m + 1)| ==
        |ToolRows(s, contact, turn, m)| + if ToolRow(s, contact, turn, m) then 1 else 0
  {
    var earlier := ToolRows(s, contact, turn, m);
    if ToolRow(s, contact, turn, m) {
      assert ToolRows(s, contact, turn, m + 1) == earlier + {m};
    } else {
      assert ToolRows(s, contact, turn, m + 1) == earlier;
    }
  }

  /** Every tool row of the turn is counted once. */
  lemma {:induction false} ToolRowsCounted(s: State, contact: string, turn: string, before: nat)
    ensures |ToolCalls(s.messages, contact, turn, before)| == |ToolRows(s, contact, turn, before)|
  {
    if before > 0 {
      ToolRowsCounted(s, contact, turn, before - 1);
      OneMoreRow(s, contact, turn, before - 1);
    }
  }

  /** A turn may have written if and only if one of its tool rows, for the contact, is not known to only read. */
  lemma WroteMeansWriteRow(p: Patterns, s: State, id: SessionId, result: TurnResult)
    requires Reachable(p, s) && id in s.sessions
    ensures Wrote(p, s.ToolsOf(id, result)) <==>
      && s.Reply(result).Some? && s.Reply(result).value.turn.Some?
      && exists m: nat :: WriteRow(p, s, s.sessions[id].contact, s.Reply(result).value.turn.value, m)
  {
    ReachableInv(p, s);
    if s.Reply(result).Some? && s.Reply(result).value.turn.Some? {
      var contact, turn := s.sessions[id].contact, s.Reply(result).value.turn.value;
      ToolCallsFound(p, s, contact, turn, s.nextMessage);
      forall m: nat | WriteRow(p, s, contact, turn, m) ensures m < s.nextMessage {
      }
    }
  }

  /** Apart from the time at which sessions are found expired, t has the rows of c. */
  predicate SameRecords(c: State, t: State) {
    && t.log == c.log && t.runs == c.runs && t.unsettled == c.unsettled && t.sessions.Keys == c.sessions.Keys
    && forall id :: id in c.sessions ==> t.sessions[id] == c.sessions[id].(stopped := t.sessions[id].stopped)
  }

  lemma PruningKeepsRecords(c: State, id: SessionId, prompt: nat, result: TurnResult, contact: string)
    requires id in c.sessions
    ensures SameRecords(c, c.SettleBeat(id, prompt, result).LookAt(contact))
  {
  }

  lemma ToolsUnchanged(p: Patterns, s: State, key: Key, result: TurnResult)
    requires Enabled(s, Completion(key, result))
    ensures s.Rewritten(p, key, result).ToolsOf(key.session, s.Protected(p, key.session, result)) ==
        s.ToolsOf(key.session, result)
  {
    if s.Reply(result).Some? && result.outcome.TurnDone? {
      RewritingKeepsTools(p, s, key, result);
    }
  }

  /** A settled run is recorded from the rewritten reply, with the tools of the turn. */
  lemma CompletionSession(p: Patterns, s: State, key: Key, result: TurnResult)
    requires Enabled(s, Completion(key, result))
    ensures var settled, b := s.Protected(p, key.session, result), s.Rewritten(p, key, result);
      && SameRecords(b.RecordBeat(p, key, settled), Step(p, s, Completion(key, result)))
      && b.ToolsOf(key.session, settled) == s.ToolsOf(key.session, result)
  {
    var settled := s.Protected(p, key.session, result);
    var c := s.Rewritten(p, key, result).RecordBeat(p, key, settled);
    ToolsUnchanged(p, s, key, result);
    PruningKeepsRecords(c, key.session, s.unsettled[key], settled, s.sessions[key.session].contact);
  }

  predicate OthersUntouched(s: State, t: State, key: Key) {
    && t.sessions.Keys == s.sessions.Keys && t.runs.Keys == s.runs.Keys
    && (forall id :: id in s.sessions && id != key.session ==>
        t.sessions[id] == s.sessions[id].(stopped := t.sessions[id].stopped))
    && (forall other :: other in s.runs && other != key ==> t.runs[other] == s.runs[other])
  }

  /** One more failure is on record. The session is tried again if and only if it was an error worth a
      retry, nothing may have been written, and it is not the third in a row; in any case not before 5, 10
      and 20 minutes. */
  predicate Fails(p: Patterns, s: State, t: State, key: Key, result: TurnResult, tools: seq<string>)
    requires key.session in s.sessions && key.session in t.sessions
  {
    var x, y, wrote := s.sessions[key.session], t.sessions[key.session], Wrote(p, tools);
    && key in t.runs
    && t.runs[key] == RunRow(if result.outcome == TurnError then Failed else Interrupted, |tools|, wrote)
    && y.failureCount == x.failureCount + 1 && y.lastTickAt == Some(s.now) && y.tickCount == x.tickCount
    && (!y.paused <==> result.outcome == TurnError && !wrote && y.failureCount < 3 && p.isRetryable(result.text))
    && y.intervalMinutes == (if y.failureCount == 1 then 5 else if y.failureCount == 2 then 10 else 20)
    && t.log == s.log + [FailureRecorded(key.session, y.failureCount, s.now, wrote)]
  }

  lemma BackoffValues()
    ensures BackoffMinutes(1) == 5 && BackoffMinutes(2) == 10 && BackoffMinutes(3) == 20
  {
    assert Pow2(0) == 1 && Pow2(1) == 2 && Pow2(2) == 4;
  }

  lemma FailureEffect(p: Patterns, b: State, key: Key, result: TurnResult)
    requires key.session in b.sessions && b.sessions[key.session].failureCount < 3 && key in b.runs
    requires result.outcome != TurnDone
    ensures var c := b.RecordBeat(p, key, result);
      && Fails(p, b, c, key, result, b.ToolsOf(key.session, result)) && OthersUntouched(b, c, key)
      && c.unsettled == b.unsettled
  {
    BackoffValues();
  }

  /** A failed or interrupted run is recorded with its tools and counts one more failure. */
  lemma FailureSettled(p: Patterns, s: State, key: Key, result: TurnResult)
    requires Reachable(p, s) && Enabled(s, Completion(key, result)) && result.outcome != TurnDone
    ensures var t := Step(p, s, Completion(key, result));
      && OthersUntouched(s, t, key) && t.unsettled == s.unsettled - {key}
      && Fails(p, s, t, key, result, s.ToolsOf(key.session, result))
  {
    ReachableInv(p, s);
    UnsettledIsRecordable(s, key);
    CompletionSession(p, s, key, result);
    var b := s.Rewritten(p, key, result);
    assert b == s.(unsettled := s.unsettled - {key}) && s.Protected(p, key.session, result) == result;
    FailureEffect(p, b, key, result);
  }

  /** The row of failures has ended; only a write left unexplained pauses the session. */
  predicate Succeeds(p: Patterns, s: State, t: State, key: Key, text: string, tools: seq<string>)
    requires key.session in s.sessions && key.session in t.sessions
  {
    var x, y, wrote := s.sessions[key.session], t.sessions[key.session], Wrote(p, tools);
    && key in t.runs && t.runs[key].toolCount == |tools| && t.runs[key].writeAttempted == wrote
    && t.runs[key].outcome == (if IsSilent(text) && !wrote then Silent else Visible)
    && y == x.(failureCount := 0, paused := y.paused, stopped := y.stopped)
    && (y.paused <==> x.paused || (wrote && Unexplained(p, text, tools)))
    && t.log == s.log + [SuccessRecorded(key.session)]
  }

  /** The text is blank or silent, or is the receipt itself. */
  predicate Unexplained(p: Patterns, text: string, tools: seq<string>) {
    Trim(text) == "" || IsSilent(text) || text == Receipt(p, "", tools)
  }

  lemma SuccessEffect(p: Patterns, b: State, key: Key, result: TurnResult)
    requires key.session in b.sessions && key in b.runs && result.outcome == TurnDone
    ensures var c, tools := b.RecordBeat(p, key, result), b.ToolsOf(key.session, result);
      var x, y, wrote := b.sessions[key.session], c.sessions[key.session], Wrote(p, tools);
      && c.runs == b.runs[key := RunRow(if IsSilent(result.text) then Silent else Visible, |tools|, wrote)]
      && y == x.(failureCount := 0, paused := x.paused || (wrote && result.text == Receipt(p, "", tools)))
      && OthersUntouched(b, c, key) && c.unsettled == b.unsettled && c.log == b.log + [SuccessRecorded(key.session)]
  {
  }

  /** Rewriting makes a text the receipt if and only if it was unexplained. */
  lemma RewritingExplains(p: Patterns, s: State, id: SessionId, result: TurnResult)
    requires id in s.sessions && result.outcome == TurnDone
    ensures var tools, text := s.ToolsOf(id, result), s.Protected(p, id, result).text;
      && (Wrote(p, tools) ==> (text == Receipt(p, "", tools) <==> Unexplained(p, result.text, tools)))
      && (Wrote(p, tools) ==> !IsSilent(text))
      && (!Wrote(p, tools) ==> text == result.text)
  {
    var tools := s.ToolsOf(id, result);
    if Trim(result.text) == "" || IsSilent(result.text) {
      ReceiptSpeaks(p, result.text, tools);
    } else {
      HeartbeatReceipts.SpeakingTextKept(p, result.text, tools);
    }
  }

  lemma RewrittenRows(p: Patterns, s: State, key: Key, result: TurnResult)
    requires key in s.unsettled && key.session in s.sessions
    ensures var b := s.Rewritten(p, key, result);
      b.sessions == s.sessions && b.runs == s.runs && b.log == s.log && b.unsettled == s.unsettled - {key}
    ensures s.Protected(p, key.session, result).outcome == result.outcome
  {
  }

  /** A finished run is recorded with its tools. */
  lemma SuccessSettled(p: Patterns, s: State, key: Key, result: TurnResult)
    requires Reachable(p, s) && Enabled(s, Completion(key, result)) && result.outcome == TurnDone
    ensures var t := Step(p, s, Completion(key, result));
      && OthersUntouched(s, t, key) && t.unsettled == s.unsettled - {key}
      && Succeeds(p, s, t, key, result.text, s.ToolsOf(key.session, result))
  {
    ReachableInv(p, s);
    assert Begun(s, key);
    CompletionSession(p, s, key, result);
    RewrittenRows(p, s, key, result);
    SuccessEffect(p, s.Rewritten(p, key, result), key, s.Protected(p, key.session, result));
    RewritingExplains(p, s, key.session, result);
  }

  /** A settlement that fails, at whatever stage, leaves the run failed and the session paused. */
  lemma FailedSettlement(p: Patterns, s: State, key: Key, result: TurnResult, stage: Stage)
    requires Reachable(p, s) && Enabled(s, SettlementFailure(key, result, stage))
    ensures var t := Step(p, s, SettlementFailure(key, result, stage));
      key in t.runs && t.runs[key].outcome == Failed && Halted(t, key.session) && key !in t.unsettled
  {
    ReachableInv(p, s);
    SettleKeeps(p, s, key, result, stage);
    UnsettledIsRecordable(s, key);
    SettledIsNotWaitedFor(p, s, key, result, stage);
    GivenUp(s.Settle(p, key, result, stage), key, s.sessions[key.session].contact);
  }

  /** What it had recorded, rewritten or pruned by then stays so. */
  lemma FailedSettlementKeepsRecords(p: Patterns, s: State, key: Key, result: TurnResult, stage: Stage)
    requires Enabled(s, SettlementFailure(key, result, stage))
    ensures var t, whole := Step(p, s, SettlementFailure(key, result, stage)), Step(p, s, Completion(key, result));
      && t.log == (if stage == Nothing || stage == Rewritten then s.log else whole.log)
      && (stage == Nothing ==> t.messages == s.messages) && (stage == Finished ==> t.messages == whole.messages)
      && (stage != Finished ==> t.messages.Keys == s.messages.Keys)
  {
    SettledUpTo(p, s, key, result, stage);
    var c := s.Settle(p, key, result, stage);
    assert Step(p, s, SettlementFailure(key, result, stage)) == c.GiveUp(key).LookAt(s.sessions[key.session].contact);
  }

  /** How much of the log and of the messages each stage has written. */
  lemma SettledUpTo(p: Patterns, s: State, key: Key, result: TurnResult, stage: Stage)
    requires key in s.unsettled && key.session in s.sessions
    ensures var c, whole := s.Settle(p, key, result, stage), s.Complete(p, key, result);
      && c.log == (if stage == Nothing || stage == Rewritten then s.log else whole.log)
      && (stage == Nothing ==> c.messages == s.messages) && (stage == Finished ==> c.messages == whole.messages)
      && (stage != Finished ==> c.messages.Keys == s.messages.Keys)
  {
  }

  lemma SettledIsNotWaitedFor(p: Patterns, s: State, key: Key, result: TurnResult, stage: Stage)
    requires key in s.unsettled && key.session in s.sessions
    ensures s.Settle(p, key, result, stage).unsettled == s.unsettled - {key}
  {
  }

  lemma GivenUp(c: State, key: Key, contact: string)
    requires key in c.runs && key.session in c.sessions && !InFlight(c, key.session)
    ensures var t := c.GiveUp(key).LookAt(contact);
      && key in t.runs && t.runs[key].outcome == Failed && Halted(t, key.session)
      && t.unsettled == c.unsettled && t.log == c.log && t.messages == c.messages
  {
  }
}
