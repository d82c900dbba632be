/** server/src/heartbeat/companionHeartbeat.ts: the class, over its database rows. */
module CompanionHeartbeats {
  import opened Options
  import opened HeartbeatPolicy
  import opened HeartbeatProtocol
  import opened HeartbeatInvariant
  import opened HeartbeatTheorems

  class CompanionHeartbeat {
    const patterns: Patterns
    var sessions: map<SessionId, Session>
    var runs: map<Key, RunRow>
    var messages: map<nat, Message>
    var nextMessage: nat
    /** The completions waited for. */
    var unsettled: map<Key, nat>
    var now: int
    ghost var log: seq<Act>

    ghost function View(): State
      reads this
    {
      State(sessions, runs, messages, nextMessage, unsettled, now, log)
    }

    /** Some run of the ledger leads to where the object is. */
    ghost predicate Valid()
      reads this
    {
      Reachable(patterns, View())
    }

    constructor (patterns: Patterns)
      ensures Valid() && View() == INITIAL && this.patterns == patterns
    {
      this.patterns := patterns;
      sessions, runs, messages, nextMessage := map[], map[], map[], 1;
      unsettled, now, log := map[], 0, [];
      new;
      InitialReachable(patterns);
    }

    /** The newest session of a contact that is not stopped. */
    method ActiveRow(contact: string) returns (row: Option<SessionId>)
      ensures row.Some? ==> row.value in sessions && sessions[row.value].ActiveFor(contact)
      ensures row.None? ==> forall id :: id in sessions ==> !sessions[id].ActiveFor(contact)
      ensures row.Some? ==> forall id :: id in sessions && sessions[id].ActiveFor(contact) ==>
        sessions[id].startedAt <= sessions[row.value].startedAt
    {
      row := None;
      var left := sessions.Keys;
      while left != {}
        invariant left <= sessions.Keys
        invariant row.Some? ==> row.value in sessions && sessions[row.value].ActiveFor(contact)
        invariant row.None? ==> forall id :: id in sessions.Keys - left ==> !sessions[id].ActiveFor(contact)
        invariant row.Some? ==> forall id :: id in sessions.Keys - left && sessions[id].ActiveFor(contact) ==>
          sessions[id].startedAt <= sessions[row.value].startedAt
        decreases left
      {
        var id :| id in left;
        left := left - {id};
        if sessions[id].contact == contact && !sessions[id].stopped
           && (row.None? || sessions[row.value].startedAt <= sessions[id].startedAt) {
          row := Some(id);
        }
      }
    }

    method StopSession(contact: string)
      requires Inv(View())
      modifies this`sessions
      ensures View() == old(View()).StopSession(contact)
      ensures Inv(View()) && (old(Valid()) ==> Valid())
    {
      StopKeepsInv(patterns, View(), contact);
      var row := ActiveRow(contact);
      ActiveRowDecides(View(), contact, row);
      if row.Some? {
        sessions := sessions[row.value := sessions[row.value].(stopped := true)];
      }
    }

    method Status(contact: string) returns (active: bool)
      requires Inv(View())
      modifies this`sessions
      ensures View() == old(View()).LookAt(contact) && active == View().Active(contact)
      ensures Inv(View()) && (old(Valid()) ==> Valid())
    {
      LookKeepsInv(patterns, View(), contact);
      var row := ActiveRow(contact);
      ActiveRowDecides(View(), contact, row);
      if row.None? {
        return false;
      }
      if sessions[row.value].Expired(now) {
        StopSession(contact);
        return false;
      }
      active := true;
    }

    method StartSession(contact: string, minutes: Option<int>, newId: SessionId,
                        workflowOnly: bool, enabled: bool, sample: real) returns (error: Option<StartError>)
      requires Valid() && newId !in sessions && 0.0 <= sample < 1.0
      modifies this`sessions
      ensures (View(), error) == old(View()).StartSession(contact, minutes, newId, workflowOnly, enabled, sample)
      ensures Valid()
    {
      ReachableInv(patterns, View());
      StepReachable(patterns, View(), StartSessionCall(contact, minutes, newId, workflowOnly, enabled, sample));
      if workflowOnly {
        return Some(WorkflowOnly);
      }
      if minutes.Some? && (minutes.value < 5 || minutes.value > 480) {
        return Some(BadMinutes);
      }
      if !enabled {
        return Some(Disabled);
      }
      var active := Status(contact);
      if active {
        return Some(AlreadyActive);
      }
      var interval := RandomIntervalMinutes(sample);
      var expiresAt := if minutes.None? then None else Some(now + minutes.value * MINUTE_MS);
      sessions := sessions[newId := Session(contact, now, expiresAt, interval, 0, None, false, 0, false)];
      error := None;
    }

    method TickIfDue(id: SessionId, around: Surroundings)
      requires Valid() && Enabled(View(), TickPass(id, around))
      modifies this
      ensures View() == old(View()).Tick(id, around)
      ensures Valid()
    {
      ReachableInv(patterns, View());
      StepReachable(patterns, View(), TickPass(id, around));
      if around.workflowOnly {
        return;
      }
      var row := sessions[id];
      if row.expiresAt.Some? && row.expiresAt.value <= now {
        StopSession(row.contact);
        return;
      }
      if row.paused {
        return;
      }
      var baseline := if row.lastTickAt.Some? then row.lastTickAt.value else row.startedAt;
      if now - baseline < row.intervalMinutes * MINUTE_MS {
        return;
      }
      OpenTick(id, around);
    }

    /** A due tick: its run row and counters, then what comes of it. */
    method OpenTick(id: SessionId, around: Surroundings)
      requires id in sessions && 0.0 <= around.sample < 1.0 && forall m :: m in messages ==> m < nextMessage
      modifies this
      ensures View() == old(View()).BeginTick(id, around.sample).Dispatch(id, around, old(View()).Idles(id, around))
    {
      var row := sessions[id];
      var tick := row.tickCount + 1;
      var key := Key(id, tick);
      if key !in runs {
        runs := runs[key := RunRow(Skipped, 0, false)];
      }
      sessions := sessions[id := row.(tickCount := tick, lastTickAt := Some(now),
          intervalMinutes := RandomIntervalMinutes(around.sample))];
      log := log + [Ticked(id, now)];
      Dispatch(id, row.failureCount, around);
    }

    /** The second half of a tick: skip it, or enqueue its prompt. */
    method Dispatch(id: SessionId, failures: nat, around: Surroundings)
      requires id in sessions && failures == sessions[id].failureCount && nextMessage !in messages
      modifies this
      ensures View() == old(View()).Dispatch(id, around, old(View()).Idles(id, around))
    {
      var key := Key(id, sessions[id].tickCount);
      var state := around.runtime;
      if state == InError && failures > 0 && around.contactKnown && around.recovers {
        state := Idle;
      }
      if state != Idle {
        if state == InError {
          sessions := sessions[id := sessions[id].(paused := true)];
        }
        return;
      }
      if around.userPresent {
        return;
      }
      var inserted := forall m :: m in messages ==> messages[m].key != Some(key);
      if !inserted {
        return;
      }
      var userMessageId := nextMessage;
      messages := messages[userMessageId := Message(sessions[id].contact, None, false, "", Some(key))];
      nextMessage := nextMessage + 1;
      if !around.contactKnown || around.queueFull {
        HardDelete({userMessageId});
        return;
      }
      if key in runs {
        runs := runs[key := runs[key].(outcome := Running)];
      }
      unsettled := unsettled[key := userMessageId];
      log := log + [Dispatched(id, key.tick)];
    }

    method HardDelete(ids: set<nat>)
      modifies this`messages
      ensures messages == old(messages) - ids
    {
      messages := messages - ids;
    }

    /** The continuation of a dispatched turn. */
    method Complete(key: Key, turn: TurnResult)
      requires Valid() && Enabled(View(), Completion(key, turn))
      modifies this
      ensures View() == old(View()).Complete(patterns, key, turn)
      ensures Valid()
    {
      ReachableInv(patterns, View());
      StepReachable(patterns, View(), Completion(key, turn));
      var contact := sessions[key.session].contact;
      SettleKeeps(patterns, View(), key, turn, Finished);
      Settle(key, turn);
      var _ := Status(contact);
    }

    method Settle(key: Key, turn: TurnResult)
      requires key in unsettled && key.session in sessions
      modifies this`unsettled, this`messages, this`runs, this`sessions, this`log
      ensures View() == old(View()).Settle(patterns, key, turn, Finished)
    {
      var prompt := unsettled[key];
      var settled := Rewrite(key, turn);
      RecordBeat(key, settled);
      SettleBeat(key.session, prompt, settled);
    }

    /** Its first part: a possible write that would go unmentioned becomes a receipt. */
    method Rewrite(key: Key, turn: TurnResult) returns (settled: TurnResult)
      requires key in unsettled && key.session in sessions
      modifies this`unsettled, this`messages
      ensures View() == old(View()).Rewritten(patterns, key, turn)
      ensures settled == old(View()).Protected(patterns, key.session, turn)
    {
      settled := turn;
      if turn.outcome == TurnDone && turn.messageId.Some? && turn.messageId.value in messages {
        var m := turn.messageId.value;
        var reply := messages[m];
        var contact := sessions[key.session].contact;
        var calls := if reply.turn.Some? then ToolCalls(messages, contact, reply.turn.value, nextMessage) else [];
        var text := Receipt(patterns, turn.text, calls);
        if text != turn.text {
          messages := messages[m := reply.(content := text)];
          settled := turn.(text := text);
        }
      }
      unsettled := unsettled - {key};
    }

    method RecordBeat(key: Key, result: TurnResult)
      requires key.session in sessions
      modifies this`runs, this`sessions, this`log
      ensures View() == old(View()).RecordBeat(patterns, key, result)
    {
      var session := sessions[key.session];
      var tools := [];
      if result.messageId.Some? && result.messageId.value in messages && messages[result.messageId.value].turn.Some? {
        tools := ToolCalls(messages, session.contact, messages[result.messageId.value].turn.value, nextMessage);
      }
      var wrote := Wrote(patterns, tools);
      var outcome := match result.outcome
        case TurnDone => if IsSilent(result.text) then Silent else Visible
        case TurnError => Failed
        case TurnInterrupted => Interrupted;
      if key in runs {
        runs := runs[key := RunRow(outcome, |tools|, wrote)];
      }
      if result.outcome == TurnDone {
        session := session.(failureCount := 0);
        if wrote && result.text == Receipt(patterns, "", tools) {
          session := session.(paused := true);
        }
        log := log + [SuccessRecorded(key.session)];
      } else {
        var failures := session.failureCount + 1;
        var retry := result.outcome == TurnError && !wrote && failures < 3 && patterns.isRetryable(result.text);
        session := session.(failureCount := failures, paused := !retry, intervalMinutes := BackoffMinutes(failures),
            lastTickAt := Some(now));
        log := log + [FailureRecorded(key.session, failures, now, wrote)];
      }
      sessions := sessions[key.session := session];
    }

    method SettleBeat(id: SessionId, prompt: nat, result: TurnResult)
      requires id in sessions
      modifies this`messages
      ensures View() == old(View()).SettleBeat(id, prompt, result)
    {
      if result.outcome != TurnDone || !IsSilent(result.text) {
        return;
      }
      var contact := sessions[id].contact;
      var ids := {prompt};
      if result.messageId.Some? && result.messageId.value in messages {
        var reply := messages[result.messageId.value];
        if reply.turn.Some? {
          ids := ids + set m | m in messages && messages[m].contact == contact && messages[m].turn == reply.turn;
        } else {
          ids := ids + {result.messageId.value};
        }
      }
      HardDelete(ids);
      assert View().messages == old(View()).SettleBeat(id, prompt, result).messages;
    }

    /** The continuation of a dispatched turn when something in it threw, after some stage. */
    method CompleteFailing(key: Key, turn: TurnResult, stage: Stage)
      requires Valid() && Enabled(View(), SettlementFailure(key, turn, stage))
      modifies this
      ensures View() == old(View()).SettlementFailed(patterns, key, turn, stage)
      ensures Valid()
    {
      var contact := sessions[key.session].contact;
      ReachableInv(patterns, View());
      StepReachable(patterns, View(), SettlementFailure(key, turn, stage));
      GiveUpKeepsInv(patterns, View(), key, turn, stage);
      SettleUpTo(key, turn, stage);
      GiveUp(key);
      var _ := Status(contact);
    }

    method SettleUpTo(key: Key, turn: TurnResult, stage: Stage)
      requires key in unsettled && key.session in sessions
      modifies this`unsettled, this`messages, this`runs, this`sessions, this`log
      ensures View() == old(View()).Settle(patterns, key, turn, stage)
    {
      if stage == Nothing {
        unsettled := unsettled - {key};
        return;
      }
      if stage == Finished {
        Settle(key, turn);
        return;
      }
      var settled := Rewrite(key, turn);
      if stage == Recorded {
        RecordBeat(key, settled);
      }
    }

    method GiveUp(key: Key)
      requires key.session in sessions
      modifies this`runs, this`sessions
      ensures View() == old(View()).GiveUp(key)
    {
      if key in runs {
        runs := runs[key := runs[key].(outcome := Failed)];
      }
      sessions := sessions[key.session := sessions[key.session].(paused := true)];
    }

    /** The durable part of `start`; `newProcess` when the gateway itself was restarted. */
    method Start(newProcess: bool)
      requires Valid()
      modifies this
      ensures View() == old(View()).Restart(newProcess)
      ensures Valid()
    {
      StepReachable(patterns, View(), HeartbeatProtocol.Start(newProcess));
      InterruptRunning(newProcess);
    }

    method InterruptRunning(newProcess: bool)
      modifies this`sessions, this`runs, this`unsettled
      ensures View() == old(View()).Restart(newProcess)
    {
      var hanging := set key | key in runs && runs[key].outcome.Running? :: key.session;
      sessions := map id | id in sessions ::
        if !sessions[id].stopped && id in hanging then sessions[id].(paused := true) else sessions[id];
      runs := map key | key in runs ::
        if runs[key].outcome.Running? then runs[key].(outcome := Interrupted) else runs[key];
      if newProcess {
        unsettled := map[];
      }
      assert View().sessions == old(View()).Restart(newProcess).sessions;
    }

    // ---- what others do ----

    method WriteMessage(message: Message)
      requires Valid() && message.key.None?
      modifies this`messages, this`nextMessage
      ensures View() == Step(patterns, old(View()), MessageWritten(message)) && Valid()
    {
      StepReachable(patterns, View(), MessageWritten(message));
      messages := messages[nextMessage := message];
      nextMessage := nextMessage + 1;
    }

    method DeleteMessage(m: nat)
      requires Valid()
      modifies this`messages
      ensures View() == Step(patterns, old(View()), MessageDeleted(m)) && Valid()
    {
      StepReachable(patterns, View(), MessageDeleted(m));
      messages := messages - {m};
    }

    method Elapse(to: int)
      requires Valid() && now <= to
      modifies this`now
      ensures View() == Step(patterns, old(View()), ClockAdvance(to)) && Valid()
    {
      StepReachable(patterns, View(), ClockAdvance(to));
      now := to;
    }
  }

  lemma StopKeepsInv(p: Patterns, s: State, contact: string)
    requires Inv(s)
    ensures Inv(s.StopSession(contact)) && (Reachable(p, s) ==> Reachable(p, s.StopSession(contact)))
  {
    StopsCalm(s, contact);
    CalmsKeeps(s, s.StopSession(contact));
    if Reachable(p, s) {
      StepReachable(p, s, StopSessionCall(contact));
    }
  }

  lemma LookKeepsInv(p: Patterns, s: State, contact: string)
    requires Inv(s)
    ensures Inv(s.LookAt(contact)) && (Reachable(p, s) ==> Reachable(p, s.LookAt(contact)))
  {
    StopsCalm(s, contact);
    CalmsKeeps(s, s.LookAt(contact));
    if Reachable(p, s) {
      StepReachable(p, s, StatusCall(contact));
    }
  }

  lemma GiveUpKeepsInv(p: Patterns, s: State, key: Key, result: TurnResult, stage: Stage)
    requires Inv(s) && key in s.unsettled && key.session in s.sessions
    ensures Inv(s.Settle(p, key, result, stage).GiveUp(key))
  {
    SettleKeeps(p, s, key, result, stage);
    var t := s.Settle(p, key, result, stage);
    GiveUpCalms(t, key);
    CalmsKeeps(t, t.GiveUp(key));
  }

  predicate IsActiveRow(s: State, contact: string, row: Option<SessionId>) {
    if row.Some? then ActiveOf(s, contact, row.value)
    else forall id :: id in s.sessions ==> !s.sessions[id].ActiveFor(contact)
  }

  /** The one row found decides: stopping it stops all there is to stop, and only its expiry matters. */
  lemma ActiveRowDecides(s: State, contact: string, row: Option<SessionId>)
    requires Inv(s) && IsActiveRow(s, contact, row)
    ensures s.StopSession(contact) ==
      if row.Some? then s.(sessions := s.sessions[row.value := s.sessions[row.value].(stopped := true)]) else s
    ensures s.LookAt(contact) == if row.Some? && s.sessions[row.value].Expired(s.now) then s.StopSession(contact) else s
    ensures s.LookAt(contact).Active(contact) <==> row.Some? && !s.sessions[row.value].Expired(s.now)
  {
    if row.Some? {
      OnlyActive(s, row.value);
      assert s.StopSession(contact).sessions == s.sessions[row.value := s.sessions[row.value].(stopped := true)];
    } else {
      assert s.StopSession(contact).sessions == s.sessions;
    }
    if row.Some? && s.sessions[row.value].Expired(s.now) {
      assert s.LookAt(contact).sessions == s.StopSession(contact).sessions;
    } else {
      assert s.LookAt(contact).sessions == s.sessions;
    }
  }

  /** No other session of the contact is unstopped. */
  lemma OnlyActive(s: State, id: SessionId)
    requires Inv(s) && Unstopped(s, id)
    ensures forall other :: other in s.sessions ==> (ActiveOf(s, s.sessions[id].contact, other) ==> other == id)
  {
    forall other | ActiveOf(s, s.sessions[id].contact, other) ensures other == id {
      assert Unstopped(s, other) && SameContact(s, other, id);
    }
  }

  predicate ActiveOf(s: State, contact: string, id: SessionId) {
    id in s.sessions && s.sessions[id].ActiveFor(contact)
  }

  /** What the object keeps from its construction on, through any calls: at most one unstopped session a contact, a
      bounded failure count, an interval of 4 to 30 minutes, and a ledger that adds up. */
  lemma ObjectPromises(h: CompanionHeartbeat, id: SessionId)
    requires h.Valid() && id in h.sessions
    ensures !h.sessions[id].stopped ==> forall other :: ActiveOf(h.View(), h.sessions[id].contact, other) ==>
        other == id
    ensures 4 <= h.sessions[id].intervalMinutes <= 30 && h.sessions[id].failureCount <= 3
    ensures h.sessions[id].failureCount == 3 ==> Halted(h.View(), id)
    ensures h.sessions[id].tickCount == StatsOf(h.View(), id).skipped + StatsOf(h.View(), id).dispatched
  {
    var s := h.View();
    forall other | ActiveOf(s, s.sessions[id].contact, other) && !s.sessions[id].stopped ensures other == id {
      OneActiveSession(h.patterns, s, other, id);
    }
    FailureAndIntervalBounds(h.patterns, s, id);
    LedgerConservation(h.patterns, s, id);
  }
}
