/** What each event does that a reader of the queues and a bystander of the processes can see. Nothing here
    is said in terms of the step functions. */
module GrokEffects {
  import opened Options
  import opened TurnEvents
  import opened GrokProtocol

  // ---- observations ----

  /** Queue q gets these events and no other queue changes. */
  predicate Delivers(s: State, t: State, q: nat, events: seq<TurnEvent>) {
    && q < |s.queues| == |t.queues|
    && t.queues[q].events == s.queues[q].events + events
    && forall r :: 0 <= r < |s.queues| && r != q ==> t.queues[r] == s.queues[r]
  }

  /** The turn is over, after this event and without another process. */
  predicate EndsWith(s: State, t: State, q: nat, ev: TurnEvent) {
    Delivers(s, t, q, [ev]) && t.turn.None? && t.queues[q].ended && t.queues[q].spawns == s.queues[q].spawns
  }

  /** The turn goes on in the same process. */
  predicate Stays(s: State, t: State, q: nat, events: seq<TurnEvent>) {
    && Delivers(s, t, q, events) && t.turn == Some(q) && !t.queues[q].ended
    && t.queues[q].spawns == s.queues[q].spawns && t.queues[q].before == s.queues[q].before
    && t.attempt.flag == s.attempt.flag && t.attempt.id == s.attempt.id
  }

  /** The process has the flag and id that the backend holds, and nothing is left of the last one. */
  predicate Spawned(t: State) {
    t.attempt == Attempt(t.sessionFlag, t.sessionId, "", None, false, [], map[], None)
  }

  /** One more process is spawned for the turn. */
  predicate Spawns(s: State, t: State, q: nat)
    requires q < |s.queues| == |t.queues|
  {
    t.turn == Some(q) && !t.queues[q].ended && t.queues[q].spawns == s.queues[q].spawns + 1 && Spawned(t)
  }

  predicate Open(s: State, q: nat) {
    s.turn == Some(q) && q < |s.queues| && !s.queues[q].ended
  }

  /** What the present process has streamed of the open turn. */
  function Streamed(s: State): string {
    if s.turn.Some? && s.turn.value < |s.queues| && s.queues[s.turn.value].before <= |s.queues[s.turn.value].events|
    then DeltaText(s.queues[s.turn.value].events[s.queues[s.turn.value].before..]) else ""
  }

  lemma ReachableOpen(env: Env, s: State)
    requires Reachable(env, s) && s.turn.Some?
    ensures Open(s, s.turn.value) && s.attempt.accText == Streamed(s)
    ensures s.turnTimeouts.Some? ==> s.turnTimeouts == s.turn
  {
    var run :| IsRun(env, run) && run[|run| - 1] == s;
    RunKeeps(env, run);
  }

  lemma EndEffect(s: State, q: nat, ev: TurnEvent)
    requires Open(s, q)
    ensures EndsWith(s, s.Emit(ev).FinishTurn(), q, ev)
    ensures s.Emit(ev).FinishTurn().sessionFlag == s.sessionFlag && s.Emit(ev).FinishTurn().sessionId == s.sessionId
  {
  }

  // ---- the exit of a process ----

  /** The CLI complained about the session, for the first time in this turn, which nobody interrupted. */
  predicate MayRetry(env: Env, s: State, code: Option<int>) {
    !s.attempt.interrupted && code != Some(0) && !s.retried && env.mentionsSession(s.attempt.stderrTail)
  }

  predicate AbnormalStop(env: Env, s: State) {
    s.attempt.stopReason.Some? && env.abnormalStop(s.attempt.stopReason.value)
  }

  /** Done, with the text its process streamed, if and only if the reported stop reason is not abnormal. */
  predicate Terminates(env: Env, s: State, ev: TurnEvent) {
    && (ev.Done? || ev.Error?)
    && (ev.Done? <==> !AbnormalStop(env, s))
    && (ev.Done? ==> ev.finalText == Streamed(s))
    && (ev.Error? ==> !ev.fatal)
  }

  lemma CleanExitEffect(env: Env, s: State, newId: string, q: nat) returns (ev: TurnEvent)
    requires Open(s, q) && !s.attempt.interrupted && s.attempt.accText == Streamed(s)
    ensures var t := s.HandleExit(env, Some(0), newId);
      EndsWith(s, t, q, ev) && Terminates(env, s, ev) && t.sessionFlag == Resume && t.sessionId == s.sessionId
  {
    ev := if AbnormalStop(env, s) then Error("turn not completed", false) else Done(s.attempt.accText);
    var s1 := s.(sessionFlag := Resume);
    EndEffect(s1, q, ev);
    assert s.HandleExit(env, Some(0), newId) == s1.Emit(ev).FinishTurn();
  }

  /** Exit 0 of a turn nobody interrupted appends one event, done if and only if the reported stop reason is not
      abnormal. From then on the session is resumed. */
  lemma CleanExitEndsTurn(env: Env, s: State, newId: string) returns (ev: TurnEvent)
    requires Reachable(env, s) && s.turn.Some? && !s.attempt.interrupted
    ensures var t := Step(env, s, Exit(Some(0), newId));
      && EndsWith(s, t, s.turn.value, ev) && Terminates(env, s, ev)
      && t.sessionFlag == Resume && t.sessionId == s.sessionId
  {
    ReachableOpen(env, s);
    ev := CleanExitEffect(env, s, newId, s.turn.value);
  }

  lemma FailedExitEffect(env: Env, s: State, code: Option<int>, newId: string, q: nat) returns (ev: TurnEvent)
    requires Open(s, q) && !MayRetry(env, s, code) && (s.attempt.interrupted || code != Some(0))
    ensures var t := s.HandleExit(env, code, newId);
      && EndsWith(s, t, q, ev) && ev.Error? && !ev.fatal
      && t.sessionFlag == s.sessionFlag && t.sessionId == s.sessionId
  {
    ev := Error(if s.attempt.interrupted then "turn interrupted" else "grok exited abnormally", false);
    EndEffect(s, q, ev);
    assert s.HandleExit(env, code, newId) == s.Emit(ev).FinishTurn();
  }

  /** An interrupted turn, or a nonzero exit that is not retried, ends in an error that is not fatal, and the
      session stays as it is. */
  lemma FailedExitEndsTurn(env: Env, s: State, code: Option<int>, newId: string) returns (ev: TurnEvent)
    requires Reachable(env, s) && s.turn.Some? && !MayRetry(env, s, code) && (s.attempt.interrupted || code != Some(0))
    ensures var t := Step(env, s, Exit(code, newId));
      && EndsWith(s, t, s.turn.value, ev) && ev.Error? && !ev.fatal
      && t.sessionFlag == s.sessionFlag && t.sessionId == s.sessionId
  {
    ReachableOpen(env, s);
    ev := FailedExitEffect(env, s, code, newId, s.turn.value);
  }

  /** A complaint about the session is met by one more process with the other flag: a session that could not
      be created is resumed, one that could not be resumed is created anew under a new id, which is
      announced. */
  lemma ComplaintIsRetried(env: Env, s: State, code: Option<int>, newId: string)
    requires Reachable(env, s) && s.turn.Some? && MayRetry(env, s, code)
    ensures var q, t := s.turn.value, Step(env, s, Exit(code, newId));
      && t.retried && t.sessionFlag != s.sessionFlag
      && Delivers(s, t, q, if s.sessionFlag.Resume? then [Session(newId)] else []) && Spawns(s, t, q)
      && t.sessionId == (if s.sessionFlag.Resume? then Some(newId) else s.sessionId)
      && t.queues[q].before == |t.queues[q].events|
  {
    ReachableOpen(env, s);
  }

  /** Between turns the exit of a process changes nothing. */
  lemma IdleExitIgnored(env: Env, s: State, code: Option<int>, newId: string)
    requires s.turn.None?
    ensures Step(env, s, Exit(code, newId)) == s
  {
  }

  // ---- the lines of a process ----

  /** Thoughts and text are delivered as they come. */
  lemma StreamDelivered(env: Env, s: State, data: string)
    requires Reachable(env, s) && s.turn.Some? && data != ""
    ensures Stays(s, Step(env, s, LineRead(Text(data))), s.turn.value, [Delta(data)])
    ensures Stays(s, Step(env, s, LineRead(Thought(data))), s.turn.value, [Thinking(data)])
  {
    ReachableOpen(env, s);
  }

  /** A tool call is announced, and remembered under its id and as the latest. */
  lemma ToolAnnounced(env: Env, s: State, id: Option<string>, name: Option<string>)
    requires Reachable(env, s) && s.turn.Some?
    ensures var t := Step(env, s, LineRead(ToolCall(id, name)));
      exists tool :: (name.Some? ==> tool == name.value)
        && Stays(s, t, s.turn.value, [ToolUse(tool)]) && t.attempt.pendingTool == Some(tool)
        && (id.Some? ==> id.value in t.attempt.toolNames && t.attempt.toolNames[id.value] == tool)
  {
    ReachableOpen(env, s);
    var tool := if name.Some? then name.value else "tool";
    assert Stays(s, Step(env, s, LineRead(ToolCall(id, name))), s.turn.value, [ToolUse(tool)]);
  }

  /** The end of a tool gives its result, under the name remembered for its id, or else the latest; good if
      and only if completed. */
  lemma ToolFinished(env: Env, s: State, id: Option<string>, status: ToolStatus)
    requires Reachable(env, s) && s.turn.Some?
    ensures var t := Step(env, s, LineRead(ToolCallUpdate(id, status)));
      && (status.Running? ==> t == s)
      && (!status.Running? ==> t.attempt == s.attempt.(pendingTool := None))
      && (!status.Running? && id.Some? && id.value in s.attempt.toolNames ==>
            Stays(s, t, s.turn.value, [ToolResult(s.attempt.toolNames[id.value], status.Completed?)]))
      && (!status.Running? && (id.None? || id.value !in s.attempt.toolNames) && s.attempt.pendingTool.Some? ==>
            Stays(s, t, s.turn.value, [ToolResult(s.attempt.pendingTool.value, status.Completed?)]))
  {
    ReachableOpen(env, s);
  }

  /** The end line tells the stop reason; a session id in it that is a UUID and new is taken over and announced. */
  lemma EndLineRead(env: Env, s: State, reason: Option<string>, id: Option<string>)
    requires Reachable(env, s) && s.turn.Some?
    ensures var t := Step(env, s, LineRead(End(reason, id)));
      && t.attempt.stopReason == reason
      && (id.Some? && env.isUuid(id.value) && id != s.sessionId ==>
            t.sessionId == id && Stays(s, t, s.turn.value, [Session(id.value)]))
      && (id.None? || !env.isUuid(id.value) || id == s.sessionId ==>
            t.sessionId == s.sessionId && Stays(s, t, s.turn.value, []))
  {
    ReachableOpen(env, s);
  }

  /** Of the complaints of a process the last twenty pieces are kept. */
  lemma ComplaintsKept(env: Env, s: State, text: string)
    requires |s.attempt.stderrTail| <= 20
    ensures var tail := Step(env, s, StderrRead(text)).attempt.stderrTail;
      && 0 < |tail| <= 20 && tail[|tail| - 1] == text
      && (|tail| == |s.attempt.stderrTail| + 1 || |tail| == 20)
      && tail[..|tail| - 1] == s.attempt.stderrTail[|s.attempt.stderrTail| + 1 - |tail|..]
  {
  }

  // ---- a turn begins, or is cut short ----

  /** A turn opens a queue of its own, in which a session not yet announced is announced, and spawns its
      first process; without a readable image it ends there and then. */
  lemma TurnOpens(env: Env, s: State, readable: bool)
    requires s.turn.None?
    ensures var q, t := |s.queues|, Step(env, s, SendTurnCall(readable));
      var opening := if s.sessionId.Some? && !s.sessionAnnounced then [Session(s.sessionId.value)] else [];
      && |t.queues| == q + 1 && t.queues[..q] == s.queues
      && t.sessionFlag == s.sessionFlag && t.sessionId == s.sessionId && (s.sessionId.Some? ==> t.sessionAnnounced)
      && (readable ==>
            && t.turn == Some(q) && t.turnTimeouts == Some(q) && !t.retried && Spawned(t)
            && t.queues[q] == Queue(opening, false, 1, |opening|))
      && (!readable ==>
            && t.turn.None? && t.queues[q].ended && t.queues[q].spawns == 0 && |t.queues[q].events| == |opening| + 1
            && t.queues[q].events[..|opening|] == opening && t.queues[q].events[|opening|].Error?
            && t.attempt == Attempt(s.attempt.flag, s.attempt.id, "", None, false, [], map[], None))
  {
  }

  /** A timeout ends the turn with an error. */
  lemma TimeoutEndsTurn(env: Env, s: State, message: string)
    requires Reachable(env, s) && s.turn.Some? && s.turnTimeouts.Some?
    ensures EndsWith(s, Step(env, s, TurnTimeout(message)), s.turn.value, Error(message, false))
    ensures Step(env, s, TurnTimeout(message)).attempt == s.attempt.(interrupted := true)
  {
    ReachableOpen(env, s);
    EndEffect(s.Interrupt(), s.turn.value, Error(message, false));
  }

  /** An interrupted turn ends, with its process, in an error and not in a retry. */
  lemma InterruptedTurnEnds(env: Env, s: State, code: Option<int>, newId: string) returns (ev: TurnEvent)
    requires Reachable(env, s) && s.turn.Some?
    ensures var s1 := Step(env, s, InterruptCall);
      EndsWith(s1, Step(env, s1, Exit(code, newId)), s.turn.value, ev) && ev.Error?
  {
    StepReachable(env, s, InterruptCall);
    ev := FailedExitEndsTurn(env, Step(env, s, InterruptCall), code, newId);
  }

  /** A token that is a UUID is resumed; otherwise a session with the new id is created. Either is announced
      with the next turn. */
  lemma StartChooses(env: Env, s: State, token: Option<string>, newId: string)
    ensures var t := Step(env, s, StartCall(token, newId));
      && !t.sessionAnnounced && t.queues == s.queues && t.turn == s.turn
      && (token.Some? && env.isUuid(token.value) ==> t.sessionId == token && t.sessionFlag == Resume)
      && (token.None? || !env.isUuid(token.value) ==> t.sessionId == Some(newId) && t.sessionFlag == Create)
  {
  }

  /** Stopping only says that the backend is no longer alive; a turn that is open goes on to its end. */
  lemma StopEndsNothing(env: Env, s: State)
    ensures Step(env, s, StopCall) == s.(started := false)
  {
  }
}
