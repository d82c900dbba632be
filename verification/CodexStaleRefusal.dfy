/** A refusal that arrives late: the continuation of an earlier turn's `turn/start` clears the flag of the
    turn that is open by then (codexAppServer.ts:503-505). */
module CodexStaleRefusal {
  import opened Options
  import opened CodexProtocol
  import opened CodexInvariant

  /** The continuation of a request to start a turn, refused because the active turn cannot be steered. */
  predicate Refusal(s: State, e: Event) {
    e.JobContinuation? && e.id in s.rpc.jobs && s.rpc.jobs[e.id].call.TurnStart?
    && s.rpc.jobs[e.id].outcome.Rejected? && s.rpc.jobs[e.id].outcome.notSteerable
  }

  /** While a turn stays open, its requested flag is lost to a refusal and to nothing else; the
      refusal may be that of any turn. */
  lemma FlagLostOnlyToRefusal(env: Env, s: State, e: Event)
    requires s.chat.turn.Some? && s.chat.userTurnStartRequested && Step(env, s, e).chat.turn == s.chat.turn
    ensures !Step(env, s, e).chat.userTurnStartRequested <==> Refusal(s, e)
  {
    match e
    case JobContinuation(id) => JobKeepsFlag(env, s, id);
    case NotificationLine(n) => NotificationKeepsFlag(env, s, n);
    case ProcessExit(current, message, notSteerable) => ExitClosesTurn(env, s, current, message, notSteerable);
    case TurnTimeout(message) => TimeoutKeepsFlag(env, s, message);
    case FailureContinuation(q) => FailureKeepsFlag(env, s, q);
    case _ =>
  }

  lemma CloseClearsTurn(env: Env, s: State)
    ensures s.FinishTurn(env).chat.turn.None?
  {
  }

  lemma EmitKeepsFlag(s: State, ev: TurnEvents.TurnEvent)
    ensures s.Emit(ev).chat.userTurnStartRequested == s.chat.userTurnStartRequested
  {
  }

  lemma ExitClosesTurn(env: Env, s: State, current: bool, message: string, notSteerable: bool)
    requires s.chat.turn.Some?
    ensures s.ProcessExited(env, current, message, notSteerable).chat.turn.None?
  {
    var s1 := s.RequestsRejected(current, Rejected(message, notSteerable));
    CloseClearsTurn(env, s1.Emit(TurnEvents.Error(message, true)));
  }

  lemma TimeoutKeepsFlag(env: Env, s: State, message: string)
    requires s.chat.turn.Some? && s.TurnTimedOut(env, message).chat.turn == s.chat.turn
    ensures s.TurnTimedOut(env, message) == s
  {
    if s.chat.turnTimeouts.Some? && s.chat.turn == s.chat.turnTimeouts {
      CloseClearsTurn(env, s.Interrupt(env).Push(s.chat.turn.value, TurnEvents.Error(message, false)));
    }
  }

  lemma FailureKeepsFlag(env: Env, s: State, q: nat)
    requires s.chat.turn.Some? && Step(env, s, FailureContinuation(q)).chat.turn == s.chat.turn
    ensures Step(env, s, FailureContinuation(q)).chat == s.chat
  {
    if q in s.failing && s.chat.turn == Some(q) {
      CloseClearsTurn(env, s.(failing := s.failing - {q}).Push(q, TurnEvents.Error(s.failing[q], false)));
    }
  }

  lemma CaptureKeepsFlag(s: State, id: Id)
    ensures s.CaptureThread(id).chat == s.chat.(queues := s.CaptureThread(id).chat.queues)
  {
  }

  lemma AckKeepsChat(env: Env, s: State, thread: Id, outcome: Outcome)
    ensures s.AfterCompactStart(env, thread, outcome).chat == s.chat
  {
  }

  lemma TurnStartKeepsFlag(env: Env, s: State, q: nat, outcome: Outcome)
    requires s.chat.userTurnStartRequested
    ensures !s.AfterTurnStart(env, q, outcome).chat.userTurnStartRequested <==>
        outcome.Rejected? && outcome.notSteerable
  {
  }

  lemma JobKeepsFlag(env: Env, s: State, id: nat)
    requires s.chat.turn.Some? && s.chat.userTurnStartRequested
    ensures !Step(env, s, JobContinuation(id)).chat.userTurnStartRequested <==> Refusal(s, JobContinuation(id))
  {
    if id in s.rpc.jobs {
      var job, t := s.rpc.jobs[id], s.(rpc := s.rpc.(jobs := s.rpc.jobs - {id}));
      match job.call
      case Handshake => if job.outcome.Resolved? && job.outcome.id.Some? { CaptureKeepsFlag(t, job.outcome.id.value); }
      case TurnStart(q) => TurnStartKeepsFlag(env, t, q, job.outcome);
      case TurnInterrupt =>
      case CompactStart(thread, _) => AckKeepsChat(env, t, thread, job.outcome);
    }
  }

  lemma CompactionKeepsChat(env: Env, s: State, tokens: Option<real>, thread: Option<Id>, id: Option<Id>)
    ensures s.ConsiderNativeCompact(env, tokens, thread).chat == s.chat
    ensures s.CompleteNativeCompact(thread, id).chat == s.chat
    ensures s.IdentifyCompactTurn(thread, id).chat == s.chat
  {
    var s1 := s.(compact := s.compact.(thresholdLatched := true, queued := true));
    assert s1.StartQueuedNativeCompact(env).chat == s1.chat;
  }

  lemma CompletedKeepsFlag(env: Env, s: State, id: Option<Id>, status: Option<string>, message: Option<string>)
    requires s.chat.turn.Some? && s.HandleTurnCompleted(env, id, status, message).chat.turn == s.chat.turn
    ensures s.HandleTurnCompleted(env, id, status, message) == s
  {
    CloseClearsTurn(env, s.Emit(TurnEvents.Done(s.chat.accText)));
    var reason := OrElse(message, "Codex turn ended with status " + OrElse(status, "unknown"));
    CloseClearsTurn(env, s.Emit(TurnEvents.Error(reason, false)));
  }

  lemma UseToolKeepsFlag(s: State, id: Id, name: string)
    ensures s.UseTool(id, name).chat.userTurnStartRequested == s.chat.userTurnStartRequested
  {
    EmitKeepsFlag(s.(chat := s.chat.(toolNames := s.chat.toolNames[id := name])), TurnEvents.ToolUse(name));
  }

  lemma StreamKeepsFlag(s: State, text: string)
    ensures s.Stream(text).chat.userTurnStartRequested == s.chat.userTurnStartRequested
  {
    EmitKeepsFlag(s.(chat := s.chat.(accText := s.chat.accText + text)), TurnEvents.Delta(text));
  }

  lemma ItemStartedKeepsFlag(s: State, item: Item)
    ensures s.HandleItemStarted(item).chat.userTurnStartRequested == s.chat.userTurnStartRequested
  {
    if item.id.Some? {
      match item.kind
      case McpToolCall(server, tool) => UseToolKeepsFlag(s, item.id.value,
          OrElse(server, "mcp") + ":" + OrElse(tool, "tool"));
      case CommandExecution => UseToolKeepsFlag(s, item.id.value, "shell (read-only)");
      case FileChange => UseToolKeepsFlag(s, item.id.value, "file change");
      case _ =>
    }
  }

  lemma ItemCompletedKeepsFlag(s: State, item: Item)
    ensures s.HandleItemCompleted(item).chat.userTurnStartRequested == s.chat.userTurnStartRequested
  {
    StreamKeepsFlag(s, item.text);
    if item.id.Some? && item.id.value in s.chat.toolNames {
      EmitKeepsFlag(s, TurnEvents.ToolResult(s.chat.toolNames[item.id.value], !item.failed && !item.error));
    }
  }

  lemma TurnNotificationKeepsFlag(env: Env, s: State, n: Notification)
    requires s.chat.turn.Some? && s.chat.userTurnStartRequested
        && s.HandleTurnNotification(env, n).chat.turn == s.chat.turn
    ensures s.HandleTurnNotification(env, n).chat.userTurnStartRequested
  {
    match n
    case AgentMessageDelta(text) => StreamKeepsFlag(s, text);
    case ReasoningDelta(text) => EmitKeepsFlag(s, TurnEvents.Thinking(text));
    case ItemStarted(item) => ItemStartedKeepsFlag(s, item);
    case ItemCompleted(item, _, _) => ItemCompletedKeepsFlag(s, item);
    case TurnCompleted(id, status, message) => CompletedKeepsFlag(env, s, id, status, message);
    case _ =>
  }

  lemma NotificationKeepsFlag(env: Env, s: State, n: Notification)
    requires s.chat.turn.Some? && s.chat.userTurnStartRequested && s.HandleNotification(env, n).chat.turn == s.chat.turn
    ensures s.HandleNotification(env, n).chat.userTurnStartRequested
  {
    match n
    case ThreadStarted(id) => if id.Some? { CaptureKeepsFlag(s, id.value); }
    case TokenUsageUpdated(thread, tokens) => CompactionKeepsChat(env, s, tokens, thread, None);
    case ThreadCompacted(thread, id) => CompactionKeepsChat(env, s, None, thread, id);
    case ItemCompleted(item, thread, id) =>
      if item.kind.ContextCompaction? {
        CompactionKeepsChat(env, s, None, thread, id);
      } else {
        TurnNotificationKeepsFlag(env, s, n);
      }
    case _ => TurnNotificationKeepsFlag(env, s, n);
  }

  /** The newer turn is then deaf: what arrives for it is dropped as compaction noise. */
  lemma DeafWithoutFlag(env: Env, s: State, text: string, id: Option<Id>, status: Option<string>,
      message: Option<string>)
    requires !s.chat.userTurnStartRequested
    ensures Step(env, s, NotificationLine(AgentMessageDelta(text))) == s
    ensures Step(env, s, NotificationLine(TurnCompleted(id, status, message))) == s
  {
  }

  /** Its clocks still end the turn, as they end any open turn. */
  lemma ClocksStillEndTurn(env: Env, s: State, message: string)
    requires Reachable(env, s) && s.chat.turn.Some?
    ensures Step(env, s, TurnTimeout(message)).chat.turn.None?
  {
    ReachableInv(env, s);
    CloseClearsTurn(env, s.Interrupt(env).Push(s.chat.turn.value, TurnEvents.Error(message, false)));
  }

  lemma ThreadReady(env: Env, thread: Id) returns (s: State)
    requires forall id :: env.accepts(id)
    ensures Reachable(env, s) && Ready(s, thread) && s.chat == INITIAL.chat && s.rpc.nextId == 2
  {
    InitialReachable(env);
    var s1 := Step(env, INITIAL, StartCall);
    StepReachable(env, INITIAL, StartCall);
    assert s1.rpc.pending.Keys == {1} && s1.rpc.pending[1].call == Handshake;
    var s2 := Step(env, s1, AnswerLine(1, Resolved(Some(thread))));
    StepReachable(env, s1, AnswerLine(1, Resolved(Some(thread))));
    assert s2.rpc.jobs == map[1 := Job(Handshake, Resolved(Some(thread)))];
    s := Step(env, s2, JobContinuation(1));
    StepReachable(env, s2, JobContinuation(1));
    assert s.rpc.jobs == map[];
  }

  predicate SecondRequested(s: State) {
    && s.chat.turn == Some(1) && s.chat.userTurnStartRequested && s.rpc.jobs == map[]
    && 2 in s.rpc.pending && s.rpc.pending[2].call == TurnStart(0)
    && 3 in s.rpc.pending && s.rpc.pending[3].call == TurnStart(1)
  }

  lemma SecondTurnRequested(env: Env, thread: Id) returns (s: State)
    requires forall id :: env.accepts(id)
    ensures Reachable(env, s) && SecondRequested(s)
  {
    var s3 := ThreadReady(env, thread);
    var s4 := Step(env, s3, SendTurnCall);
    StepReachable(env, s3, SendTurnCall);
    FirstTurn(env, s3, thread);
    var s5 := Step(env, s4, STRAY_COMPLETION);
    StepReachable(env, s4, STRAY_COMPLETION);
    FirstTurnCompletes(env, s4, thread);
    s := Step(env, s5, SendTurnCall);
    StepReachable(env, s5, SendTurnCall);
    SecondTurn(env, s5, thread);
  }

  lemma RefusalArrives(env: Env, s: State)
    requires SecondRequested(s)
    ensures var t := Step(env, s, AnswerLine(2, Rejected("", true))); var u := Step(env, t, JobContinuation(2));
      && t.chat == s.chat && t.rpc.jobs == map[2 := Job(TurnStart(0), Rejected("", true))]
      && u.chat == s.chat.(userTurnStartRequested := false)
      && 3 in u.rpc.pending && u.rpc.pending[3].call == TurnStart(1)
  {
  }

  /** A completion without a turn id closes the first turn before its request is answered; the second is
      requested; then the refusal of the first arrives. The second turn is open and its request pending, but
      its flag is gone. */
  lemma StaleRefusalDeafensNewerTurn(env: Env, thread: Id) returns (s: State, e: Event)
    requires forall id :: env.accepts(id)
    ensures Reachable(env, s) && s.chat.turn == Some(1) && s.chat.userTurnStartRequested
    ensures Refusal(s, e) && s.rpc.jobs[e.id].call == TurnStart(0)
    ensures var s' := Step(env, s, e);
      s'.chat.turn == Some(1) && 3 in s'.rpc.pending && s'.rpc.pending[3].call == TurnStart(1)
          && !s'.chat.userTurnStartRequested
  {
    var s6 := SecondTurnRequested(env, thread);
    s := Step(env, s6, AnswerLine(2, Rejected("", true)));
    StepReachable(env, s6, AnswerLine(2, Rejected("", true)));
    e := JobContinuation(2);
    RefusalArrives(env, s6);
  }

  predicate Ready(s: State, thread: Id) {
    s.threadId == Some(thread) && s.compact.barrier.None? && !s.compact.queued && s.rpc.online && !s.stopping
        && s.rpc.jobs == map[]
  }

  lemma FirstTurn(env: Env, s: State, thread: Id)
    requires forall id :: env.accepts(id)
    requires Ready(s, thread) && s.chat == INITIAL.chat && s.rpc.nextId == 2
    ensures var t := Step(env, s, SendTurnCall);
      && Ready(t, thread) && t.chat.turn == Some(0) && t.chat.userTurnStartRequested && t.chat.turnId.None?
      && |t.chat.queues| == 1
      && t.rpc.nextId == 3 && 2 in t.rpc.pending && t.rpc.pending[2].call == TurnStart(0)
  {
    var o := s.OpenTurn();
    assert o.rpc == s.rpc && o.compact == s.compact && o.chat.turn == Some(0) && |o.chat.queues| == 1;
  }

  const STRAY_COMPLETION := NotificationLine(TurnCompleted(None, Some("completed"), None))

  lemma FirstTurnCompletes(env: Env, s: State, thread: Id)
    requires Ready(s, thread) && s.chat.turn == Some(0) && s.chat.userTurnStartRequested && s.chat.turnId.None?
    requires |s.chat.queues| == 1
    requires s.rpc.nextId == 3 && 2 in s.rpc.pending && s.rpc.pending[2].call == TurnStart(0)
    ensures var t := Step(env, s, STRAY_COMPLETION);
      Ready(t, thread) && t.chat.turn.None? && |t.chat.queues| == 1 && t.rpc == s.rpc
  {
    var o := s.Emit(TurnEvents.Done(s.chat.accText));
    assert o.rpc == s.rpc && o.compact == s.compact && o.chat.turn == Some(0) && |o.chat.queues| == 1;
    assert o.FinishTurn(env) == o.CloseTurn();
  }

  lemma SecondTurn(env: Env, s: State, thread: Id)
    requires forall id :: env.accepts(id)
    requires Ready(s, thread) && s.chat.turn.None? && |s.chat.queues| == 1
    requires s.rpc.nextId == 3 && 2 in s.rpc.pending && s.rpc.pending[2].call == TurnStart(0)
    ensures var t := Step(env, s, SendTurnCall);
      Ready(t, thread) && t.chat.turn == Some(1) && t.chat.userTurnStartRequested
      && 2 in t.rpc.pending && t.rpc.pending[2].call == TurnStart(0) && 3 in t.rpc.pending
          && t.rpc.pending[3].call == TurnStart(1)
  {
    var o := s.OpenTurn();
    assert o.rpc == s.rpc && o.compact == s.compact && o.chat.turn == Some(1) && |o.chat.queues| == 2;
  }
}
