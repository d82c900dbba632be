/** server/src/backends/codexAppServer.ts: the backend object. Each method does to the fields what
    the step function of the same name says of the state; each entry point takes the object from one
    reachable state to another, so every theorem on reachable states is one on the object. */
module CodexAppServer {
  import opened Options
  import opened TurnEvents
  import opened CodexProtocol
  import opened CodexInvariant
  import opened CodexTheorems

  class CodexAppServerBackend {
    const env: Env

    // The object's own fields, those of requests, of the open turn and of native compaction kept
    // together, each with what the event loop holds for it.
    var rpc: Rpc
    var chat: Chat
    var compact: Compaction
    var threadId: Option<Id>
    var threadAnnounced: bool
    var stopping: bool

    // The clock, and the turns whose continuation the event loop has still to run.
    var now: int
    var waiting: map<nat, nat>
    var failing: map<nat, string>
    ghost var log: seq<Act>

    ghost function View(): State
      reads this
    {
      State(rpc, chat, compact, threadId, threadAnnounced, stopping, now, waiting, failing, log)
    }

    /** Some run of the protocol leads to where the object is. */
    ghost predicate Valid()
      reads this
    {
      Reachable(env, View())
    }

    constructor (env: Env)
      ensures Valid() && this.env == env && View() == INITIAL
    {
      this.env := env;
      rpc := Rpc(false, 1, map[], map[]);
      chat := Chat(None, None, false, None, "", map[], [], {});
      compact := Compaction(false, false, false, None, None, None, None, None, [], {}, 0, map[]);
      threadId, threadAnnounced, stopping := None, false, false;
      now, waiting, failing, log := 0, map[], map[], [];
      new;
      InitialReachable(env);
    }

    // ---- queue plumbing ----

    method Push(q: nat, ev: TurnEvent)
      modifies this
      ensures View() == old(View()).Push(q, ev)
    {
      if q < |chat.queues| && !chat.queues[q].ended {
        chat := chat.(queues := chat.queues[q := Queue(chat.queues[q].events + [ev], false)]);
        log := log + [Pushed(q, ev)];
      }
    }

    method Emit(ev: TurnEvent)
      modifies this
      ensures View() == old(View()).Emit(ev)
    {
      if chat.turn.Some? { Push(chat.turn.value, ev); }
    }

    // ---- requests ----

    method SendRequest(call: Call, timeoutMs: nat)
      modifies this
      ensures View() == old(View()).Send(env, call, timeoutMs)
    {
      var id := rpc.nextId;
      rpc := rpc.(nextId := id + 1);
      log := log + [Called(id, call)];
      if rpc.online && env.accepts(id) {
        rpc := rpc.(pending := rpc.pending[id := Request(call, now + timeoutMs)]);
      } else {
        rpc := rpc.(jobs := rpc.jobs[id := Job(call, NOT_ONLINE)]);
        log := log + [Settled({id})];
      }
    }

    /** A line that answers request `id`; also the way a request times out. */
    method Answer(id: nat, outcome: Outcome)
      modifies this
      ensures View() == old(View()).Answer(id, outcome)
    {
      if id !in rpc.pending { return; }
      var call := rpc.pending[id].call;
      rpc := rpc.(pending := rpc.pending - {id});
      rpc := rpc.(jobs := rpc.jobs[id := Job(call, outcome)]);
      log := log + [Settled({id})];
    }

    method Interrupt()
      modifies this
      ensures View() == old(View()).Interrupt(env)
      ensures old(Valid()) ==> Valid()
    {
      ghost var before := View();
      if Valid() { StepReachable(env, before, InterruptCall); }
      if threadId.None? || chat.turnId.None? { return; }
      SendRequest(TurnInterrupt, REQUEST_TIMEOUT_MS);
    }

    // ---- native compaction ----

    method SettleNativeCompact()
      modifies this
      ensures View() == old(View()).SettleNativeCompact()
    {
      if compact.timer.Some? {
        compact := compact.(timers := compact.timers - {compact.timer.value});
      }
      compact := compact.(timer := None, inFlight := false, threadId := None, turnId := None);
      var resolve := compact.resolveBarrier;
      compact := compact.(resolveBarrier := None, barrier := None);
      if resolve.Some? {
        compact := compact.(resolved := compact.resolved + {resolve.value});
        log := log + [BarrierResolved(resolve.value)];
      }
    }

    method StartQueuedNativeCompact()
      modifies this
      ensures View() == old(View()).StartQueuedNativeCompact(env)
    {
      if !env.compactEnabled || !compact.queued || compact.inFlight || chat.turn.Some? || threadId.None? { return; }
      var thread, b := threadId.value, |compact.barriers|;
      compact := compact.(queued := false, inFlight := true, threadId := Some(thread), turnId := None);
      compact := compact.(barriers := compact.barriers + [Barrier(now, rpc.nextId)],
                          barrier := Some(b), resolveBarrier := Some(b));
      log := log + [BarrierMade(b)];
      SendRequest(CompactStart(thread, b), COMPACT_START_ACK_TIMEOUT_MS);
    }

    method AfterCompactStart(thread: Id, outcome: Outcome)
      modifies this
      ensures View() == old(View()).AfterCompactStart(env, thread, outcome)
    {
      if !compact.inFlight || compact.threadId != Some(thread) { return; }
      if outcome.Resolved? {
        var t := compact.timerCount;
        compact := compact.(timerCount := t + 1, timer := Some(t),
                            timers := compact.timers[t := Timer(thread, now + env.CompletionTimeoutMs())]);
      } else {
        SettleNativeCompact();
      }
    }

    method CompactTimerFired(t: nat)
      requires t in compact.timers
      modifies this
      ensures View() == old(View()).CompactTimerFired(t)
    {
      var thread := compact.timers[t].thread;
      compact := compact.(timers := compact.timers - {t});
      if !compact.inFlight || compact.threadId != Some(thread) { return; }
      SettleNativeCompact();
    }

    method ConsiderNativeCompact(inputTokens: Option<real>, thread: Option<Id>)
      modifies this
      ensures View() == old(View()).ConsiderNativeCompact(env, inputTokens, thread)
    {
      if !env.compactEnabled || threadId.None? { return; }
      if thread.Some? && thread != threadId { return; }
      if inputTokens.None? || inputTokens.value < env.CompactInputTokens() as real {
        log := log + [UsageLow(!compact.queued && !compact.inFlight)];
        if !compact.queued && !compact.inFlight { compact := compact.(thresholdLatched := false); }
        return;
      }
      if compact.thresholdLatched || compact.queued || compact.inFlight { return; }
      compact := compact.(thresholdLatched := true, queued := true);
      if chat.turn.None? { StartQueuedNativeCompact(); }
    }

    method CompleteNativeCompact(thread: Option<Id>, id: Option<Id>)
      modifies this
      ensures View() == old(View()).CompleteNativeCompact(thread, id)
    {
      if !compact.inFlight || thread.None? || thread != compact.threadId || id.None? || id != compact.turnId { return; }
      compact := compact.(queued := false);
      SettleNativeCompact();
    }

    // ---- turns ----

    method FinishTurn()
      modifies this
      ensures View() == old(View()).FinishTurn(env)
    {
      chat := chat.(turnTimeouts := None, turnId := None, userTurnStartRequested := false);
      if chat.turn.Some? && chat.turn.value < |chat.queues| {
        var q := chat.turn.value;
        chat := chat.(queues := chat.queues[q := Queue(chat.queues[q].events, true)]);
      }
      chat := chat.(turn := None);
      if !stopping && compact.queued { StartQueuedNativeCompact(); }
    }

    method CaptureThread(id: Id)
      modifies this
      ensures View() == old(View()).CaptureThread(id)
    {
      if threadId == Some(id) { return; }
      compact := compact.(queued := false, thresholdLatched := false);
      SettleNativeCompact();
      threadId := Some(id);
      log := log + [ThreadChanged];
      if chat.turn.Some? {
        threadAnnounced := true;
        Emit(Session(id));
      } else {
        threadAnnounced := false;
      }
    }

    method OpenTurn()
      modifies this
      ensures View() == old(View()).OpenTurn()
    {
      var queue := |chat.queues|;
      chat := chat.(queues := chat.queues + [Queue([], false)], turn := Some(queue), turnId := None);
      chat := chat.(userTurnStartRequested := false, accText := "", toolNames := map[], turnTimeouts := Some(queue));
      if threadId.Some? && !threadAnnounced {
        threadAnnounced := true;
        Push(queue, Session(threadId.value));
      }
    }

    /** Turns are serialised by the caller: none is open. */
    method SendTurn() returns (queue: nat)
      requires Valid() && chat.turn.None?
      modifies this
      ensures queue == |old(chat).queues|
      ensures View() == old(View()).SendTurn(env)
      ensures Valid()
    {
      StepReachable(env, View(), SendTurnCall);
      queue := |chat.queues|;
      OpenTurn();
      if compact.barrier.Some? {
        waiting := waiting[queue := compact.barrier.value];
      } else {
        BeginTurnAfterCompaction(queue);
      }
    }

    /** `beginTurnAfterCompaction` once there is no barrier to wait for. */
    method BeginTurnAfterCompaction(queue: nat)
      modifies this
      ensures View() == old(View()).AfterBarrier(env, queue)
    {
      if chat.turn != Some(queue) { return; }
      if stopping {
        failing := failing[queue := "Codex app-server is stopping"];
        return;
      }
      BeginTurn(queue);
    }

    method BeginTurn(queue: nat)
      modifies this
      ensures View() == old(View()).BeginTurn(env, queue)
    {
      if threadId.None? {
        failing := failing[queue := "Codex thread is not ready"];
        return;
      }
      chat := chat.(userTurnStartRequested := true);
      SendRequest(TurnStart(queue), REQUEST_TIMEOUT_MS);
    }

    method AfterTurnStart(queue: nat, outcome: Outcome)
      modifies this
      ensures View() == old(View()).AfterTurnStart(env, queue, outcome)
    {
      match outcome
      case Resolved(id) =>
        var started := if id.Some? then id else chat.turnId;
        if chat.turn != Some(queue) {
          if started.Some? { SendRequest(TurnInterrupt, REQUEST_TIMEOUT_MS); }
          return;
        }
        chat := chat.(turnId := started);
      case Rejected(message, notSteerable) =>
        if notSteerable {
          chat := chat.(userTurnStartRequested := false);
          failing := failing[queue := "active turn not steerable, message not sent"];
        } else {
          failing := failing[queue := message];
        }
    }

    method FailTurn(queue: nat, message: string)
      modifies this
      ensures View() == old(View()).FailTurn(env, queue, message)
    {
      if chat.turn != Some(queue) { return; }
      Push(queue, Error(message, false));
      FinishTurn();
    }

    method TurnTimedOut(message: string)
      modifies this
      ensures View() == old(View()).TurnTimedOut(env, message)
    {
      if chat.turnTimeouts.None? || chat.turn != chat.turnTimeouts { return; }
      Interrupt();
      Push(chat.turn.value, Error(message, false));
      FinishTurn();
    }

    /** `current` is whether the process is the one in use; the handler does the same for an earlier one. */
    method ProcessExited(current: bool, message: string, notSteerable: bool)
      requires Valid()
      modifies this
      ensures View() == old(View()).ProcessExited(env, current, message, notSteerable)
      ensures Valid()
    {
      StepReachable(env, View(), ProcessExit(current, message, notSteerable));
      RejectPending(current, Rejected(message, notSteerable));
      if chat.turn.Some? {
        Emit(Error(message, true));
        FinishTurn();
      }
    }

    method RejectPending(current: bool, outcome: Outcome)
      modifies this
      ensures View() == old(View()).RequestsRejected(current, outcome)
    {
      var rejected := Rejections(rpc.pending, outcome);
      log := log + [Settled(rpc.pending.Keys)];
      rpc := rpc.(online := rpc.online && !current, pending := map[], jobs := rpc.jobs + rejected);
    }

    /** The loop of the exit handler over the pending requests, in any order. */
    static method Rejections(pending: map<nat, Request>, outcome: Outcome) returns (rejected: map<nat, Job>)
      ensures rejected == map id | id in pending :: Job(pending[id].call, outcome)
    {
      rejected := map[];
      var ids := pending.Keys;
      while ids != {}
        invariant ids <= pending.Keys
        invariant rejected == map id | id in pending && id !in ids :: Job(pending[id].call, outcome)
      {
        var id :| id in ids;
        rejected := rejected[id := Job(pending[id].call, outcome)];
        ids := ids - {id};
      }
    }

    method Stop()
      requires Valid()
      modifies this
      ensures View() == old(View()).Stop(env)
      ensures Valid()
    {
      StepReachable(env, View(), StopCall);
      stopping := true;
      if chat.turn.Some? { chat := chat.(stopped := chat.stopped + {chat.turn.value}); }
      FinishTurn();
      SettleNativeCompact();
    }

    // ---- notifications ----

    method HandleItemStarted(item: Item)
      modifies this
      ensures View() == old(View()).HandleItemStarted(item)
    {
      if item.id.None? { return; }
      if item.kind.McpToolCall? {
        var name := OrElse(item.kind.server, "mcp") + ":" + OrElse(item.kind.tool, "tool");
        chat := chat.(toolNames := chat.toolNames[item.id.value := name]);
        Emit(ToolUse(name));
      } else if item.kind.CommandExecution? || item.kind.FileChange? {
        var name := if item.kind.CommandExecution? then "shell (read-only)" else "file change";
        chat := chat.(toolNames := chat.toolNames[item.id.value := name]);
        Emit(ToolUse(name));
      }
    }

    method HandleItemCompleted(item: Item)
      modifies this
      ensures View() == old(View()).HandleItemCompleted(item)
    {
      if item.id.None? { return; }
      if item.kind.AgentMessage? && item.text != "" && chat.accText == "" {
        chat := chat.(accText := item.text);
        assert item.text == "" + item.text;
        Emit(Delta(item.text));
        return;
      }
      if item.id.value !in chat.toolNames { return; }
      Emit(ToolResult(chat.toolNames[item.id.value], !item.failed && !item.error));
    }

    method HandleTurnCompleted(id: Option<Id>, status: Option<string>, message: Option<string>)
      modifies this
      ensures View() == old(View()).HandleTurnCompleted(env, id, status, message)
    {
      if chat.turn.None? || (chat.turnId.Some? && id.Some? && id != chat.turnId) { return; }
      if status == Some("completed") {
        Emit(Done(chat.accText));
      } else {
        Emit(Error(OrElse(message, "Codex turn ended with status " + OrElse(status, "unknown")), false));
      }
      FinishTurn();
    }

    method HandleTurnNotification(n: Notification)
      modifies this
      ensures View() == old(View()).HandleTurnNotification(env, n)
    {
      if chat.turn.None? || !chat.userTurnStartRequested { return; }
      match n
      case TurnStarted(_, id) =>
        if id.Some? { chat := chat.(turnId := id); }
      case AgentMessageDelta(text) =>
        if text != "" {
          chat := chat.(accText := chat.accText + text);
          Emit(Delta(text));
        }
      case ReasoningDelta(text) =>
        if text != "" { Emit(Thinking(text)); }
      case ItemStarted(item) => HandleItemStarted(item);
      case ItemCompleted(item, _, _) => HandleItemCompleted(item);
      case TurnCompleted(id, status, message) => HandleTurnCompleted(id, status, message);
      case _ =>
    }

    /** A line that is a notification. */
    method Route(n: Notification)
      requires Valid()
      modifies this
      ensures View() == Step(env, old(View()), NotificationLine(n))
      ensures Valid()
    {
      StepReachable(env, View(), NotificationLine(n));
      HandleNotification(n);
    }

    method HandleNotification(n: Notification)
      modifies this
      ensures View() == old(View()).HandleNotification(env, n)
    {
      match n
      case ThreadStarted(id) =>
        if id.Some? { CaptureThread(id.value); } else { HandleTurnNotification(n); }
      case TurnStarted(thread, id) =>
        if compact.inFlight && !chat.userTurnStartRequested {
          if thread == compact.threadId && id.Some? && compact.turnId.None? {
            compact := compact.(turnId := id);
          }
        } else {
          HandleTurnNotification(n);
        }
      case TokenUsageUpdated(thread, tokens) =>
        if threadId.None? || thread.None? || thread == threadId { ConsiderNativeCompact(tokens, thread); }
      case ThreadCompacted(thread, id) =>
        if threadId.None? || thread.None? || thread == threadId { CompleteNativeCompact(thread, id); }
      case ItemCompleted(item, thread, id) =>
        if item.kind.ContextCompaction? {
          if threadId.None? || thread.None? || thread == threadId { CompleteNativeCompact(thread, id); }
        } else {
          HandleTurnNotification(n);
        }
      case _ => HandleTurnNotification(n);
    }

    // ---- the event loop ----

    method RunJob(id: nat)
      requires id in rpc.jobs
      modifies this
      ensures View() == old(View()).RunJob(env, id)
    {
      var job := rpc.jobs[id];
      rpc := rpc.(jobs := rpc.jobs - {id});
      match job.call
      case Handshake => if job.outcome.Resolved? && job.outcome.id.Some? { CaptureThread(job.outcome.id.value); }
      case TurnStart(queue) => AfterTurnStart(queue, job.outcome);
      case TurnInterrupt =>
      case CompactStart(thread, _) => AfterCompactStart(thread, job.outcome);
    }

    /** A timer, an answer or a continuation reaches the object. */
    method Resume(e: Event)
      requires Valid()
      requires e.AnswerLine? || e.RequestTimeout? || e.TurnTimeout? || e.CompactTimeout?
        || e.BarrierContinuation? || e.JobContinuation? || e.FailureContinuation?
      modifies this
      ensures View() == Step(env, old(View()), e)
      ensures Valid()
    {
      StepReachable(env, View(), e);
      match e
      case AnswerLine(id, outcome) => Answer(id, outcome);
      case RequestTimeout(id) =>
        if id in rpc.pending && rpc.pending[id].deadline <= now { Answer(id, Rejected("request timed out", false)); }
      case TurnTimeout(message) => TurnTimedOut(message);
      case CompactTimeout(t) =>
        if t in compact.timers && compact.timers[t].deadline <= now { CompactTimerFired(t); }
      case BarrierContinuation(queue) =>
        if queue in waiting && waiting[queue] in compact.resolved {
          waiting := waiting - {queue};
          BeginTurnAfterCompaction(queue);
        }
      case JobContinuation(id) => if id in rpc.jobs { RunJob(id); }
      case FailureContinuation(queue) =>
        if queue in failing {
          var message := failing[queue];
          failing := failing - {queue};
          FailTurn(queue, message);
        }
    }

    /** `start`: spawns a process and shakes hands with it. */
    method Start()
      requires Valid()
      modifies this
      ensures View() == Step(env, old(View()), StartCall)
      ensures Valid()
    {
      StepReachable(env, View(), StartCall);
      stopping := false;
      rpc := rpc.(online := true);
      SendRequest(Handshake, REQUEST_TIMEOUT_MS);
    }

    /** Time passes; with prompt timers, not over one that is due. */
    method Elapse(to: int)
      requires Valid() && now <= to && (env.prompt ==> View().Quiet(to))
      modifies this`now
      ensures View() == Step(env, old(View()), ClockAdvance(to))
      ensures Valid()
    {
      StepReachable(env, View(), ClockAdvance(to));
      now := to;
    }

    /** One event reaches the object. */
    method Dispatch(e: Event)
      requires Valid()
      requires e.ClockAdvance? ==> now <= e.to && (env.prompt ==> View().Quiet(e.to))
      modifies this
      ensures View() == Step(env, old(View()), e)
      ensures Valid()
    {
      match e
      case StartCall => Start();
      case HandshakeCall =>
        StepReachable(env, View(), e);
        SendRequest(Handshake, REQUEST_TIMEOUT_MS);
      case SendTurnCall => if chat.turn.None? { var _ := SendTurn(); }
      case InterruptCall => Interrupt();
      case StopCall => Stop();
      case NotificationLine(n) => Route(n);
      case ProcessExit(current, message, notSteerable) => ProcessExited(current, message, notSteerable);
      case ClockAdvance(to) => Elapse(to);
      case _ => Resume(e);
    }
  }

  /** What the object keeps from its construction on, through any calls of its entry points: a requested turn is open
      and no compaction is in flight, a compaction holds the one barrier not released, and a turn's queue
      is well formed. */
  lemma ObjectPromises(b: CodexAppServerBackend)
    requires b.Valid()
    ensures b.chat.userTurnStartRequested ==> b.chat.turn.Some? && !b.compact.inFlight
    ensures b.compact.inFlight <==> b.compact.barrier.Some?
    ensures b.compact.inFlight ==> b.compact.threadId == b.threadId && Attended(b.compact, b.rpc)
    ensures forall i :: 0 <= i < |b.log| && UserTurnAct(b.log[i]) ==> AllReleased(b.log, i)
    ensures forall q :: 0 <= q < |b.chat.queues| ==>
      WellFormedTurn(b.chat.queues[q].events, b.chat.turn == Some(q) || q in b.chat.stopped)
  {
    var s := b.View();
    if s.chat.userTurnStartRequested {
      RequestedMeansOpenAndAlone(b.env, s);
    }
    EveryBarrierResolvedOnce(b.env, s);
    forall i | 0 <= i < |s.log| && UserTurnAct(s.log[i]) ensures AllReleased(s.log, i) {
      UserTurnNeverOverlapsCompaction(b.env, s, i);
    }
    forall q | 0 <= q < |s.chat.queues|
      ensures WellFormedTurn(s.chat.queues[q].events, s.chat.turn == Some(q) || q in s.chat.stopped)
    {
      QueueOfATurn(b.env, s, q);
    }
  }
}
