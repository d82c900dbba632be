/** server/src/backends/codexAppServer.ts: the turn and native-compaction protocol, as the steps
    of one state machine. A step is what JavaScript runs without interruption: an entry point, a
    notification, a timer callback, or the continuation of a settled promise. */
module CodexProtocol {
  import opened Options
  import opened TurnEvents

  /** A thread, turn or item identifier; never empty, see Options. */
  type Id = string

  const REQUEST_TIMEOUT_MS := 20_000
  const COMPACT_START_ACK_TIMEOUT_MS := 30_000
  const COMPACT_MIN_COMPLETION_TIMEOUT_MS := 120_000
  const DEFAULT_COMPACT_INPUT_TOKENS := 200_000

  /** What is fixed for one backend. `accepts(id)` is what writing request `id` to the pipe of a
      live process returns; every theorem holds for all such functions. With `prompt`, time does
      not pass over a timer that is due or a continuation that can run. */
  datatype Env = Env(compactEnabled: bool, configuredInputTokens: Option<real>, hardTimeoutMs: nat,
                     accepts: nat -> bool, prompt: bool)
  {
    function CompactInputTokens(): int {
      if configuredInputTokens.Some? && configuredInputTokens.value > 0.0
      then configuredInputTokens.value.Floor else DEFAULT_COMPACT_INPUT_TOKENS
    }

    function CompletionTimeoutMs(): nat {
      if hardTimeoutMs > COMPACT_MIN_COMPLETION_TIMEOUT_MS then hardTimeoutMs else COMPACT_MIN_COMPLETION_TIMEOUT_MS
    }
  }

  /** A JSON-RPC request with what its continuation remembers. Queues and barriers are known by
      the order in which they were created. */
  datatype Call = Handshake | TurnStart(q: nat) | TurnInterrupt | CompactStart(thread: Id, barrier: nat)

  datatype Outcome = Resolved(id: Option<Id>) | Rejected(message: string, notSteerable: bool)

  datatype Request = Request(call: Call, deadline: int)
  datatype Job = Job(call: Call, outcome: Outcome)
  datatype Timer = Timer(thread: Id, deadline: int)
  datatype Queue = Queue(events: seq<TurnEvent>, ended: bool)
  datatype Barrier = Barrier(madeAt: int, callId: nat)

  /** What a run is judged by: everything it did that others can see, in order. */
  datatype Act =
    | Called(id: nat, call: Call)
    | Settled(ids: set<nat>)
    | Pushed(q: nat, ev: TurnEvent)
    | BarrierMade(b: nat)
    | BarrierResolved(b: nat)
    | UsageLow(idle: bool)
    | ThreadChanged

  datatype ItemKind =
    | McpToolCall(server: Option<string>, tool: Option<string>)
    | CommandExecution | FileChange | AgentMessage | ContextCompaction | OtherItem

  datatype Item = Item(id: Option<Id>, kind: ItemKind, text: string, failed: bool, error: bool)

  datatype Notification =
    | ThreadStarted(thread: Option<Id>)
    | TurnStarted(thread: Option<Id>, turn: Option<Id>)
    | TokenUsageUpdated(thread: Option<Id>, inputTokens: Option<real>)
    | ThreadCompacted(thread: Option<Id>, turn: Option<Id>)
    | AgentMessageDelta(text: string)
    | ReasoningDelta(text: string)
    | ItemStarted(item: Item)
    | ItemCompleted(item: Item, thread: Option<Id>, turn: Option<Id>)
    | TurnCompleted(turn: Option<Id>, status: Option<string>, message: Option<string>)
    | OtherNotification

  function OrElse(o: Option<string>, fallback: string): string {
    if o.Some? then o.value else fallback
  }

  /** Requests: the process is there to write to, and each request number is unused, awaiting
      its answer, or settled with its continuation still to run. */
  datatype Rpc = Rpc(online: bool, nextId: nat, pending: map<nat, Request>, jobs: map<nat, Job>)
  {
    predicate Delivers(env: Env) {
      online && env.accepts(nextId)
    }

    function Send(env: Env, call: Call, deadline: int): Rpc {
      if Delivers(env)
      then this.(nextId := nextId + 1, pending := pending[nextId := Request(call, deadline)])
      else this.(nextId := nextId + 1, jobs := jobs[nextId := Job(call, NOT_ONLINE)])
    }

    function Answer(id: nat, outcome: Outcome): Rpc
      requires id in pending
    {
      this.(pending := pending - {id}, jobs := jobs[id := Job(pending[id].call, outcome)])
    }

    /** A process is gone: every pending request is rejected, and none can be written if it was the current one. */
    function RejectAll(current: bool, outcome: Outcome): Rpc {
      Rpc(online && !current, nextId, map[], jobs + map id | id in pending :: Job(pending[id].call, outcome))
    }
  }

  const NOT_ONLINE := Rejected("codex app-server is not online", false)

  /** The open turn and the queues of all turns so far; `stopped` are the turns that `stop()` closed. */
  datatype Chat = Chat(
    turn: Option<nat>,
    turnId: Option<Id>,
    userTurnStartRequested: bool,
    turnTimeouts: Option<nat>,
    accText: string,
    toolNames: map<Id, string>,
    queues: seq<Queue>,
    stopped: set<nat>)
  {
    predicate Accepts(q: nat) {
      q < |queues| && !queues[q].ended
    }

    function Push(q: nat, ev: TurnEvent): Chat
      requires Accepts(q)
    {
      this.(queues := queues[q := Queue(queues[q].events + [ev], false)])
    }

    function Open(): Chat {
      Chat(Some(|queues|), None, false, Some(|queues|), "", map[], queues + [Queue([], false)], stopped)
    }

    function Close(): Chat {
      this.(turn := None, turnId := None, userTurnStartRequested := false, turnTimeouts := None,
            queues := if turn.Some? && turn.value < |queues|
                      then queues[turn.value := Queue(queues[turn.value].events, true)] else queues)
    }
  }

  /** Native compaction, with the barriers and completion timers created so far. */
  datatype Compaction = Compaction(
    queued: bool,
    inFlight: bool,
    thresholdLatched: bool,
    threadId: Option<Id>,
    turnId: Option<Id>,
    timer: Option<nat>,
    barrier: Option<nat>,
    resolveBarrier: Option<nat>,
    barriers: seq<Barrier>,
    resolved: set<nat>,
    timerCount: nat,
    timers: map<nat, Timer>)
  {
    function Settle(): Compaction {
      this.(timers := if timer.Some? then timers - {timer.value} else timers,
            timer := None, inFlight := false, threadId := None, turnId := None, barrier := None,
            resolved := if resolveBarrier.Some? then resolved + {resolveBarrier.value} else resolved,
            resolveBarrier := None)
    }

    function Begin(thread: Id, now: int, callId: nat): Compaction {
      this.(queued := false, inFlight := true, threadId := Some(thread), turnId := None,
            barrier := Some(|barriers|), resolveBarrier := Some(|barriers|),
            barriers := barriers + [Barrier(now, callId)])
    }

    function Arm(thread: Id, deadline: int): Compaction {
      this.(timer := Some(timerCount), timerCount := timerCount + 1,
            timers := timers[timerCount := Timer(thread, deadline)])
    }
  }

  /** The backend and the event loop around it: `waiting` are the turns that await a barrier,
      `failing` the turns whose send has thrown. */
  datatype State = State(
    rpc: Rpc,
    chat: Chat,
    compact: Compaction,
    threadId: Option<Id>,
    threadAnnounced: bool,
    stopping: bool,
    now: int,
    waiting: map<nat, nat>,
    failing: map<nat, string>,
    log: seq<Act>)
  {
    function Push(q: nat, ev: TurnEvent): State {
      if chat.Accepts(q) then this.(chat := chat.Push(q, ev), log := log + [Pushed(q, ev)]) else this
    }

    function Emit(ev: TurnEvent): State {
      if chat.turn.Some? then Push(chat.turn.value, ev) else this
    }

    // ---- requests ----

    function Send(env: Env, call: Call, timeoutMs: nat): State {
      this.(rpc := rpc.Send(env, call, now + timeoutMs),
            log := if rpc.Delivers(env) then log + [Called(rpc.nextId, call)]
                   else log + [Called(rpc.nextId, call)] + [Settled({rpc.nextId})])
    }

    function Answer(id: nat, outcome: Outcome): State {
      if id in rpc.pending then this.(rpc := rpc.Answer(id, outcome), log := log + [Settled({id})]) else this
    }

    function Interrupt(env: Env): State {
      if threadId.None? || chat.turnId.None? then this else Send(env, TurnInterrupt, REQUEST_TIMEOUT_MS)
    }

    // ---- native compaction ----

    function SettleNativeCompact(): State {
      this.(compact := compact.Settle(),
            log := if compact.resolveBarrier.Some? then log + [BarrierResolved(compact.resolveBarrier.value)] else log)
    }

    predicate CanStartCompact(env: Env) {
      env.compactEnabled && compact.queued && !compact.inFlight && chat.turn.None? && threadId.Some?
    }

    function StartQueuedNativeCompact(env: Env): State {
      if !CanStartCompact(env) then this
      else
        var b := |compact.barriers|;
        this.(compact := compact.Begin(threadId.value, now, rpc.nextId), log := log + [BarrierMade(b)])
            .Send(env, CompactStart(threadId.value, b), COMPACT_START_ACK_TIMEOUT_MS)
    }

    function AfterCompactStart(env: Env, thread: Id, outcome: Outcome): State {
      if !compact.inFlight || compact.threadId != Some(thread) then this
      else if outcome.Resolved? then this.(compact := compact.Arm(thread, now + env.CompletionTimeoutMs()))
      else SettleNativeCompact()
    }

    function CompactTimerFired(t: nat): State
      requires t in compact.timers
    {
      var s := this.(compact := compact.(timers := compact.timers - {t}));
      if !compact.inFlight || compact.threadId != Some(compact.timers[t].thread) then s else s.SettleNativeCompact()
    }

    function ConsiderNativeCompact(env: Env, inputTokens: Option<real>, thread: Option<Id>): State {
      if !env.compactEnabled || threadId.None? || (thread.Some? && thread != threadId) then this
      else if inputTokens.None? || inputTokens.value < env.CompactInputTokens() as real then
        var idle := !compact.queued && !compact.inFlight;
        this.(compact := compact.(thresholdLatched := compact.thresholdLatched && !idle), log := log + [UsageLow(idle)])
      else if compact.thresholdLatched || compact.queued || compact.inFlight then this
      else
        var s := this.(compact := compact.(thresholdLatched := true, queued := true));
        if chat.turn.None? then s.StartQueuedNativeCompact(env) else s
    }

    function CompleteNativeCompact(thread: Option<Id>, turn: Option<Id>): State {
      if !compact.inFlight || thread.None? || thread != compact.threadId then this
      else if turn.None? || turn != compact.turnId then this
      else this.(compact := compact.(queued := false)).SettleNativeCompact()
    }

    // ---- turns ----

    /** `finishTurn` up to the point where a queued compaction may start. */
    function CloseTurn(): State {
      this.(chat := chat.Close())
    }

    function FinishTurn(env: Env): State {
      if !stopping && compact.queued then CloseTurn().StartQueuedNativeCompact(env) else CloseTurn()
    }

    function CaptureThread(id: Id): State {
      if threadId == Some(id) then this
      else
        var s := this.(compact := compact.(queued := false, thresholdLatched := false)).SettleNativeCompact();
        s.(threadId := Some(id), threadAnnounced := chat.turn.Some?, log := s.log + [ThreadChanged]).Emit(Session(id))
    }

    function OpenTurn(): State {
      var s := this.(chat := chat.Open());
      if threadId.Some? && !threadAnnounced
      then s.(threadAnnounced := true).Push(|chat.queues|, Session(threadId.value)) else s
    }

    function SendTurn(env: Env): State {
      if compact.barrier.Some?
      then OpenTurn().(waiting := waiting[|chat.queues| := compact.barrier.value])
      else OpenTurn().AfterBarrier(env, |chat.queues|)
    }

    function AfterBarrier(env: Env, q: nat): State {
      if chat.turn != Some(q) then this
      else if stopping then this.(failing := failing[q := "Codex app-server is stopping"])
      else BeginTurn(env, q)
    }

    function BeginTurn(env: Env, q: nat): State {
      if threadId.None? then this.(failing := failing[q := "Codex thread is not ready"])
      else this.(chat := chat.(userTurnStartRequested := true)).Send(env, TurnStart(q), REQUEST_TIMEOUT_MS)
    }

    function AfterTurnStart(env: Env, q: nat, outcome: Outcome): State {
      match outcome
      case Resolved(id) =>
        var started := if id.Some? then id else chat.turnId;
        if chat.turn == Some(q) then this.(chat := chat.(turnId := started))
        else if started.Some? then Send(env, TurnInterrupt, REQUEST_TIMEOUT_MS)
        else this
      case Rejected(message, notSteerable) =>
        this.(chat := chat.(userTurnStartRequested := chat.userTurnStartRequested && !notSteerable),
              failing := failing[q := if notSteerable then "active turn not steerable, message not sent" else message])
    }

    function FailTurn(env: Env, q: nat, message: string): State {
      if chat.turn != Some(q) then this else Push(q, Error(message, false)).FinishTurn(env)
    }

    function TurnTimedOut(env: Env, message: string): State {
      if chat.turnTimeouts.None? || chat.turn != chat.turnTimeouts then this
      else Interrupt(env).Push(chat.turn.value, Error(message, false)).FinishTurn(env)
    }

    function RequestsRejected(current: bool, outcome: Outcome): State {
      this.(rpc := rpc.RejectAll(current, outcome), log := log + [Settled(rpc.pending.Keys)])
    }

    /** The exit of a process, which the handler does not tell from that of an earlier one. */
    function ProcessExited(env: Env, current: bool, message: string, notSteerable: bool): State {
      var s := RequestsRejected(current, Rejected(message, notSteerable));
      if chat.turn.Some? then s.Emit(Error(message, true)).FinishTurn(env) else s
    }

    function Stop(env: Env): State {
      this.(stopping := true,
            chat := if chat.turn.Some? then chat.(stopped := chat.stopped + {chat.turn.value}) else chat)
          .FinishTurn(env).SettleNativeCompact()
    }

    // ---- notifications ----

    function HandleItemStarted(item: Item): State {
      if item.id.None? then this
      else match item.kind
        case McpToolCall(server, tool) => UseTool(item.id.value, OrElse(server, "mcp") + ":" + OrElse(tool, "tool"))
        case CommandExecution => UseTool(item.id.value, "shell (read-only)")
        case FileChange => UseTool(item.id.value, "file change")
        case _ => this
    }

    function UseTool(id: Id, name: string): State {
      this.(chat := chat.(toolNames := chat.toolNames[id := name])).Emit(ToolUse(name))
    }

    function Stream(text: string): State {
      this.(chat := chat.(accText := chat.accText + text)).Emit(Delta(text))
    }

    function HandleItemCompleted(item: Item): State {
      if item.id.None? then this
      else if item.kind.AgentMessage? && item.text != "" && chat.accText == "" then Stream(item.text)
      else if item.id.value !in chat.toolNames then this
      else Emit(ToolResult(chat.toolNames[item.id.value], !item.failed && !item.error))
    }

    function HandleTurnCompleted(env: Env, id: Option<Id>, status: Option<string>, message: Option<string>): State {
      if chat.turn.None? || (chat.turnId.Some? && id.Some? && id != chat.turnId) then this
      else if status == Some("completed") then Emit(Done(chat.accText)).FinishTurn(env)
      else
        var reason := OrElse(message, "Codex turn ended with status " + OrElse(status, "unknown"));
        Emit(Error(reason, false)).FinishTurn(env)
    }

    /** Notifications of the user's own turn; the rest is compaction noise. */
    function HandleTurnNotification(env: Env, n: Notification): State {
      if chat.turn.None? || !chat.userTurnStartRequested then this
      else match n
        case TurnStarted(_, id) => this.(chat := chat.(turnId := if id.Some? then id else chat.turnId))
        case AgentMessageDelta(text) => if text == "" then this else Stream(text)
        case ReasoningDelta(text) => if text == "" then this else Emit(Thinking(text))
        case ItemStarted(item) => HandleItemStarted(item)
        case ItemCompleted(item, _, _) => HandleItemCompleted(item)
        case TurnCompleted(id, status, message) => HandleTurnCompleted(env, id, status, message)
        case _ => this
    }

    function IdentifyCompactTurn(thread: Option<Id>, id: Option<Id>): State {
      if thread == compact.threadId && id.Some? && compact.turnId.None?
      then this.(compact := compact.(turnId := id)) else this
    }

    predicate OurThread(thread: Option<Id>) {
      threadId.None? || thread.None? || thread == threadId
    }

    function HandleNotification(env: Env, n: Notification): State {
      match n
      case ThreadStarted(id) => if id.Some? then CaptureThread(id.value) else HandleTurnNotification(env, n)
      case TurnStarted(thread, id) =>
        if compact.inFlight && !chat.userTurnStartRequested then IdentifyCompactTurn(thread, id)
        else HandleTurnNotification(env, n)
      case TokenUsageUpdated(thread, tokens) =>
        if OurThread(thread) then ConsiderNativeCompact(env, tokens, thread) else this
      case ThreadCompacted(thread, id) =>
        if OurThread(thread) then CompleteNativeCompact(thread, id) else this
      case ItemCompleted(item, thread, id) =>
        if item.kind.ContextCompaction? then
          if OurThread(thread) then CompleteNativeCompact(thread, id) else this
        else HandleTurnNotification(env, n)
      case _ => HandleTurnNotification(env, n)
    }

    /** Nothing is due before `to`, and no continuation could run. */
    predicate Quiet(to: int) {
      && rpc.jobs == map[] && failing == map[]
      && (forall q :: q in waiting ==> waiting[q] !in compact.resolved)
      && (forall id :: id in rpc.pending ==> to <= rpc.pending[id].deadline)
      && (forall t :: t in compact.timers ==> to <= compact.timers[t].deadline)
    }

    /** The continuation of a settled request. */
    function RunJob(env: Env, id: nat): State
      requires id in rpc.jobs
    {
      var job, s := rpc.jobs[id], this.(rpc := rpc.(jobs := rpc.jobs - {id}));
      match job.call
      case Handshake =>
        if job.outcome.Resolved? && job.outcome.id.Some? then s.CaptureThread(job.outcome.id.value) else s
      case TurnStart(q) => s.AfterTurnStart(env, q, job.outcome)
      case TurnInterrupt => s
      case CompactStart(thread, _) => s.AfterCompactStart(env, thread, job.outcome)
    }
  }

  const INITIAL := State(
    Rpc(false, 1, map[], map[]),
    Chat(None, None, false, None, "", map[], [], {}),
    Compaction(false, false, false, None, None, None, None, None, [], {}, 0, map[]),
    None, false, false, 0, map[], map[], [])

  /** Everything that can happen to a backend, in any order. */
  datatype Event =
    | StartCall
    | HandshakeCall
    | SendTurnCall
    | InterruptCall
    | StopCall
    | AnswerLine(id: nat, outcome: Outcome)
    | NotificationLine(n: Notification)
    | ProcessExit(current: bool, message: string, notSteerable: bool)
    | RequestTimeout(id: nat)
    | TurnTimeout(message: string)
    | CompactTimeout(t: nat)
    | BarrierContinuation(q: nat)
    | JobContinuation(id: nat)
    | FailureContinuation(q: nat)
    | ClockAdvance(to: int)

  /** An event that cannot happen in a state leaves it unchanged: timers do not go off early,
      continuations run after their promise, the clock does not go back, and a turn is
      sent only when none is open (types.ts:70). */
  function Step(env: Env, s: State, e: Event): State {
    match e
    case StartCall => s.(stopping := false, rpc := s.rpc.(online := true)).Send(env, Handshake, REQUEST_TIMEOUT_MS)
    case HandshakeCall => s.Send(env, Handshake, REQUEST_TIMEOUT_MS)
    case SendTurnCall => if s.chat.turn.None? then s.SendTurn(env) else s
    case InterruptCall => s.Interrupt(env)
    case StopCall => s.Stop(env)
    case AnswerLine(id, outcome) => s.Answer(id, outcome)
    case NotificationLine(n) => s.HandleNotification(env, n)
    case ProcessExit(current, message, notSteerable) => s.ProcessExited(env, current, message, notSteerable)
    case RequestTimeout(id) =>
      if id in s.rpc.pending && s.rpc.pending[id].deadline <= s.now
      then s.Answer(id, Rejected("request timed out", false)) else s
    case TurnTimeout(message) => s.TurnTimedOut(env, message)
    case CompactTimeout(t) =>
      if t in s.compact.timers && s.compact.timers[t].deadline <= s.now then s.CompactTimerFired(t) else s
    case BarrierContinuation(q) =>
      if q in s.waiting && s.waiting[q] in s.compact.resolved
      then s.(waiting := s.waiting - {q}).AfterBarrier(env, q) else s
    case JobContinuation(id) => if id in s.rpc.jobs then s.RunJob(env, id) else s
    case FailureContinuation(q) =>
      if q in s.failing then s.(failing := s.failing - {q}).FailTurn(env, q, s.failing[q]) else s
    case ClockAdvance(to) => if s.now <= to && (env.prompt ==> s.Quiet(to)) then s.(now := to) else s
  }

  ghost predicate Follows(env: Env, s: State, s': State) {
    exists e :: s' == Step(env, s, e)
  }

  ghost predicate Linked(env: Env, run: seq<State>, i: nat) {
    0 < i < |run| ==> Follows(env, run[i - 1], run[i])
  }

  /** The states of a run, one per event, from a backend that has just been built. */
  ghost predicate IsRun(env: Env, run: seq<State>) {
    run != [] && run[0] == INITIAL && forall i :: Linked(env, run, i)
  }

  /** The states that some interleaving of events leads to. */
  ghost predicate Reachable(env: Env, s: State) {
    exists run :: IsRun(env, run) && run[|run| - 1] == s
  }
}
