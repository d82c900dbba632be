/** What each event does that a reader of the queues, of the requests sent and of the barriers can see.
    Nothing here is said in terms of the step functions. */
module CodexEffects {
  import opened Options
  import opened TurnEvents
  import opened CodexProtocol
  import opened CodexInvariant

  // ---- observations ----

  /** The requests sent so far, oldest first. */
  function CallsOf(log: seq<Act>): seq<Call> {
    if log == [] then []
    else CallsOf(log[..|log| - 1]) + if log[|log| - 1].Called? then [log[|log| - 1].call] else []
  }

  lemma CallsAppend(log: seq<Act>, a: Act)
    ensures CallsOf(log + [a]) == CallsOf(log) + if a.Called? then [a.call] else []
  {
    assert (log + [a])[..|log|] == log;
  }

  predicate Sends(s: State, t: State, calls: seq<Call>) {
    CallsOf(t.log) == CallsOf(s.log) + calls
  }

  /** Queue q gets these events and no other queue changes. */
  predicate Delivers(s: State, t: State, q: nat, events: seq<TurnEvent>) {
    && q < |s.chat.queues| == |t.chat.queues|
    && t.chat.queues[q].events == s.chat.queues[q].events + events
    && forall r :: 0 <= r < |s.chat.queues| && r != q ==> t.chat.queues[r] == s.chat.queues[r]
  }

  /** Turn q, until then open, is over. */
  predicate Closes(t: State, q: nat) {
    t.chat.turn.None? && t.chat.turnId.None? && !t.chat.userTurnStartRequested && q < |t.chat.queues|
        && t.chat.queues[q].ended
  }

  predicate Open(s: State, q: nat) {
    s.chat.turn == Some(q) && s.chat.Accepts(q)
  }

  lemma ReachableOpen(env: Env, s: State)
    requires Reachable(env, s) && s.chat.turn.Some?
    ensures Open(s, s.chat.turn.value) && s.chat.accText == Streamed(s)
    ensures s.chat.turnTimeouts == s.chat.turn && Numbered(s)
    ensures s.compact.queued ==> !s.compact.inFlight
  {
    ReachableInv(env, s);
    OpenAccepts(s);
  }

  // ---- the parts of a step ----

  lemma EmitEffect(s: State, q: nat, ev: TurnEvent)
    requires Open(s, q)
    ensures var t := s.Emit(ev);
      && Delivers(s, t, q, [ev]) && Sends(s, t, []) && Open(t, q)
      && t == s.(chat := s.chat.(queues := t.chat.queues), log := t.log)
  {
    CallsAppend(s.log, Pushed(q, ev));
  }

  /** No request bears the next number yet. */
  predicate Numbered(s: State) {
    forall id :: id in s.rpc.pending ==> id < s.rpc.nextId
  }

  lemma ReachableNumbered(env: Env, s: State)
    requires Reachable(env, s)
    ensures Numbered(s)
  {
    ReachableInv(env, s);
  }

  lemma SendLogged(env: Env, s: State, call: Call, timeoutMs: nat)
    ensures Sends(s, s.Send(env, call, timeoutMs), [call])
  {
    CallsAppend(s.log, Called(s.rpc.nextId, call));
    CallsAppend(s.log + [Called(s.rpc.nextId, call)], Settled({s.rpc.nextId}));
  }

  lemma SendEffect(env: Env, s: State, call: Call, timeoutMs: nat)
    requires Numbered(s)
    ensures var t := s.Send(env, call, timeoutMs);
      && Sends(s, t, [call]) && t == s.(rpc := t.rpc, log := t.log) && Numbered(t)
      && Awaited(t, s.rpc.nextId, s.now + timeoutMs)
  {
    SendLogged(env, s, call, timeoutMs);
  }

  /** A request that is written awaits its answer until its deadline; one that cannot be written is rejected at once. */
  lemma RequestSent(env: Env, s: State, call: Call, timeoutMs: nat)
    ensures var t, id := s.Send(env, call, timeoutMs), s.rpc.nextId;
      && t.rpc.nextId == id + 1
      && (s.rpc.online && env.accepts(id) ==>
            t.rpc.pending == s.rpc.pending[id := Request(call, s.now + timeoutMs)] && t.rpc.jobs == s.rpc.jobs)
      && (!(s.rpc.online && env.accepts(id)) ==>
            t.rpc.pending == s.rpc.pending && id in t.rpc.jobs && t.rpc.jobs[id].call == call
            && t.rpc.jobs[id].outcome.Rejected?)
  {
  }

  predicate CompactionDue(env: Env, s: State) {
    env.compactEnabled && s.compact.queued && !s.compact.inFlight && s.threadId.Some?
  }

  /** Until then the answer to request `id` is awaited, if it is at all. */
  predicate Awaited(t: State, id: nat, deadline: int) {
    id in t.rpc.pending ==> t.rpc.pending[id].deadline == deadline
  }

  predicate CompactionBegins(s: State, t: State)
    requires s.threadId.Some?
  {
    && t.compact.inFlight && !t.compact.queued && t.compact.threadId == s.threadId
    && t.compact.barrier == Some(|s.compact.barriers|)
    && |t.compact.barriers| == |s.compact.barriers| + 1 && t.compact.barriers[|s.compact.barriers|].madeAt == s.now
    && Awaited(t, t.compact.barriers[|s.compact.barriers|].callId, s.now + 30_000)
  }

  lemma StartQueuedEffect(env: Env, s: State)
    requires s.chat.turn.None? && Numbered(s)
    ensures var t := s.StartQueuedNativeCompact(env);
      && t.chat == s.chat && t.threadId == s.threadId && t.failing == s.failing && t.stopping == s.stopping
      && (CompactionDue(env, s) ==>
            CompactionBegins(s, t) && Sends(s, t, [CompactStart(s.threadId.value, |s.compact.barriers|)]))
      && (!CompactionDue(env, s) ==> t == s)
  {
    if CompactionDue(env, s) {
      var b := |s.compact.barriers|;
      var s1 := s.(compact := s.compact.Begin(s.threadId.value, s.now, s.rpc.nextId), log := s.log + [BarrierMade(b)]);
      CallsAppend(s.log, BarrierMade(b));
      SendEffect(env, s1, CompactStart(s.threadId.value, b), COMPACT_START_ACK_TIMEOUT_MS);
    }
  }

  function CompactionCalls(env: Env, s: State): seq<Call> {
    if !s.stopping && CompactionDue(env, s) then [CompactStart(s.threadId.value, |s.compact.barriers|)] else []
  }

  /** The end of a turn gives way to a queued compaction, unless the backend is stopping. */
  lemma FinishEffect(env: Env, s: State, q: nat)
    requires Open(s, q) && Numbered(s)
    ensures var t := s.FinishTurn(env);
      && Delivers(s, t, q, []) && Closes(t, q) && Sends(s, t, CompactionCalls(env, s))
      && t.threadId == s.threadId && t.stopping == s.stopping
      && (!s.stopping && CompactionDue(env, s) ==> CompactionBegins(s, t))
      && (s.stopping || !CompactionDue(env, s) ==> t.compact == s.compact)
  {
    StartQueuedEffect(env, s.CloseTurn());
  }

  /** A terminal event, then the end of the turn. */
  predicate EndsWith(env: Env, s: State, t: State, q: nat, ev: TurnEvent) {
    && Delivers(s, t, q, [ev]) && Closes(t, q)
    && (!s.stopping && CompactionDue(env, s) ==> CompactionBegins(s, t))
    && (s.stopping || !CompactionDue(env, s) ==> t.compact == s.compact)
  }

  lemma EndEffect(env: Env, s: State, q: nat, ev: TurnEvent)
    requires Open(s, q) && Numbered(s)
    ensures EndsWith(env, s, s.Emit(ev).FinishTurn(env), q, ev)
    ensures Sends(s, s.Emit(ev).FinishTurn(env), CompactionCalls(env, s))
  {
    EmitEffect(s, q, ev);
    FinishEffect(env, s.Emit(ev), q);
  }

  // ---- the events of a turn ----

  function CompletionOf(turn: Option<Id>, status: Option<string>, message: Option<string>): Event {
    NotificationLine(TurnCompleted(turn, status, message))
  }

  /** The text that the open turn's queue has been given. */
  function Streamed(s: State): string {
    if s.chat.turn.Some? && s.chat.turn.value < |s.chat.queues| then DeltaText(s.chat.queues[s.chat.turn.value].events)
        else ""
  }

  /** Done, with the text streamed, if and only if the status is "completed"; else an error that is not fatal. */
  predicate Terminates(s: State, status: Option<string>, message: Option<string>, ev: TurnEvent) {
    && (ev.Done? || ev.Error?)
    && (ev.Done? <==> status == Some("completed"))
    && (ev.Done? ==> ev.finalText == Streamed(s))
    && (ev.Error? ==> !ev.fatal && (message.Some? ==> ev.message == message.value))
  }

  lemma CompletionEffect(env: Env, s: State, id: Option<Id>, status: Option<string>, message: Option<string>, q: nat)
    returns (ev: TurnEvent)
    requires Open(s, q) && Numbered(s) && s.chat.accText == Streamed(s)
    requires s.chat.turnId.None? || id.None? || id == s.chat.turnId
    ensures EndsWith(env, s, s.HandleTurnCompleted(env, id, status, message), q, ev)
        && Terminates(s, status, message, ev)
  {
    ev := if status == Some("completed") then Done(s.chat.accText)
          else Error(OrElse(message, "Codex turn ended with status " + OrElse(status, "unknown")), false);
    EndEffect(env, s, q, ev);
    assert s.HandleTurnCompleted(env, id, status, message) == s.Emit(ev).FinishTurn(env);
  }

  /** A completion, unless it names another known turn, appends exactly one event and closes the turn: done
      if and only if the status is "completed". */
  lemma CompletionEndsTurn(env: Env, s: State, id: Option<Id>, status: Option<string>, message: Option<string>)
    returns (ev: TurnEvent)
    requires Reachable(env, s) && s.chat.turn.Some? && s.chat.userTurnStartRequested
    requires s.chat.turnId.None? || id.None? || id == s.chat.turnId
    ensures EndsWith(env, s, Step(env, s, CompletionOf(id, status, message)), s.chat.turn.value, ev)
    ensures Terminates(s, status, message, ev)
  {
    ReachableOpen(env, s);
    ev := CompletionEffect(env, s, id, status, message, s.chat.turn.value);
    CompletionHandled(env, s, id, status, message);
  }

  lemma CompletionHandled(env: Env, s: State, id: Option<Id>, status: Option<string>, message: Option<string>)
    requires s.chat.turn.Some? && s.chat.userTurnStartRequested
    ensures Step(env, s, CompletionOf(id, status, message)) == s.HandleTurnCompleted(env, id, status, message)
  {
  }

  /** The completion of another turn changes nothing. */
  lemma OtherCompletionIgnored(env: Env, s: State, id: Option<Id>, status: Option<string>, message: Option<string>)
    requires s.chat.turnId.Some? && id.Some? && id != s.chat.turnId
    ensures Step(env, s, CompletionOf(id, status, message)) == s
  {
  }

  predicate Stays(s: State, t: State, q: nat, events: seq<TurnEvent>) {
    Delivers(s, t, q, events) && t.chat.turn == s.chat.turn && t.chat.userTurnStartRequested && Sends(s, t, [])
  }

  lemma StreamEffect(s: State, q: nat, text: string)
    requires Open(s, q) && s.chat.userTurnStartRequested
    ensures Stays(s, s.Stream(text), q, [Delta(text)])
  {
    EmitEffect(s.(chat := s.chat.(accText := s.chat.accText + text)), q, Delta(text));
  }

  /** Text and reasoning of a requested turn are delivered as they come. */
  lemma StreamDelivered(env: Env, s: State, text: string)
    requires Reachable(env, s) && s.chat.turn.Some? && s.chat.userTurnStartRequested && text != ""
    ensures Stays(s, Step(env, s, NotificationLine(AgentMessageDelta(text))), s.chat.turn.value, [Delta(text)])
    ensures Stays(s, Step(env, s, NotificationLine(ReasoningDelta(text))), s.chat.turn.value, [Thinking(text)])
  {
    ReachableOpen(env, s);
    StreamEffect(s, s.chat.turn.value, text);
    EmitEffect(s, s.chat.turn.value, Thinking(text));
  }

  /** The name of the tool an item starts, if it starts one. */
  function ToolOf(kind: ItemKind): Option<string> {
    match kind
    case McpToolCall(server, tool) =>
      Some((if server.Some? then server.value else "mcp") + ":" + (if tool.Some? then tool.value else "tool"))
    case CommandExecution => Some("shell (read-only)")
    case FileChange => Some("file change")
    case _ => None
  }

  lemma ToolUseEffect(s: State, q: nat, id: Id, name: string)
    requires Open(s, q) && s.chat.userTurnStartRequested
    ensures var t := s.UseTool(id, name);
      Stays(s, t, q, [ToolUse(name)]) && t.chat.toolNames == s.chat.toolNames[id := name]
  {
    EmitEffect(s.(chat := s.chat.(toolNames := s.chat.toolNames[id := name])), q, ToolUse(name));
  }

  /** A started tool is announced, and remembered under its item; another item is not announced. */
  lemma ToolAnnounced(env: Env, s: State, item: Item)
    requires Reachable(env, s) && s.chat.turn.Some? && s.chat.userTurnStartRequested && item.id.Some?
    ensures var t, tool := Step(env, s, NotificationLine(ItemStarted(item))), ToolOf(item.kind);
      && (tool.Some? ==> Stays(s, t, s.chat.turn.value, [ToolUse(tool.value)]))
      && (tool.Some? ==> t.chat.toolNames == s.chat.toolNames[item.id.value := tool.value])
      && (tool.None? ==> t == s)
  {
    ReachableOpen(env, s);
    ToolStarted(s, s.chat.turn.value, item);
    assert Step(env, s, NotificationLine(ItemStarted(item))) == s.HandleItemStarted(item);
  }

  lemma ToolStarted(s: State, q: nat, item: Item)
    requires Open(s, q) && s.chat.userTurnStartRequested && item.id.Some?
    ensures var t, tool := s.HandleItemStarted(item), ToolOf(item.kind);
      && (tool.Some? ==> Stays(s, t, q, [ToolUse(tool.value)]))
      && (tool.Some? ==> t.chat.toolNames == s.chat.toolNames[item.id.value := tool.value])
      && (tool.None? ==> t == s)
  {
    if ToolOf(item.kind).Some? {
      ToolUseEffect(s, q, item.id.value, ToolOf(item.kind).value);
    }
  }

  predicate Unstreamed(s: State, item: Item) {
    item.kind.AgentMessage? && item.text != "" && Streamed(s) == ""
  }

  predicate Finishes(s: State, t: State, q: nat, id: Id, item: Item) {
    && (Unstreamed(s, item) ==> Stays(s, t, q, [Delta(item.text)]))
    && (!Unstreamed(s, item) && id in s.chat.toolNames ==>
          Stays(s, t, q, [ToolResult(s.chat.toolNames[id], !(item.failed || item.error))]))
    && (!Unstreamed(s, item) && id !in s.chat.toolNames ==> t == s)
  }

  lemma FinishedEffect(s: State, q: nat, id: Id, item: Item)
    requires Open(s, q) && s.chat.userTurnStartRequested && s.chat.accText == Streamed(s) && item.id == Some(id)
    ensures Finishes(s, s.HandleItemCompleted(item), q, id, item)
  {
    StreamEffect(s, q, item.text);
    if id in s.chat.toolNames {
      EmitEffect(s, q, ToolResult(s.chat.toolNames[id], !item.failed && !item.error));
    }
  }

  /** A completed item gives the result of the tool remembered under it, good only if it neither failed nor
      erred; an agent message of which nothing was streamed gives its text. */
  lemma ItemFinished(env: Env, s: State, item: Item, thread: Option<Id>, turn: Option<Id>)
    requires Reachable(env, s) && s.chat.turn.Some? && s.chat.userTurnStartRequested && item.id.Some?
    requires !item.kind.ContextCompaction?
    ensures var t := Step(env, s, NotificationLine(ItemCompleted(item, thread, turn)));
      Finishes(s, t, s.chat.turn.value, item.id.value, item)
  {
    ReachableOpen(env, s);
    FinishedEffect(s, s.chat.turn.value, item.id.value, item);
    assert Step(env, s, NotificationLine(ItemCompleted(item, thread, turn))) == s.HandleItemCompleted(item);
  }

  /** Without a requested open turn, what a turn would have streamed reaches no queue. */
  lemma UnrequestedIsDropped(env: Env, s: State, n: Notification)
    requires s.chat.turn.None? || !s.chat.userTurnStartRequested
    requires n.AgentMessageDelta? || n.ReasoningDelta? || n.ItemStarted? || n.TurnCompleted? || n.OtherNotification?
      || (n.ItemCompleted? && !n.item.kind.ContextCompaction?)
    ensures Step(env, s, NotificationLine(n)) == s
  {
  }

  // ---- a turn begins ----

  /** `turn/start` is sent at once, or when the barrier is released; without a thread or while stopping the
      send fails. */
  predicate Begins(s: State, t: State, q: nat) {
    if s.threadId.Some? && !s.stopping
    then
      && Sends(s, t, [TurnStart(q)]) && Awaited(t, s.rpc.nextId, s.now + 20_000)
      && t.chat.userTurnStartRequested && t.failing == s.failing
    else Sends(s, t, []) && !t.chat.userTurnStartRequested && q in t.failing
  }

  lemma BeginEffect(env: Env, s: State, q: nat)
    requires s.chat.turn == Some(q) && !s.chat.userTurnStartRequested && Numbered(s)
    ensures var t := s.AfterBarrier(env, q);
      Begins(s, t, q) && t.chat == s.chat.(userTurnStartRequested := t.chat.userTurnStartRequested)
      && t.waiting == s.waiting
  {
    SendEffect(env, s.(chat := s.chat.(userTurnStartRequested := true)), TurnStart(q), REQUEST_TIMEOUT_MS);
  }

  /** A turn opens a queue of its own, in which a thread not yet announced is announced; it begins unless a
      compaction holds it back. */
  predicate Opens(s: State, t: State) {
    var q := |s.chat.queues|;
    && t.chat.turn == Some(q) && t.chat.turnTimeouts == Some(q) && t.chat.turnId.None? && |t.chat.queues| == q + 1
    && t.chat.queues[..q] == s.chat.queues && !t.chat.queues[q].ended
    && t.chat.queues[q].events == (if s.threadId.Some? && !s.threadAnnounced then [Session(s.threadId.value)] else [])
    && (s.threadId.Some? ==> t.threadAnnounced)
    && (s.compact.barrier.Some? ==>
          && Sends(s, t, []) && !t.chat.userTurnStartRequested
          && q in t.waiting && t.waiting[q] == s.compact.barrier.value)
    && (s.compact.barrier.None? ==> Begins(s, t, q))
  }

  lemma SendTurnEffect(env: Env, s: State)
    requires Numbered(s)
    ensures Opens(s, s.SendTurn(env))
  {
    OpenEffect(s);
    BeginEffect(env, s.OpenTurn(), |s.chat.queues|);
  }

  lemma TurnOpens(env: Env, s: State)
    requires Reachable(env, s) && s.chat.turn.None?
    ensures Opens(s, Step(env, s, SendTurnCall))
  {
    ReachableNumbered(env, s);
    SendTurnEffect(env, s);
  }

  lemma OpenEffect(s: State)
    ensures var q, o := |s.chat.queues|, s.OpenTurn();
      && o == s.(chat := o.chat, threadAnnounced := o.threadAnnounced, log := o.log) && CallsOf(o.log) == CallsOf(s.log)
      && o.chat.turn == Some(q) && o.chat.turnTimeouts == Some(q) && o.chat.turnId.None?
          && !o.chat.userTurnStartRequested
      && |o.chat.queues| == q + 1 && o.chat.queues[..q] == s.chat.queues && !o.chat.queues[q].ended
      && o.chat.queues[q].events == (if s.threadId.Some? && !s.threadAnnounced then [Session(s.threadId.value)] else [])
      && (s.threadId.Some? ==> o.threadAnnounced)
  {
    if s.threadId.Some? && !s.threadAnnounced {
      CallsAppend(s.log, Pushed(|s.chat.queues|, Session(s.threadId.value)));
    }
  }

  /** When its barrier is released a waiting turn begins, if it is still open. */
  lemma WaitingTurnBegins(env: Env, s: State, q: nat)
    requires Reachable(env, s) && q in s.waiting && s.waiting[q] in s.compact.resolved
    ensures var t := Step(env, s, BarrierContinuation(q));
      && q !in t.waiting
      && (s.chat.turn == Some(q) && !s.chat.userTurnStartRequested ==> Begins(s, t, q))
      && (s.chat.turn != Some(q) ==> t == s.(waiting := t.waiting))
  {
    ReachableNumbered(env, s);
    var s1 := s.(waiting := s.waiting - {q});
    if s.chat.turn == Some(q) && !s.chat.userTurnStartRequested {
      BeginEffect(env, s1, q);
    }
  }

  predicate Answers(s: State, t: State, q: nat, outcome: Outcome) {
    match outcome
    case Resolved(turn) =>
      && (s.chat.turn == Some(q) ==>
            Sends(s, t, []) && t.chat == s.chat.(turnId := if turn.Some? then turn else s.chat.turnId))
      && (s.chat.turn != Some(q) ==>
            t.chat == s.chat && Sends(s, t, if turn.Some? || s.chat.turnId.Some? then [TurnInterrupt] else []))
    case Rejected(message, notSteerable) =>
      Sends(s, t, []) && q in t.failing && (!notSteerable ==> t.failing[q] == message && t.chat == s.chat)
  }

  lemma AnswerEffect(env: Env, s: State, q: nat, outcome: Outcome)
    requires Numbered(s)
    ensures Answers(s, s.AfterTurnStart(env, q, outcome), q, outcome)
  {
    SendEffect(env, s, TurnInterrupt, REQUEST_TIMEOUT_MS);
  }

  /** The answer to `turn/start` gives the open turn its id, and interrupts a turn that is over; a refusal
      fails the send. */
  lemma TurnStartAnswered(env: Env, s: State, id: nat)
    requires Reachable(env, s) && id in s.rpc.jobs && s.rpc.jobs[id].call.TurnStart?
    ensures Answers(s, Step(env, s, JobContinuation(id)), s.rpc.jobs[id].call.q, s.rpc.jobs[id].outcome)
  {
    ReachableNumbered(env, s);
    AnswerEffect(env, s.(rpc := s.rpc.(jobs := s.rpc.jobs - {id})), s.rpc.jobs[id].call.q, s.rpc.jobs[id].outcome);
  }

  /** A failed send ends its turn with an error, if it is still open. */
  lemma FailedSendEndsTurn(env: Env, s: State, q: nat)
    requires Reachable(env, s) && q in s.failing
    ensures var t := Step(env, s, FailureContinuation(q));
      && (s.chat.turn == Some(q) ==> EndsWith(env, s, t, q, Error(s.failing[q], false)))
      && (s.chat.turn != Some(q) ==> t == s.(failing := s.failing - {q}))
  {
    if s.chat.turn == Some(q) {
      ReachableOpen(env, s);
      EndEffect(env, s.(failing := s.failing - {q}), q, Error(s.failing[q], false));
    }
  }

  // ---- a turn is cut short ----

  lemma TimeoutEffect(env: Env, s: State, q: nat, message: string)
    requires Open(s, q) && Numbered(s)
    ensures var t := s.Interrupt(env).Push(q, Error(message, false)).FinishTurn(env);
      && EndsWith(env, s, t, q, Error(message, false))
      && Sends(s, t, (if s.threadId.Some? && s.chat.turnId.Some? then [TurnInterrupt] else []) +
          CompactionCalls(env, s))
  {
    InterruptEffect(env, s);
    var s1 := s.Interrupt(env);
    EndEffect(env, s1, q, Error(message, false));
    SameEnd(env, s, s1, s1.Emit(Error(message, false)).FinishTurn(env), q, Error(message, false));
    assert s1.Push(q, Error(message, false)) == s1.Emit(Error(message, false));
  }

  lemma InterruptEffect(env: Env, s: State)
    requires Numbered(s)
    ensures var t := s.Interrupt(env);
      && t == s.(rpc := t.rpc, log := t.log) && Numbered(t) && Awaited(t, s.rpc.nextId, s.now + 20_000)
      && Sends(s, t, if s.threadId.Some? && s.chat.turnId.Some? then [TurnInterrupt] else [])
  {
    SendEffect(env, s, TurnInterrupt, REQUEST_TIMEOUT_MS);
  }

  lemma SameEnd(env: Env, s: State, s1: State, t: State, q: nat, ev: TurnEvent)
    requires s1 == s.(rpc := s1.rpc, log := s1.log) && EndsWith(env, s1, t, q, ev)
    ensures EndsWith(env, s, t, q, ev) && CompactionCalls(env, s1) == CompactionCalls(env, s)
  {
  }

  /** A timeout interrupts a turn whose id is known, and ends it with an error that is not fatal. */
  lemma TimeoutEndsTurn(env: Env, s: State, message: string)
    requires Reachable(env, s) && s.chat.turn.Some?
    ensures var t := Step(env, s, TurnTimeout(message));
      && EndsWith(env, s, t, s.chat.turn.value, Error(message, false))
      && Sends(s, t, (if s.threadId.Some? && s.chat.turnId.Some? then [TurnInterrupt] else []) +
          CompactionCalls(env, s))
  {
    ReachableOpen(env, s);
    TimeoutEffect(env, s, s.chat.turn.value, message);
    TimeoutHandled(env, s, message);
  }

  lemma TimeoutHandled(env: Env, s: State, message: string)
    requires s.chat.turn.Some? && s.chat.turnTimeouts == s.chat.turn
    ensures Step(env, s, TurnTimeout(message)) ==
      s.Interrupt(env).Push(s.chat.turn.value, Error(message, false)).FinishTurn(env)
  {
  }

  /** The exit of the process ends the turn with a fatal error. */
  lemma ExitEndsTurn(env: Env, s: State, current: bool, message: string, notSteerable: bool)
    requires Reachable(env, s) && s.chat.turn.Some?
    ensures var t := Step(env, s, ProcessExit(current, message, notSteerable));
      EndsWith(env, s, t, s.chat.turn.value, Error(message, true))
  {
    ReachableOpen(env, s);
    EndEffect(env, s.RequestsRejected(current, Rejected(message, notSteerable)), s.chat.turn.value,
        Error(message, true));
  }

  /** `stop` ends the turn without a word and lets go of the compaction. */
  lemma StopEndsTurn(env: Env, s: State)
    requires Reachable(env, s)
    ensures var t := Step(env, s, StopCall);
      && t.stopping && !t.compact.inFlight && t.compact.barrier.None? && t.chat.turn.None? && Sends(s, t, [])
      && (s.compact.barrier.Some? ==> s.compact.barrier.value in t.compact.resolved)
      && (s.chat.turn.Some? ==> Delivers(s, t, s.chat.turn.value, []) && Closes(t, s.chat.turn.value))
  {
    ReachableInv(env, s);
    var s1 := s.(stopping := true,
                 chat := if s.chat.turn.Some? then s.chat.(stopped := s.chat.stopped + {s.chat.turn.value})
                     else s.chat);
    if s.chat.turn.Some? {
      ReachableOpen(env, s);
      FinishEffect(env, s1, s.chat.turn.value);
    }
    SettleEffect(s1.FinishTurn(env));
  }

  // ---- threads ----

  lemma SettleEffect(s: State)
    ensures var t := s.SettleNativeCompact();
      && t == s.(compact := t.compact, log := t.log) && Sends(s, t, [])
      && !t.compact.inFlight && t.compact.barrier.None? && t.compact.queued == s.compact.queued
      && t.compact.thresholdLatched == s.compact.thresholdLatched
      && (s.compact.resolveBarrier.Some? ==> s.compact.resolveBarrier.value in t.compact.resolved)
  {
    if s.compact.resolveBarrier.Some? {
      CallsAppend(s.log, BarrierResolved(s.compact.resolveBarrier.value));
    }
  }

  lemma CaptureEffect(s: State, id: Id)
    requires s.threadId != Some(id) && s.compact.resolveBarrier == s.compact.barrier
    requires s.chat.turn.Some? ==> Open(s, s.chat.turn.value)
    ensures Captures(s, s.CaptureThread(id), id)
  {
    var s1 := s.(compact := s.compact.(queued := false, thresholdLatched := false));
    SettleEffect(s1);
    var s2 := s1.SettleNativeCompact();
    var s3 := s2.(threadId := Some(id), threadAnnounced := s.chat.turn.Some?, log := s2.log + [ThreadChanged]);
    CallsAppend(s2.log, ThreadChanged);
    if s.chat.turn.Some? {
      EmitEffect(s3, s.chat.turn.value, Session(id));
    }
  }

  predicate Captures(s: State, t: State, id: Id) {
    && t.threadId == Some(id) && Sends(s, t, [])
    && !t.compact.inFlight && !t.compact.queued && !t.compact.thresholdLatched
    && (s.compact.barrier.Some? ==> s.compact.barrier.value in t.compact.resolved)
    && (s.chat.turn.Some? ==> Delivers(s, t, s.chat.turn.value, [Session(id)]) && t.threadAnnounced)
    && (s.chat.turn.None? ==> t.chat == s.chat && !t.threadAnnounced)
  }

  lemma CapturePossible(env: Env, s: State)
    requires Reachable(env, s)
    ensures s.compact.resolveBarrier == s.compact.barrier && (s.chat.turn.Some? ==> Open(s, s.chat.turn.value))
  {
    ReachableInv(env, s);
    if s.chat.turn.Some? {
      ReachableOpen(env, s);
    }
  }

  /** A new thread is announced to the open turn and drops what the old one had queued, latched or in flight. */
  lemma ThreadCaptured(env: Env, s: State, id: Id)
    requires Reachable(env, s) && s.threadId != Some(id)
    ensures Captures(s, Step(env, s, NotificationLine(ThreadStarted(Some(id)))), id)
  {
    CapturePossible(env, s);
    CaptureEffect(s, id);
  }

  /** The answer to the handshake brings the thread as the notification does. */
  lemma HandshakeBringsThread(env: Env, s: State, id: nat)
    requires id in s.rpc.jobs && s.rpc.jobs[id].call.Handshake?
    ensures var t, s1 := Step(env, s, JobContinuation(id)), s.(rpc := s.rpc.(jobs := s.rpc.jobs - {id}));
      match s.rpc.jobs[id].outcome {
        case Resolved(Some(thread)) => t == Step(env, s1, NotificationLine(ThreadStarted(Some(thread))))
        case _ => t == s1
      }
  {
  }

  // ---- compaction ----

  predicate OwnThread(s: State, thread: Option<Id>) {
    s.threadId.Some? && (thread.None? || thread == s.threadId)
  }

  function UsageOf(thread: Option<Id>, tokens: Option<real>): Event {
    NotificationLine(TokenUsageUpdated(thread, tokens))
  }

  /** Usage at or above the threshold starts a compaction between turns and queues one during a turn, once until usage
      below it was seen. */
  lemma HighUsageCompacts(env: Env, s: State, thread: Option<Id>, tokens: real)
    requires Reachable(env, s) && env.compactEnabled && OwnThread(s, thread)
        && tokens >= env.CompactInputTokens() as real
    ensures var t := Step(env, s, UsageOf(thread, Some(tokens)));
      if s.compact.queued || s.compact.inFlight || s.compact.thresholdLatched then t == s
      else if s.chat.turn.Some? then t == s.(compact := s.compact.(queued := true, thresholdLatched := true))
      else
        && CompactionBegins(s, t) && t.compact.thresholdLatched && t.chat == s.chat
        && Sends(s, t, [CompactStart(s.threadId.value, |s.compact.barriers|)])
  {
    ReachableNumbered(env, s);
    if s.chat.turn.None? {
      StartQueuedEffect(env, s.(compact := s.compact.(thresholdLatched := true, queued := true)));
    }
  }

  /** Usage below the threshold, or not finite, clears the latch of an idle compaction. */
  lemma LowUsageRearms(env: Env, s: State, thread: Option<Id>, tokens: Option<real>)
    requires env.compactEnabled && OwnThread(s, thread)
    requires tokens.None? || tokens.value < env.CompactInputTokens() as real
    ensures var t := Step(env, s, UsageOf(thread, tokens));
      && Sends(s, t, []) && t.chat == s.chat
      && (s.compact.queued || s.compact.inFlight ==> t.compact == s.compact)
      && (!s.compact.queued && !s.compact.inFlight ==> t.compact == s.compact.(thresholdLatched := false))
  {
    CallsAppend(s.log, UsageLow(!s.compact.queued && !s.compact.inFlight));
  }

  /** Usage of another thread, or with compaction off, changes nothing. */
  lemma OtherUsageIgnored(env: Env, s: State, thread: Option<Id>, tokens: Option<real>)
    requires !env.compactEnabled || !OwnThread(s, thread)
    ensures Step(env, s, UsageOf(thread, tokens)) == s
  {
  }

  /** The threshold is what is configured, less its fraction, if that is positive. */
  lemma Threshold(env: Env)
    ensures var configured := env.configuredInputTokens;
      if configured.Some? && configured.value > 0.0
      then env.CompactInputTokens() as real <= configured.value < env.CompactInputTokens() as real + 1.0
      else env.CompactInputTokens() == 200_000
  {
  }

  /** The compaction in flight is over: its barrier is released, and no request sent. */
  predicate Released(s: State, t: State) {
    && !t.compact.inFlight && t.compact.barrier.None? && t.chat == s.chat && Sends(s, t, [])
    && s.compact.barrier.Some? && s.compact.barrier.value in t.compact.resolved
    && t.compact.thresholdLatched == s.compact.thresholdLatched
  }

  /** The notices that a compaction is complete: `thread/compacted`, or a completed item of that kind. */
  predicate CompactionNotice(n: Notification, thread: Option<Id>, turn: Option<Id>) {
    || n == ThreadCompacted(thread, turn)
    || (n.ItemCompleted? && n.item.kind.ContextCompaction? && n.thread == thread && n.turn == turn)
  }

  /** A notice releases the barrier if and only if it names the thread and the turn of the compaction in flight. */
  lemma NoticeReleases(env: Env, s: State, n: Notification, thread: Option<Id>, turn: Option<Id>)
    requires Reachable(env, s) && CompactionNotice(n, thread, turn)
    ensures var t := Step(env, s, NotificationLine(n));
      if s.compact.inFlight && thread.Some? && thread == s.compact.threadId && turn.Some? && turn == s.compact.turnId
      then Released(s, t) else t == s
  {
    ReachableInv(env, s);
    SettleEffect(s.(compact := s.compact.(queued := false)));
  }

  /** The first turn the server starts on the thread of a compaction in flight is the compaction's, and no other is. */
  lemma CompactionTurnIdentified(env: Env, s: State, thread: Option<Id>, turn: Option<Id>)
    requires s.compact.inFlight && !s.chat.userTurnStartRequested
    ensures var t, first := Step(env, s, NotificationLine(TurnStarted(thread, turn))), s.compact.turnId.None?;
      t == if thread == s.compact.threadId && turn.Some? && first then s.(compact := s.compact.(turnId := turn)) else s
  {
  }

  /** So a compaction whose turn is started and then reported complete releases its barrier. */
  lemma CompactionCompletes(env: Env, s: State, turn: Id)
    requires Reachable(env, s) && s.compact.inFlight && s.compact.turnId.None?
    ensures var t := Step(env, s, NotificationLine(TurnStarted(s.compact.threadId, Some(turn))));
      Released(t, Step(env, t, NotificationLine(ThreadCompacted(s.compact.threadId, Some(turn)))))
  {
    ReachableInv(env, s);
    var started := NotificationLine(TurnStarted(s.compact.threadId, Some(turn)));
    CompactionTurnIdentified(env, s, s.compact.threadId, Some(turn));
    StepReachable(env, s, started);
    NoticeReleases(env, Step(env, s, started), ThreadCompacted(s.compact.threadId, Some(turn)), s.compact.threadId,
        Some(turn));
  }

  /** The acknowledgement arms a timer that gives the compaction at least two minutes and at least the hard
      limit of a turn; a refusal releases the barrier. */
  lemma AckDecides(env: Env, s: State, id: nat)
    requires Reachable(env, s) && id in s.rpc.jobs && s.rpc.jobs[id].call.CompactStart?
    requires s.compact.inFlight && s.compact.threadId == Some(s.rpc.jobs[id].call.thread)
    ensures var t := Step(env, s, JobContinuation(id));
      && (s.rpc.jobs[id].outcome.Rejected? ==> Released(s, t))
      && (s.rpc.jobs[id].outcome.Resolved? ==>
            && t.compact.inFlight && t.compact.barrier == s.compact.barrier && t.compact.timer.Some?
            && t.compact.timer.value in t.compact.timers && Sends(s, t, [])
            && var due := t.compact.timers[t.compact.timer.value].deadline;
               due >= s.now + 120_000 && due >= s.now + env.hardTimeoutMs
               && (due == s.now + 120_000 || due == s.now + env.hardTimeoutMs))
  {
    ReachableInv(env, s);
    SettleEffect(s.(rpc := s.rpc.(jobs := s.rpc.jobs - {id})));
  }

  /** A completion timer that goes off releases the barrier of a compaction of its thread, and else nothing. */
  lemma TimerReleases(env: Env, s: State, timer: nat)
    requires Reachable(env, s) && timer in s.compact.timers && s.compact.timers[timer].deadline <= s.now
    ensures var t := Step(env, s, CompactTimeout(timer));
      if s.compact.inFlight && s.compact.threadId == Some(s.compact.timers[timer].thread)
      then Released(s, t) else t == s.(compact := s.compact.(timers := s.compact.timers - {timer}))
  {
    ReachableInv(env, s);
    SettleEffect(s.(compact := s.compact.(timers := s.compact.timers - {timer})));
  }

  // ---- requests ----

  /** A request not answered by its deadline is rejected, and not before. */
  lemma DeadlineRejects(env: Env, s: State, id: nat)
    requires id in s.rpc.pending
    ensures var t := Step(env, s, RequestTimeout(id));
      if s.rpc.pending[id].deadline <= s.now
      then id !in t.rpc.pending && id in t.rpc.jobs && t.rpc.jobs[id].call == s.rpc.pending[id].call
          && t.rpc.jobs[id].outcome.Rejected?
      else t == s
  {
  }

  /** Finishing a turn sends at most one new request, and leaves the others alone. */
  lemma FinishKeepsJobs(env: Env, s: State, id: nat)
    requires id < s.rpc.nextId
    ensures var t := s.FinishTurn(env);
      && (id in t.rpc.pending <==> id in s.rpc.pending) && t.rpc.online == s.rpc.online
      && (id in s.rpc.jobs ==> id in t.rpc.jobs && t.rpc.jobs[id] == s.rpc.jobs[id])
  {
  }

  /** The exit of a process rejects each pending request. */
  lemma ExitRejects(env: Env, s: State, current: bool, message: string, notSteerable: bool, id: nat)
    requires Reachable(env, s) && id in s.rpc.pending
    ensures var t := Step(env, s, ProcessExit(current, message, notSteerable));
      && id !in t.rpc.pending && id in t.rpc.jobs
      && t.rpc.jobs[id] == Job(s.rpc.pending[id].call, Rejected(message, notSteerable))
      && (current ==> !t.rpc.online) && (!current ==> t.rpc.online == s.rpc.online)
  {
    ReachableInv(env, s);
    var s1 := s.RequestsRejected(current, Rejected(message, notSteerable));
    var s2 := s1.Emit(Error(message, true));
    assert s2.rpc == s1.rpc;
    FinishKeepsJobs(env, s2, id);
  }

  /** Starting sends the handshake to a live process. */
  lemma StartShakesHands(env: Env, s: State)
    requires Reachable(env, s)
    ensures var t := Step(env, s, StartCall);
      && Sends(s, t, [Handshake]) && Awaited(t, s.rpc.nextId, s.now + 20_000)
      && t.rpc.online && !t.stopping && t.chat == s.chat
    ensures var t := Step(env, s, HandshakeCall);
      Sends(s, t, [Handshake]) && Awaited(t, s.rpc.nextId, s.now + 20_000) && t.chat == s.chat
  {
    ReachableNumbered(env, s);
    SendEffect(env, s, Handshake, REQUEST_TIMEOUT_MS);
    SendEffect(env, s.(stopping := false, rpc := s.rpc.(online := true)), Handshake, REQUEST_TIMEOUT_MS);
  }

  /** Interrupting sends `turn/interrupt` if the turn's id is known. */
  lemma InterruptAsks(env: Env, s: State)
    requires Reachable(env, s)
    ensures var t := Step(env, s, InterruptCall);
      && Sends(s, t, if s.threadId.Some? && s.chat.turnId.Some? then [TurnInterrupt] else []) && t.chat == s.chat
      && Awaited(t, s.rpc.nextId, s.now + 20_000)
  {
    ReachableNumbered(env, s);
    InterruptEffect(env, s);
  }

  /** A turn's id is the one the server names last. */
  lemma TurnIdFollows(env: Env, s: State, thread: Option<Id>, turn: Id)
    requires s.chat.turn.Some? && s.chat.userTurnStartRequested
    ensures Step(env, s, NotificationLine(TurnStarted(thread, Some(turn)))) == s.(chat := s.chat.(turnId := Some(turn)))
  {
  }
}
