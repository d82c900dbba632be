/** What every step of the Codex protocol keeps. */
module CodexInvariant {
  import opened Options
  import opened TurnEvents
  import opened CodexProtocol

  // ---- a monitor that reads nothing but the log ----

  /** `open` is the barrier made and not resolved, `made` counts barriers, `rearmed` says that
      usage was seen low (or the thread changed) since the last compaction request,
      `outstanding` are the requests not settled, `issued` is the next request number. */
  datatype Watch = Watch(open: Option<nat>, made: nat, rearmed: bool, outstanding: set<nat>, issued: nat)

  const UNSEEN := Watch(None, 0, true, {}, 1)

  function Next(w: Watch, a: Act): Watch {
    match a
    case Called(id, call) =>
      w.(outstanding := w.outstanding + {id}, issued := id + 1, rearmed := w.rearmed && !call.CompactStart?)
    case Settled(ids) => w.(outstanding := w.outstanding - ids)
    case BarrierMade(b) => w.(open := Some(b), made := w.made + 1)
    case BarrierResolved(_) => w.(open := None)
    case UsageLow(idle) => w.(rearmed := w.rearmed || idle)
    case ThreadChanged => w.(rearmed := true)
    case _ => w
  }

  /** The rules of the protocol, as they stand for one more act. */
  predicate Legal(w: Watch, a: Act) {
    match a
    case Called(id, call) =>
      && id == w.issued
      && (call.TurnStart? ==> w.open.None?)
      && (call.CompactStart? ==> w.open == Some(call.barrier) && w.rearmed)
    case Settled(ids) => ids <= w.outstanding
    case Pushed(_, ev) => ev.Chat() ==> w.open.None?
    case BarrierMade(b) => w.open.None? && b == w.made
    case BarrierResolved(b) => w.open == Some(b)
    case _ => true
  }

  function Observe(log: seq<Act>): Watch {
    if log == [] then UNSEEN else Next(Observe(log[..|log| - 1]), log[|log| - 1])
  }

  ghost predicate LegalAt(log: seq<Act>, i: nat)
    requires i < |log|
  {
    Legal(Observe(log[..i]), log[i])
  }

  ghost predicate LegalLog(log: seq<Act>) {
    forall i :: 0 <= i < |log| ==> LegalAt(log, i)
  }

  lemma Extend(log: seq<Act>, a: Act)
    requires LegalLog(log)
    ensures Observe(log + [a]) == Next(Observe(log), a)
    ensures Legal(Observe(log), a) ==> LegalLog(log + [a])
  {
    var longer := log + [a];
    assert longer[..|log|] == log;
    forall i | 0 <= i < |longer| && Legal(Observe(log), a)
      ensures LegalAt(longer, i)
    {
      if i < |log| {
        assert longer[..i] == log[..i];
        assert LegalAt(log, i);
      }
    }
  }

  // ---- the invariant, record by record ----

  /** A compaction is in flight exactly when a barrier is unresolved, and then it is the newest
      barrier and the compaction is of the current thread; every other barrier is resolved. */
  ghost predicate CompactInv(c: Compaction, threadId: Option<Id>) {
    && c.resolveBarrier == c.barrier
    && (c.inFlight <==> c.barrier.Some?)
    && (c.inFlight ==> threadId.Some? && c.threadId == threadId)
    && (c.barrier.Some? ==> c.barrier.value == |c.barriers| - 1)
    && (!c.inFlight ==> c.timer.None?)
    && (forall b: nat :: b in c.resolved <==> b < |c.barriers| && c.barrier != Some(b))
    && (forall t :: t in c.timers ==> t < c.timerCount)
    // hysteresis
    && !(c.queued && c.inFlight)
    && (c.queued || c.inFlight ==> c.thresholdLatched)
  }

  ghost predicate RpcInv(r: Rpc) {
    && (forall id :: id in r.pending ==> id < r.nextId && id !in r.jobs)
    && (forall id :: id in r.jobs ==> id < r.nextId)
  }

  ghost predicate Holds(r: Rpc, id: nat, call: Call) {
    (id in r.pending && r.pending[id].call == call) || (id in r.jobs && r.jobs[id].call == call)
  }

  /** An unresolved barrier is always somebody's business: the compaction request that goes with
      it is unanswered, or its continuation is about to run, or the completion timer is armed. */
  ghost predicate Attended(c: Compaction, r: Rpc) {
    c.inFlight && c.barrier.Some? && c.barrier.value < |c.barriers| && c.threadId.Some? ==>
      || Holds(r, c.barriers[c.barrier.value].callId, CompactStart(c.threadId.value, c.barrier.value))
      || (c.timer.Some? && c.timer.value in c.timers && c.timers[c.timer.value].thread == c.threadId.value)
  }

  /** A turn that waits for a barrier waits for the one in flight, if it is still open. */
  ghost predicate WaitingInv(waiting: map<nat, nat>, chat: Chat, c: Compaction) {
    forall q :: q in waiting ==>
      && q < |chat.queues| && waiting[q] < |c.barriers|
      && (chat.turn == Some(q) && c.barrier.Some? ==> c.barrier.value == waiting[q])
  }

  ghost predicate UsedBefore(events: seq<TurnEvent>, i: int, name: string)
    requires 0 <= i <= |events|
  {
    exists k :: 0 <= k < i && events[k] == ToolUse(name)
  }

  ghost predicate CoherentAt(events: seq<TurnEvent>, i: nat)
    requires i < |events|
  {
    && (events[i].ToolResult? ==> UsedBefore(events, i, events[i].name))
    && (events[i].Done? ==> events[i].finalText == DeltaText(events[..i]))
  }

  /** Tool results answer tool uses of the same name, and a final text is the text streamed. */
  ghost predicate Coherent(events: seq<TurnEvent>) {
    forall i :: 0 <= i < |events| ==> CoherentAt(events, i)
  }

  ghost predicate NoTerminal(events: seq<TurnEvent>) {
    forall i :: 0 <= i < |events| ==> !events[i].Terminal()
  }

  /** One terminal event, and it is the last. */
  ghost predicate Concluded(events: seq<TurnEvent>) {
    events != [] && events[|events| - 1].Terminal() && NoTerminal(events[..|events| - 1])
  }

  ghost predicate QueueInv(chat: Chat, q: nat)
    requires q < |chat.queues|
  {
    var queue := chat.queues[q];
    && Coherent(queue.events)
    && (queue.ended <==> chat.turn != Some(q))
    && (!queue.ended ==> NoTerminal(queue.events))
    && (queue.ended ==> Concluded(queue.events) || (q in chat.stopped && NoTerminal(queue.events)))
  }

  /** What the open turn's fields remember of its queue. */
  ghost predicate OpenInv(chat: Chat) {
    chat.turn.Some? ==>
      && chat.turn.value < |chat.queues|
      && chat.accText == DeltaText(chat.queues[chat.turn.value].events)
      && forall id :: id in chat.toolNames ==>
           UsedBefore(chat.queues[chat.turn.value].events, |chat.queues[chat.turn.value].events|, chat.toolNames[id])
  }

  ghost predicate ChatInv(chat: Chat) {
    && chat.turnTimeouts == chat.turn
    && (chat.userTurnStartRequested ==> chat.turn.Some?)
    && OpenInv(chat)
    && forall q: nat :: q < |chat.queues| ==> QueueInv(chat, q)
  }

  /** The log obeys the rules and tells the same story as the fields. */
  ghost predicate LogInv(log: seq<Act>, c: Compaction, r: Rpc) {
    var w := Observe(log);
    && LegalLog(log)
    && w.open == c.barrier
    && w.made == |c.barriers|
    && w.outstanding == r.pending.Keys
    && w.issued == r.nextId
    && (c.queued || !c.thresholdLatched ==> w.rearmed)
  }

  /** What prompt timers add: every compaction request is answered or timed out within the ack
      limit of its barrier, late answers of earlier compactions included, so the completion
      timer of the barrier in flight never runs past both limits. */
  ghost predicate Timed(env: Env, r: Rpc, c: Compaction, now: int) {
    env.prompt ==>
      && (forall id :: id in r.pending ==> now <= r.pending[id].deadline)
      && (forall t :: t in c.timers ==> now <= c.timers[t].deadline)
      && (forall id :: id in r.pending && r.pending[id].call.CompactStart? ==>
          AckDue(c, r.pending[id].call.barrier, r.pending[id].deadline))
      && (forall id :: id in r.jobs && r.jobs[id].call.CompactStart? ==> AckDue(c, r.jobs[id].call.barrier, now))
      && (forall b: nat :: b < |c.barriers| ==> c.barriers[b].madeAt <= now)
      && (forall b: nat :: b < |c.barriers| ==> c.barriers[b].madeAt <= c.barriers[|c.barriers| - 1].madeAt)
      && (c.inFlight && c.barriers != [] && c.timer.Some? && c.timer.value in c.timers ==>
           c.timers[c.timer.value].deadline <= ReleaseDue(env, c.barriers[|c.barriers| - 1]))
  }

  predicate AckDue(c: Compaction, b: nat, at: int) {
    b < |c.barriers| && at <= c.barriers[b].madeAt + COMPACT_START_ACK_TIMEOUT_MS
  }

  function ReleaseDue(env: Env, b: Barrier): int {
    b.madeAt + COMPACT_START_ACK_TIMEOUT_MS + env.CompletionTimeoutMs()
  }

  ghost predicate Fields(s: State) {
    && CompactInv(s.compact, s.threadId)
    && RpcInv(s.rpc)
    && Attended(s.compact, s.rpc)
    && (s.chat.userTurnStartRequested ==> !s.compact.inFlight)
    && WaitingInv(s.waiting, s.chat, s.compact)
  }

  ghost predicate Inv(env: Env, s: State) {
    && Fields(s)
    && ChatInv(s.chat)
    && LogInv(s.log, s.compact, s.rpc)
    && Timed(env, s.rpc, s.compact, s.now)
  }

  // ---- requests ----

  lemma SendLog(env: Env, log: seq<Act>, c: Compaction, r: Rpc, call: Call, deadline: int)
    requires LogInv(log, c, r) && RpcInv(r) && Legal(Observe(log), Called(r.nextId, call))
    requires call.CompactStart? ==> c.thresholdLatched && !c.queued
    ensures r.Delivers(env) ==> LogInv(log + [Called(r.nextId, call)], c, r.Send(env, call, deadline))
    ensures !r.Delivers(env) ==>
        LogInv(log + [Called(r.nextId, call)] + [Settled({r.nextId})], c, r.Send(env, call, deadline))
  {
    Extend(log, Called(r.nextId, call));
    Extend(log + [Called(r.nextId, call)], Settled({r.nextId}));
  }

  /** A request may be sent as far as its own bookkeeping is concerned; a compaction request has
      a barrier made just now. */
  lemma SendRpc(env: Env, c: Compaction, r: Rpc, call: Call, now: int, timeoutMs: nat)
    requires RpcInv(r) && Timed(env, r, c, now)
    requires call.CompactStart? ==> AckDue(c, call.barrier, now + timeoutMs)
    ensures RpcInv(r.Send(env, call, now + timeoutMs)) && Timed(env, r.Send(env, call, now + timeoutMs), c, now)
    ensures Holds(r.Send(env, call, now + timeoutMs), r.nextId, call)
    ensures forall id, other :: Holds(r, id, other) ==> Holds(r.Send(env, call, now + timeoutMs), id, other)
  {
  }

  lemma SendFields(env: Env, s: State, call: Call, timeoutMs: nat)
    requires Fields(s) && Timed(env, s.rpc, s.compact, s.now) && !call.CompactStart?
    ensures Fields(s.Send(env, call, timeoutMs))
    ensures Timed(env, s.Send(env, call, timeoutMs).rpc, s.compact, s.now)
  {
    SendRpc(env, s.compact, s.rpc, call, s.now, timeoutMs);
  }

  lemma SendKeeps(env: Env, s: State, call: Call, timeoutMs: nat)
    requires Inv(env, s) && Legal(Observe(s.log), Called(s.rpc.nextId, call)) && !call.CompactStart?
    ensures Inv(env, s.Send(env, call, timeoutMs))
  {
    SendFields(env, s, call, timeoutMs);
    SendLog(env, s.log, s.compact, s.rpc, call, s.now + timeoutMs);
  }

  lemma AnswerKeeps(env: Env, s: State, id: nat, outcome: Outcome)
    requires Inv(env, s)
    ensures Inv(env, s.Answer(id, outcome))
  {
    if id in s.rpc.pending {
      Extend(s.log, Settled({id}));
      AnswerRpc(env, s.compact, s.rpc, id, outcome, s.now);
    }
  }

  lemma AnswerRpc(env: Env, c: Compaction, r: Rpc, id: nat, outcome: Outcome, now: int)
    requires RpcInv(r) && Timed(env, r, c, now) && id in r.pending
    ensures RpcInv(r.Answer(id, outcome)) && Timed(env, r.Answer(id, outcome), c, now)
    ensures forall k, call :: Holds(r, k, call) ==> Holds(r.Answer(id, outcome), k, call)
  {
  }

  lemma InterruptKeeps(env: Env, s: State)
    requires Inv(env, s)
    ensures Inv(env, s.Interrupt(env))
  {
    if s.threadId.Some? && s.chat.turnId.Some? {
      SendKeeps(env, s, TurnInterrupt, REQUEST_TIMEOUT_MS);
    }
  }

  // ---- native compaction ----

  lemma SettleCompaction(env: Env, c: Compaction, threadId: Option<Id>, log: seq<Act>, r: Rpc, now: int)
    requires CompactInv(c, threadId) && LogInv(log, c, r) && Timed(env, r, c, now)
    ensures Timed(env, r, c.Settle(), now)
    ensures CompactInv(c.Settle(), threadId)
    ensures LogInv(
      if c.resolveBarrier.Some? then log + [BarrierResolved(c.resolveBarrier.value)] else log, c.Settle(), r)
  {
    if c.barrier.Some? {
      Extend(log, BarrierResolved(c.barrier.value));
    }
  }

  lemma SettleKeeps(env: Env, s: State)
    requires Inv(env, s)
    ensures Inv(env, s.SettleNativeCompact())
  {
    SettleCompaction(env, s.compact, s.threadId, s.log, s.rpc, s.now);
  }

  lemma StartQueuedKeeps(env: Env, s: State)
    requires Inv(env, s)
    ensures Inv(env, s.StartQueuedNativeCompact(env))
  {
    if s.CanStartCompact(env) {
      var b, id := |s.compact.barriers|, s.rpc.nextId;
      var c, call := s.compact.Begin(s.threadId.value, s.now, id), CompactStart(s.threadId.value, b);
      BeginKeeps(env, s.compact, s.threadId.value, s.now, s.rpc, s.log);
      SendLog(env, s.log + [BarrierMade(b)], c, s.rpc, call, s.now + COMPACT_START_ACK_TIMEOUT_MS);
      SendRpc(env, c, s.rpc, call, s.now, COMPACT_START_ACK_TIMEOUT_MS);
    }
  }

  lemma BeginKeeps(env: Env, c: Compaction, thread: Id, now: int, r: Rpc, log: seq<Act>)
    requires CompactInv(c, Some(thread)) && LogInv(log, c, r) && Timed(env, r, c, now) && c.queued && !c.inFlight
    ensures Timed(env, r, c.Begin(thread, now, r.nextId), now)
    ensures CompactInv(c.Begin(thread, now, r.nextId), Some(thread))
    ensures LegalLog(log + [BarrierMade(|c.barriers|)])
    ensures LogInv(log + [BarrierMade(|c.barriers|)], c.Begin(thread, now, r.nextId), r)
    ensures Observe(log + [BarrierMade(|c.barriers|)]).rearmed
  {
    Extend(log, BarrierMade(|c.barriers|));
  }

  // ---- events of the open turn ----

  lemma CoherentPush(events: seq<TurnEvent>, ev: TurnEvent)
    requires Coherent(events)
    requires ev.ToolResult? ==> UsedBefore(events, |events|, ev.name)
    requires ev.Done? ==> ev.finalText == DeltaText(events)
    ensures Coherent(events + [ev])
    ensures forall name :: UsedBefore(events, |events|, name) ==> UsedBefore(events + [ev], |events| + 1, name)
    ensures ev.ToolUse? ==> UsedBefore(events + [ev], |events| + 1, ev.name)
  {
    var longer := events + [ev];
    forall i, name | 0 <= i <= |events| && UsedBefore(events, i, name)
      ensures UsedBefore(longer, i, name)
    {
      var k :| 0 <= k < i && events[k] == ToolUse(name);
      assert longer[k] == ToolUse(name);
    }
    assert longer[|events|] == ev;
    forall i | 0 <= i < |longer|
      ensures CoherentAt(longer, i)
    {
      assert longer[..i] == events[..i];
      if i < |events| {
        assert CoherentAt(events, i);
      } else {
        assert events[..i] == events;
      }
    }
  }

  /** `after` is `before` with `ev` delivered to the open turn, and the fields that remember it updated. */
  ghost predicate Delivered(before: Chat, after: Chat, ev: TurnEvent)
    requires before.turn.Some? && before.Accepts(before.turn.value)
  {
    && after == before.(accText := before.accText + (if ev.Delta? then ev.text else ""), toolNames := after.toolNames)
                      .Push(before.turn.value, ev)
    && forall id :: id in after.toolNames ==>
         (id in before.toolNames && after.toolNames[id] == before.toolNames[id]) || ev == ToolUse(after.toolNames[id])
  }

  lemma DeliverKeeps(before: Chat, after: Chat, ev: TurnEvent)
    requires ChatInv(before) && before.turn.Some? && before.Accepts(before.turn.value) && !ev.Terminal()
    requires Delivered(before, after, ev)
    requires ev.ToolResult? ==> exists id :: id in before.toolNames && before.toolNames[id] == ev.name
    ensures ChatInv(after)
  {
    var q := before.turn.value;
    var events := before.queues[q].events;
    assert QueueInv(before, q);
    DeliveredEvents(before, events, ev);
    assert OpenInv(after);
    forall k: nat | k < |after.queues|
      ensures QueueInv(after, k)
    {
      assert QueueInv(before, k);
      assert after.queues[k] == if k == q then Queue(events + [ev], false) else before.queues[k];
    }
  }

  lemma NoTerminalPush(events: seq<TurnEvent>, ev: TurnEvent)
    requires NoTerminal(events) && !ev.Terminal()
    ensures NoTerminal(events + [ev])
  {
  }

  lemma DeliveredEvents(before: Chat, events: seq<TurnEvent>, ev: TurnEvent)
    requires Coherent(events) && NoTerminal(events) && !ev.Terminal()
    requires forall id :: id in before.toolNames ==> UsedBefore(events, |events|, before.toolNames[id])
    requires ev.ToolResult? ==> exists id :: id in before.toolNames && before.toolNames[id] == ev.name
    ensures Coherent(events + [ev]) && NoTerminal(events + [ev])
    ensures DeltaText(events + [ev]) == DeltaText(events) + if ev.Delta? then ev.text else ""
    ensures forall id :: id in before.toolNames ==> UsedBefore(events + [ev], |events| + 1, before.toolNames[id])
    ensures ev.ToolUse? ==> UsedBefore(events + [ev], |events| + 1, ev.name)
  {
    if ev.ToolResult? {
      var id :| id in before.toolNames && before.toolNames[id] == ev.name;
      assert UsedBefore(events, |events|, before.toolNames[id]);
    }
    CoherentPush(events, ev);
    DeltaTextAppend(events, ev);
    NoTerminalPush(events, ev);
  }

  lemma OpenAccepts(s: State)
    requires ChatInv(s.chat) && s.chat.turn.Some?
    ensures s.chat.Accepts(s.chat.turn.value)
  {
    assert QueueInv(s.chat, s.chat.turn.value);
  }

  /** A non-terminal event reaches the open queue. */
  lemma EmitKeeps(env: Env, s: State, s': State, ev: TurnEvent)
    requires Inv(env, s) && s.chat.turn.Some? && s.chat.Accepts(s.chat.turn.value) && !ev.Terminal()
    requires ev.Chat() ==> !s.compact.inFlight
    requires s' == s.(chat := s'.chat, log := s.log + [Pushed(s.chat.turn.value, ev)])
    requires Delivered(s.chat, s'.chat, ev)
    requires ev.ToolResult? ==> exists id :: id in s.chat.toolNames && s.chat.toolNames[id] == ev.name
    ensures Inv(env, s')
  {
    Extend(s.log, Pushed(s.chat.turn.value, ev));
    DeliverKeeps(s.chat, s'.chat, ev);
  }

  lemma ConcludedPush(events: seq<TurnEvent>, ev: TurnEvent)
    requires Coherent(events) && NoTerminal(events) && ev.Terminal()
    requires ev.Done? ==> ev.finalText == DeltaText(events)
    ensures Coherent(events + [ev]) && Concluded(events + [ev])
  {
    CoherentPush(events, ev);
    assert (events + [ev])[..|events|] == events;
  }

  lemma ConcludeKeeps(chat: Chat, ev: TurnEvent)
    requires ChatInv(chat) && chat.turn.Some? && chat.Accepts(chat.turn.value) && ev.Terminal()
    requires ev.Done? ==> ev.finalText == chat.accText
    ensures ChatInv(chat.Push(chat.turn.value, ev).Close())
  {
    var q := chat.turn.value;
    var after := chat.Push(q, ev).Close();
    assert QueueInv(chat, q);
    ConcludedPush(chat.queues[q].events, ev);
    forall k: nat | k < |after.queues|
      ensures QueueInv(after, k)
    {
      assert QueueInv(chat, k);
      if k == q {
        assert after.queues[k] == Queue(chat.queues[q].events + [ev], true);
      } else {
        assert after.queues[k] == chat.queues[k];
      }
    }
  }

  /** A turn ends with `ev`, and a queued compaction may start at once. */
  lemma FinishKeeps(env: Env, s: State, ev: TurnEvent)
    requires Inv(env, s) && s.chat.turn.Some? && ev.Terminal()
    requires ev.Done? ==> !s.compact.inFlight && ev.finalText == s.chat.accText
    ensures Inv(env, s.Emit(ev).FinishTurn(env))
  {
    OpenAccepts(s);
    Extend(s.log, Pushed(s.chat.turn.value, ev));
    ConcludeKeeps(s.chat, ev);
    var closed := s.Emit(ev).CloseTurn();
    assert Inv(env, closed);
    StartQueuedKeeps(env, closed);
  }

  lemma CloseStoppedKeeps(chat: Chat)
    requires ChatInv(chat) && (chat.turn.Some? ==> chat.turn.value in chat.stopped)
    ensures ChatInv(chat.Close())
  {
    forall k: nat | k < |chat.Close().queues|
      ensures QueueInv(chat.Close(), k)
    {
      assert QueueInv(chat, k);
    }
  }

  lemma StopKeeps(env: Env, s: State)
    requires Inv(env, s)
    ensures Inv(env, s.Stop(env))
  {
    var chat := if s.chat.turn.Some? then s.chat.(stopped := s.chat.stopped + {s.chat.turn.value}) else s.chat;
    forall k: nat | k < |chat.queues|
      ensures QueueInv(chat, k)
    {
      assert QueueInv(s.chat, k);
    }
    CloseStoppedKeeps(chat);
    SettleKeeps(env, s.(stopping := true, chat := chat.Close()));
  }

  // ---- threads and turns ----

  lemma CaptureThreadKeeps(env: Env, s: State, id: Id)
    requires Inv(env, s)
    ensures Inv(env, s.CaptureThread(id))
  {
    if s.threadId != Some(id) {
      var s1 := s.(compact := s.compact.(queued := false, thresholdLatched := false)).SettleNativeCompact();
      var s2 := s1.(threadId := Some(id), threadAnnounced := s.chat.turn.Some?, log := s1.log + [ThreadChanged]);
      ChangeThreadKeeps(env, s, s1.log, id);
      if s.chat.turn.Some? {
        OpenAccepts(s2);
        EmitKeeps(env, s2, s2.Emit(Session(id)), Session(id));
      }
    }
  }

  lemma ChangeThreadKeeps(env: Env, s: State, log: seq<Act>, id: Id)
    requires Inv(env, s)
    requires log == s.(compact := s.compact.(queued := false, thresholdLatched := false)).SettleNativeCompact().log
    ensures var c := s.compact.(queued := false, thresholdLatched := false).Settle();
      && CompactInv(c, Some(id)) && !c.inFlight && Timed(env, s.rpc, c, s.now)
      && LogInv(log + [ThreadChanged], c, s.rpc)
      && WaitingInv(s.waiting, s.chat, c) && Attended(c, s.rpc)
  {
    SettleCompaction(env, s.compact, s.threadId, s.log, s.rpc, s.now);
    ThreadChangeLogged(log, s.compact.Settle(), s.rpc);
  }

  lemma ThreadChangeLogged(log: seq<Act>, c: Compaction, r: Rpc)
    requires LogInv(log, c, r)
    ensures LogInv(log + [ThreadChanged], c.(queued := false, thresholdLatched := false), r)
  {
    Extend(log, ThreadChanged);
  }

  lemma OpenKeeps(chat: Chat)
    requires ChatInv(chat) && chat.turn.None?
    ensures ChatInv(chat.Open())
  {
    forall k: nat | k < |chat.Open().queues|
      ensures QueueInv(chat.Open(), k)
    {
      if k < |chat.queues| {
        assert QueueInv(chat, k);
      }
    }
  }

  lemma OpenTurnKeeps(env: Env, s: State)
    requires Inv(env, s) && s.chat.turn.None?
    ensures Inv(env, s.OpenTurn()) && s.OpenTurn().chat.turn == Some(|s.chat.queues|)
    ensures s.OpenTurn().compact == s.compact
  {
    OpenKeeps(s.chat);
    var s0 := s.(chat := s.chat.Open());
    assert Inv(env, s0);
    if s.threadId.Some? && !s.threadAnnounced {
      var s1, ev := s0.(threadAnnounced := true), Session(s.threadId.value);
      OpenAccepts(s1);
      EmitKeeps(env, s1, s1.Push(|s.chat.queues|, ev), ev);
    }
  }

  lemma AfterBarrierKeeps(env: Env, s: State, q: nat)
    requires Inv(env, s) && (s.chat.turn == Some(q) ==> !s.compact.inFlight)
    ensures Inv(env, s.AfterBarrier(env, q))
  {
    if s.chat.turn == Some(q) && !s.stopping && s.threadId.Some? {
      var s1 := s.(chat := s.chat.(userTurnStartRequested := true));
      ChatFlagKeeps(s.chat, s1.chat);
      SendKeeps(env, s1, TurnStart(q), REQUEST_TIMEOUT_MS);
    }
  }

  /** The turn id and, for an open turn, the request flag are free to change. */
  lemma ChatFlagKeeps(chat: Chat, after: Chat)
    requires ChatInv(chat)
    requires after == chat.(turnId := after.turnId, userTurnStartRequested := after.userTurnStartRequested)
    requires after.userTurnStartRequested ==> chat.turn.Some?
    ensures ChatInv(after)
  {
    forall k: nat | k < |after.queues|
      ensures QueueInv(after, k)
    {
      assert QueueInv(chat, k);
    }
  }

  lemma SendTurnKeeps(env: Env, s: State)
    requires Inv(env, s) && s.chat.turn.None?
    ensures Inv(env, s.SendTurn(env))
  {
    OpenTurnKeeps(env, s);
    if s.compact.barrier.None? {
      AfterBarrierKeeps(env, s.OpenTurn(), |s.chat.queues|);
    }
  }

  lemma AfterTurnStartKeeps(env: Env, s: State, q: nat, outcome: Outcome)
    requires Inv(env, s)
    ensures Inv(env, s.AfterTurnStart(env, q, outcome))
  {
    match outcome
    case Resolved(id) =>
      if s.chat.turn == Some(q) {
        ChatFlagKeeps(s.chat, s.AfterTurnStart(env, q, outcome).chat);
      } else if id.Some? || s.chat.turnId.Some? {
        SendKeeps(env, s, TurnInterrupt, REQUEST_TIMEOUT_MS);
      }
    case Rejected(_, _) =>
      ChatFlagKeeps(s.chat, s.AfterTurnStart(env, q, outcome).chat);
  }

  lemma FailTurnKeeps(env: Env, s: State, q: nat, message: string)
    requires Inv(env, s)
    ensures Inv(env, s.FailTurn(env, q, message))
  {
    if s.chat.turn == Some(q) {
      FinishKeeps(env, s, Error(message, false));
    }
  }

  lemma TurnTimedOutKeeps(env: Env, s: State, message: string)
    requires Inv(env, s)
    ensures Inv(env, s.TurnTimedOut(env, message))
  {
    if s.chat.turn.Some? {
      InterruptKeeps(env, s);
      FinishKeeps(env, s.Interrupt(env), Error(message, false));
    }
  }

  lemma ProcessExitedKeeps(env: Env, s: State, current: bool, message: string, notSteerable: bool)
    requires Inv(env, s)
    ensures Inv(env, s.ProcessExited(env, current, message, notSteerable))
  {
    Extend(s.log, Settled(s.rpc.pending.Keys));
    var s1 := s.RequestsRejected(current, Rejected(message, notSteerable));
    assert Inv(env, s1);
    if s.chat.turn.Some? {
      FinishKeeps(env, s1, Error(message, true));
    }
  }

  // ---- notifications ----

  lemma ConsiderKeeps(env: Env, s: State, tokens: Option<real>, thread: Option<Id>)
    requires Inv(env, s)
    ensures Inv(env, s.ConsiderNativeCompact(env, tokens, thread))
  {
    var c := s.compact;
    LowUsageKeeps(env, s);
    if !c.thresholdLatched && !c.queued && !c.inFlight {
      QueueCompactKeeps(env, s);
      StartQueuedKeeps(env, s.(compact := c.(thresholdLatched := true, queued := true)));
    }
  }

  lemma QueueCompactKeeps(env: Env, s: State)
    requires Inv(env, s) && !s.compact.thresholdLatched && !s.compact.queued && !s.compact.inFlight
    ensures Inv(env, s.(compact := s.compact.(thresholdLatched := true, queued := true)))
  {
  }

  lemma LowUsageKeeps(env: Env, s: State)
    requires Inv(env, s)
    ensures var idle := !s.compact.queued && !s.compact.inFlight;
      Inv(env, s.(compact := s.compact.(thresholdLatched := s.compact.thresholdLatched && !idle),
          log := s.log + [UsageLow(idle)]))
  {
    Extend(s.log, UsageLow(!s.compact.queued && !s.compact.inFlight));
  }

  lemma CompleteKeeps(env: Env, s: State, thread: Option<Id>, turn: Option<Id>)
    requires Inv(env, s)
    ensures Inv(env, s.CompleteNativeCompact(thread, turn))
  {
    SettleKeeps(env, s.(compact := s.compact.(queued := false)));
  }

  lemma TurnNotificationKeeps(env: Env, s: State, n: Notification)
    requires Inv(env, s)
    ensures Inv(env, s.HandleTurnNotification(env, n))
  {
    if s.chat.turn.Some? && s.chat.userTurnStartRequested {
      OpenAccepts(s);
      var s' := s.HandleTurnNotification(env, n);
      match n
      case TurnStarted(_, _) => ChatFlagKeeps(s.chat, s'.chat);
      case AgentMessageDelta(text) => StreamKeeps(env, s, text);
      case ReasoningDelta(text) => if text != "" { EmitKeeps(env, s, s', Thinking(text)); }
      case ItemStarted(item) => ItemStartedKeeps(env, s, item);
      case ItemCompleted(item, _, _) => ItemCompletedKeeps(env, s, item);
      case TurnCompleted(id, status, message) => TurnCompletedKeeps(env, s, id, status, message);
      case _ =>
    }
  }

  lemma ItemStartedKeeps(env: Env, s: State, item: Item)
    requires Inv(env, s) && s.chat.turn.Some? && s.chat.Accepts(s.chat.turn.value) && !s.compact.inFlight
    ensures Inv(env, s.HandleItemStarted(item))
  {
    if item.id.Some? {
      match item.kind
      case McpToolCall(server, tool) =>
        UseToolKeeps(env, s, item.id.value, OrElse(server, "mcp") + ":" + OrElse(tool, "tool"));
      case CommandExecution => UseToolKeeps(env, s, item.id.value, "shell (read-only)");
      case FileChange => UseToolKeeps(env, s, item.id.value, "file change");
      case _ =>
    }
  }

  lemma UseToolKeeps(env: Env, s: State, id: Id, name: string)
    requires Inv(env, s) && s.chat.turn.Some? && s.chat.Accepts(s.chat.turn.value) && !s.compact.inFlight
    ensures Inv(env, s.UseTool(id, name))
  {
    EmitKeeps(env, s, s.UseTool(id, name), ToolUse(name));
  }

  lemma ItemCompletedKeeps(env: Env, s: State, item: Item)
    requires Inv(env, s) && s.chat.turn.Some? && s.chat.Accepts(s.chat.turn.value) && !s.compact.inFlight
    ensures Inv(env, s.HandleItemCompleted(item))
  {
    if item.id.None? {
    } else if item.kind.AgentMessage? && item.text != "" && s.chat.accText == "" {
      StreamKeeps(env, s, item.text);
    } else if item.id.value in s.chat.toolNames {
      ToolResultKeeps(env, s, item.id.value, !item.failed && !item.error);
    }
  }

  lemma StreamKeeps(env: Env, s: State, text: string)
    requires Inv(env, s) && s.chat.turn.Some? && s.chat.Accepts(s.chat.turn.value) && !s.compact.inFlight
    ensures Inv(env, s.Stream(text))
  {
    EmitKeeps(env, s, s.Stream(text), Delta(text));
  }

  lemma ToolResultKeeps(env: Env, s: State, id: Id, ok: bool)
    requires Inv(env, s) && s.chat.turn.Some? && s.chat.Accepts(s.chat.turn.value) && !s.compact.inFlight
    requires id in s.chat.toolNames
    ensures Inv(env, s.Emit(ToolResult(s.chat.toolNames[id], ok)))
  {
    var ev := ToolResult(s.chat.toolNames[id], ok);
    EmitKeeps(env, s, s.Emit(ev), ev);
  }

  lemma TurnCompletedKeeps(env: Env, s: State, id: Option<Id>, status: Option<string>, message: Option<string>)
    requires Inv(env, s) && s.chat.turn.Some? && !s.compact.inFlight
    ensures Inv(env, s.HandleTurnCompleted(env, id, status, message))
  {
    if s.chat.turnId.Some? && id.Some? && id != s.chat.turnId {
    } else if status == Some("completed") {
      FinishKeeps(env, s, Done(s.chat.accText));
    } else {
      FinishKeeps(env, s, Error(OrElse(message, "Codex turn ended with status " + OrElse(status, "unknown")), false));
    }
  }

  lemma NotificationKeeps(env: Env, s: State, n: Notification)
    requires Inv(env, s)
    ensures Inv(env, s.HandleNotification(env, n))
  {
    TurnNotificationKeeps(env, s, n);
    match n
    case ThreadStarted(id) => if id.Some? { CaptureThreadKeeps(env, s, id.value); }
    case TurnStarted(thread, id) => IdentifyKeeps(env, s, thread, id);
    case TokenUsageUpdated(thread, tokens) => ConsiderKeeps(env, s, tokens, thread);
    case ThreadCompacted(thread, id) => CompleteKeeps(env, s, thread, id);
    case ItemCompleted(item, thread, id) => CompleteKeeps(env, s, thread, id);
    case _ =>
  }

  lemma IdentifyKeeps(env: Env, s: State, thread: Option<Id>, id: Option<Id>)
    requires Inv(env, s)
    ensures Inv(env, s.IdentifyCompactTurn(thread, id))
  {
    NamedKeeps(env, s.compact, id, s.threadId, s.rpc, s.log, s.now);
  }

  lemma NamedKeeps(env: Env, c: Compaction, id: Option<Id>, threadId: Option<Id>, r: Rpc, log: seq<Act>, now: int)
    requires CompactInv(c, threadId) && Attended(c, r) && LogInv(log, c, r) && Timed(env, r, c, now)
    ensures var c1 := c.(turnId := id);
      CompactInv(c1, threadId) && Attended(c1, r) && LogInv(log, c1, r) && Timed(env, r, c1, now)
  {
  }

  // ---- timers and continuations ----

  lemma JobKeeps(env: Env, s: State, id: nat)
    requires Inv(env, s) && id in s.rpc.jobs
    ensures Inv(env, s.RunJob(env, id))
  {
    var job, s1 := s.rpc.jobs[id], s.(rpc := s.rpc.(jobs := s.rpc.jobs - {id}));
    match job.call
    case Handshake =>
      assert Inv(env, s1);
      if job.outcome.Resolved? && job.outcome.id.Some? { CaptureThreadKeeps(env, s1, job.outcome.id.value); }
    case TurnStart(q) => assert Inv(env, s1); AfterTurnStartKeeps(env, s1, q, job.outcome);
    case TurnInterrupt =>
    case CompactStart(thread, _) => AckKeeps(env, s, id, s1, thread, job.outcome);
  }

  /** The answer to a compaction request arms the completion timer or releases the barrier. It
      may be a late answer to an earlier compaction of the same thread. */
  lemma AckKeeps(env: Env, s: State, id: nat, s1: State, thread: Id, outcome: Outcome)
    requires Inv(env, s) && id in s.rpc.jobs && s1 == s.(rpc := s.rpc.(jobs := s.rpc.jobs - {id}))
    requires s.rpc.jobs[id].call.CompactStart? && s.rpc.jobs[id].call.thread == thread
    ensures Inv(env, s1.AfterCompactStart(env, thread, outcome))
  {
    var after := s1.AfterCompactStart(env, thread, outcome);
    if !s.compact.inFlight || s.compact.threadId != Some(thread) {
      IgnoredAckKeeps(env, s, id, s1);
      assert after == s1;
    } else if outcome.Resolved? {
      ArmedKeeps(env, s, id, s1);
      assert after == s1.(compact := s.compact.Arm(s.compact.threadId.value, s.now + env.CompletionTimeoutMs()));
    } else {
      RefusalKeeps(env, s, id, s1);
      assert after == s1.SettleNativeCompact();
    }
  }

  lemma IgnoredAckKeeps(env: Env, s: State, id: nat, s1: State)
    requires Inv(env, s) && id in s.rpc.jobs && s1 == s.(rpc := s.rpc.(jobs := s.rpc.jobs - {id}))
    requires s.rpc.jobs[id].call.CompactStart?
    requires s.compact.inFlight ==> s.compact.threadId != Some(s.rpc.jobs[id].call.thread)
    ensures Inv(env, s1)
  {
    OtherAckKeeps(env, s.compact, s.threadId, s.rpc, id, s.now, s.log);
  }

  lemma ArmedKeeps(env: Env, s: State, id: nat, s1: State)
    requires Inv(env, s) && id in s.rpc.jobs && s1 == s.(rpc := s.rpc.(jobs := s.rpc.jobs - {id}))
    requires s.rpc.jobs[id].call.CompactStart?
    requires s.compact.inFlight && s.compact.threadId == Some(s.rpc.jobs[id].call.thread)
    ensures Inv(env, s1.(compact := s.compact.Arm(s.compact.threadId.value, s.now + env.CompletionTimeoutMs())))
  {
    ArmKeeps(env, s.compact, s.threadId, s.rpc, id, s.now, s.log);
  }

  lemma RefusalKeeps(env: Env, s: State, id: nat, s1: State)
    requires Inv(env, s) && id in s.rpc.jobs && s1 == s.(rpc := s.rpc.(jobs := s.rpc.jobs - {id}))
    ensures Inv(env, s1.SettleNativeCompact())
  {
    assert Timed(env, s1.rpc, s.compact, s.now);
    SettleCompaction(env, s.compact, s.threadId, s.log, s1.rpc, s.now);
  }

  lemma ArmKeeps(env: Env, c: Compaction, threadId: Option<Id>, r: Rpc, id: nat, now: int, log: seq<Act>)
    requires CompactInv(c, threadId) && RpcInv(r) && Timed(env, r, c, now) && LogInv(log, c, r)
    requires c.inFlight && id in r.jobs && r.jobs[id].call.CompactStart? && r.jobs[id].call.thread == c.threadId.value
    ensures var r1, c1 := r.(jobs := r.jobs - {id}), c.Arm(c.threadId.value, now + env.CompletionTimeoutMs());
      CompactInv(c1, threadId) && RpcInv(r1) && Attended(c1, r1) && Timed(env, r1, c1, now) && LogInv(log, c1, r1)
  {
  }

  lemma OtherAckKeeps(env: Env, c: Compaction, threadId: Option<Id>, r: Rpc, id: nat, now: int, log: seq<Act>)
    requires CompactInv(c, threadId) && RpcInv(r) && Attended(c, r) && Timed(env, r, c, now) && LogInv(log, c, r)
    requires id in r.jobs && r.jobs[id].call.CompactStart?
    requires c.inFlight ==> c.threadId != Some(r.jobs[id].call.thread)
    ensures var r1 := r.(jobs := r.jobs - {id});
      RpcInv(r1) && Attended(c, r1) && Timed(env, r1, c, now) && LogInv(log, c, r1)
  {
  }

  lemma CompactTimerKeeps(env: Env, s: State, t: nat)
    requires Inv(env, s) && t in s.compact.timers
    ensures Inv(env, s.CompactTimerFired(t))
  {
    var c := s.compact.(timers := s.compact.timers - {t});
    TimerGone(env, s.compact, s.threadId, s.rpc, t, s.now, s.log);
    if s.compact.inFlight && s.compact.threadId == Some(s.compact.timers[t].thread) {
      SettleCompaction(env, c, s.threadId, s.log, s.rpc, s.now);
    }
  }

  lemma TimerGone(env: Env, c: Compaction, threadId: Option<Id>, r: Rpc, t: nat, now: int, log: seq<Act>)
    requires CompactInv(c, threadId) && Attended(c, r) && Timed(env, r, c, now) && LogInv(log, c, r) && t in c.timers
    ensures var c1 := c.(timers := c.timers - {t});
      && CompactInv(c1, threadId) && Timed(env, r, c1, now) && LogInv(log, c1, r)
      && (c.inFlight && c.threadId != Some(c.timers[t].thread) ==> Attended(c1, r))
  {
  }

  lemma TimerKeeps(env: Env, s: State, e: Event)
    requires Inv(env, s)
    requires e.RequestTimeout? || e.TurnTimeout? || e.CompactTimeout? || e.ClockAdvance?
    ensures Inv(env, Step(env, s, e))
  {
    match e
    case RequestTimeout(id) => AnswerKeeps(env, s, id, Rejected("request timed out", false));
    case TurnTimeout(message) => TurnTimedOutKeeps(env, s, message);
    case CompactTimeout(t) => if t in s.compact.timers { CompactTimerKeeps(env, s, t); }
    case ClockAdvance(to) =>
  }

  lemma ContinuationKeeps(env: Env, s: State, e: Event)
    requires Inv(env, s)
    requires e.BarrierContinuation? || e.JobContinuation? || e.FailureContinuation?
    ensures Inv(env, Step(env, s, e))
  {
    match e
    case BarrierContinuation(q) =>
      if q in s.waiting && s.waiting[q] in s.compact.resolved {
        AfterBarrierKeeps(env, s.(waiting := s.waiting - {q}), q);
      }
    case JobContinuation(id) => if id in s.rpc.jobs { JobKeeps(env, s, id); }
    case FailureContinuation(q) =>
      if q in s.failing { FailTurnKeeps(env, s.(failing := s.failing - {q}), q, s.failing[q]); }
  }

  lemma StepKeeps(env: Env, s: State, e: Event)
    requires Inv(env, s)
    ensures Inv(env, Step(env, s, e))
  {
    match e
    case StartCall => StartKeeps(env, s);
    case HandshakeCall => SendKeeps(env, s, Handshake, REQUEST_TIMEOUT_MS);
    case SendTurnCall => if s.chat.turn.None? { SendTurnKeeps(env, s); }
    case InterruptCall => InterruptKeeps(env, s);
    case StopCall => StopKeeps(env, s);
    case AnswerLine(id, outcome) => AnswerKeeps(env, s, id, outcome);
    case NotificationLine(n) => NotificationKeeps(env, s, n);
    case ProcessExit(current, message, notSteerable) => ProcessExitedKeeps(env, s, current, message, notSteerable);
    case RequestTimeout(_) => TimerKeeps(env, s, e);
    case TurnTimeout(_) => TimerKeeps(env, s, e);
    case CompactTimeout(_) => TimerKeeps(env, s, e);
    case ClockAdvance(_) => TimerKeeps(env, s, e);
    case _ => ContinuationKeeps(env, s, e);
  }

  lemma StartKeeps(env: Env, s: State)
    requires Inv(env, s)
    ensures Inv(env, Step(env, s, StartCall))
  {
    SendKeeps(env, s.(stopping := false, rpc := s.rpc.(online := true)), Handshake, REQUEST_TIMEOUT_MS);
  }

  lemma InitialInv(env: Env)
    ensures Inv(env, INITIAL)
  {
  }

  lemma {:induction false} RunKeeps(env: Env, run: seq<State>)
    requires IsRun(env, run)
    ensures Inv(env, run[|run| - 1])
  {
    if |run| == 1 {
      InitialInv(env);
    } else {
      var front := run[..|run| - 1];
      forall i: nat ensures Linked(env, front, i) {
        assert Linked(env, run, i);
      }
      RunKeeps(env, front);
      assert Linked(env, run, |run| - 1);
      var e :| run[|run| - 1] == Step(env, run[|run| - 2], e);
      StepKeeps(env, run[|run| - 2], e);
    }
  }

  /** Every interleaving of events keeps the invariant. */
  lemma ReachableInv(env: Env, s: State)
    requires Reachable(env, s)
    ensures Inv(env, s)
  {
    var run :| IsRun(env, run) && run[|run| - 1] == s;
    RunKeeps(env, run);
  }

  lemma InitialReachable(env: Env)
    ensures Reachable(env, INITIAL)
  {
    assert IsRun(env, [INITIAL]) && [INITIAL][0] == INITIAL;
  }

  lemma RunExtends(env: Env, run: seq<State>, next: State)
    requires IsRun(env, run) && Follows(env, run[|run| - 1], next)
    ensures IsRun(env, run + [next])
  {
    var more := run + [next];
    forall i: nat ensures Linked(env, more, i) {
      assert Linked(env, run, i);
    }
  }

  lemma StepReachable(env: Env, s: State, e: Event)
    requires Reachable(env, s)
    ensures Reachable(env, Step(env, s, e))
  {
    var run :| IsRun(env, run) && run[|run| - 1] == s;
    var next := Step(env, s, e);
    RunExtends(env, run, next);
    assert (run + [next])[|run + [next]| - 1] == next;
  }
}
