/** server/src/heartbeat/companionHeartbeat.ts: the durable ledger of heartbeat sessions and runs, as
    the steps of one state machine. A step is one scheduler pass over a session, one request of
    a user, one settled run, or a restart. Times are milliseconds. */
module HeartbeatProtocol {
  import opened Options
  import opened HeartbeatPolicy

  const INTERVAL_MIN_MINUTES := 4
  const INTERVAL_MAX_MINUTES := 7
  const MINUTE_MS := 60_000

  /** A sample outside [0, 1) is refused. */
  function RandomIntervalMinutes(sample: real): (minutes: int)
    requires 0.0 <= sample < 1.0
    ensures INTERVAL_MIN_MINUTES <= minutes <= INTERVAL_MAX_MINUTES
  {
    INTERVAL_MIN_MINUTES + (sample * (INTERVAL_MAX_MINUTES - INTERVAL_MIN_MINUTES + 1) as real).Floor
  }

  type SessionId = string

  /** A row of heartbeat_sessions. */
  datatype Session = Session(
    contact: string,
    startedAt: int,
    expiresAt: Option<int>,
    intervalMinutes: int,
    tickCount: nat,
    lastTickAt: Option<int>,
    stopped: bool,
    failureCount: nat,
    paused: bool)
  {
    function Baseline(): int {
      if lastTickAt.Some? then lastTickAt.value else startedAt
    }

    /** No tick before this. */
    function Earliest(): int {
      Baseline() + intervalMinutes * MINUTE_MS
    }

    predicate ActiveFor(contact: string) {
      this.contact == contact && !stopped
    }

    predicate Expired(now: int) {
      expiresAt.Some? && expiresAt.value <= now
    }
  }

  datatype Outcome = Skipped | Running | Silent | Visible | Failed | Interrupted

  /** The primary key of heartbeat_runs. */
  datatype Key = Key(session: SessionId, tick: nat)

  datatype RunRow = RunRow(outcome: Outcome, toolCount: nat, writeAttempted: bool)

  /** A row of messages; `key` is the idempotency key of a heartbeat prompt. */
  datatype Message = Message(contact: string, turn: Option<string>, toolUse: bool, content: string, key: Option<Key>)

  datatype TurnOutcome = TurnDone | TurnError | TurnInterrupted

  /** What the runtime reports when a dispatched turn is over. */
  datatype TurnResult = TurnResult(outcome: TurnOutcome, text: string, messageId: Option<nat>)

  datatype RuntimeState = Idle | InError | Busy

  /** What a scheduler pass finds outside the ledger. */
  datatype Surroundings = Surroundings(
    workflowOnly: bool, runtime: RuntimeState, recovers: bool, userPresent: bool,
    contactKnown: bool, queueFull: bool, sample: real)

  datatype Act =
    | Ticked(session: SessionId, at: int)
    | Dispatched(session: SessionId, tick: nat)
    | SuccessRecorded(session: SessionId)
    | FailureRecorded(session: SessionId, failures: nat, at: int, wrote: bool)

  function Pow2(n: nat): nat {
    if n == 0 then 1 else 2 * Pow2(n - 1)
  }

  function BackoffMinutes(failures: nat): int
    requires failures >= 1
  {
    if 5 * Pow2(failures - 1) < 30 then 5 * Pow2(failures - 1) else 30
  }

  /** How far a completion handler got. */
  datatype Stage = Nothing | Rewritten | Recorded | Finished

  datatype StartError = WorkflowOnly | BadMinutes | Disabled | AlreadyActive

  /** The tool calls of a turn, oldest first. */
  function ToolCalls(messages: map<nat, Message>, contact: string, turn: string, before: nat): seq<string> {
    if before == 0 then []
    else
      var m := before - 1;
      ToolCalls(messages, contact, turn, m) +
      if m in messages && messages[m].toolUse && messages[m].contact == contact && messages[m].turn == Some(turn)
      then [messages[m].content] else []
  }

  datatype State = State(
    sessions: map<SessionId, Session>,
    runs: map<Key, RunRow>,
    messages: map<nat, Message>,
    nextMessage: nat,
    /** Dispatched runs whose completion handler has not run, with their prompt message. */
    unsettled: map<Key, nat>,
    now: int,
    log: seq<Act>)
  {
    // ---- sessions ----

    /** `status` finds an expired session only when somebody looks. At most one session of a contact
        is not stopped, so the active row is the only one there is to stop. */
    function LookAt(contact: string): State {
      this.(sessions := map id | id in sessions ::
        if sessions[id].contact == contact && sessions[id].Expired(now)
        then sessions[id].(stopped := true) else sessions[id])
    }

    predicate Active(contact: string) {
      exists id :: id in sessions && sessions[id].contact == contact && !sessions[id].stopped
    }

    function StopSession(contact: string): State {
      this.(sessions := map id | id in sessions ::
        if sessions[id].contact == contact then sessions[id].(stopped := true) else sessions[id])
    }

    /** `enabled`: the contact exists and has the heartbeat switched on. */
    function StartSession(contact: string, minutes: Option<int>, newId: SessionId,
                          workflowOnly: bool, enabled: bool, sample: real): (r: (State, Option<StartError>))
      requires 0.0 <= sample < 1.0
    {
      if workflowOnly then (this, Some(WorkflowOnly))
      else if minutes.Some? && (minutes.value < 5 || minutes.value > 480) then (this, Some(BadMinutes))
      else if !enabled then (this, Some(Disabled))
      else
        var s := LookAt(contact);
        if s.Active(contact) then (s, Some(AlreadyActive))
        else
          var expiresAt := if minutes.Some? then Some(now + minutes.value * MINUTE_MS) else None;
          (s.(sessions := s.sessions[newId :=
             Session(contact, now, expiresAt, RandomIntervalMinutes(sample), 0, None, false, 0, false)]), None)
    }

    // ---- ticks ----

    /** The runtime can take a turn, if need be after recovering from a failed heartbeat. */
    predicate Idles(id: SessionId, w: Surroundings)
      requires id in sessions
    {
      w.runtime.Idle? || (w.runtime.InError? && sessions[id].failureCount > 0 && w.contactKnown && w.recovers)
    }

    predicate Due(id: SessionId, w: Surroundings)
      requires id in sessions
    {
      !w.workflowOnly && !sessions[id].Expired(now) && !sessions[id].paused && now >= sessions[id].Earliest()
    }

    predicate HasKey(key: Key) {
      exists m :: m in messages && messages[m].key == Some(key)
    }

    /** `tickIfDue` on the current row of a session that is not stopped. */
    function Tick(id: SessionId, w: Surroundings): State
      requires id in sessions && 0.0 <= w.sample < 1.0
    {
      if w.workflowOnly then this
      else if sessions[id].Expired(now) then StopSession(sessions[id].contact)
      else if !Due(id, w) then this
      else BeginTick(id, w.sample).Dispatch(id, w, Idles(id, w))
    }

    /** The run row and the counters of the tick, before anything can go wrong. */
    function BeginTick(id: SessionId, sample: real): State
      requires id in sessions && 0.0 <= sample < 1.0
    {
      var key := Key(id, sessions[id].tickCount + 1);
      this.(runs := if key in runs then runs else runs[key := RunRow(Skipped, 0, false)],
            sessions := sessions[id := sessions[id].(tickCount := key.tick, lastTickAt := Some(now),
                                                     intervalMinutes := RandomIntervalMinutes(sample))],
            log := log + [Ticked(id, now)])
    }

    function Dispatch(id: SessionId, w: Surroundings, idles: bool): State
      requires id in sessions
    {
      var key := Key(id, sessions[id].tickCount);
      if !idles then
        if w.runtime.InError? then this.(sessions := sessions[id := sessions[id].(paused := true)]) else this
      else if w.userPresent || HasKey(key) then this
      else if !w.contactKnown || w.queueFull then this.(nextMessage := nextMessage + 1)
      else
        this.(messages := messages[nextMessage := Message(sessions[id].contact, None, false, "", Some(key))],
              nextMessage := nextMessage + 1,
              runs := if key in runs then runs[key := runs[key].(outcome := Running)] else runs,
              unsettled := unsettled[key := nextMessage],
              log := log + [Dispatched(id, key.tick)])
    }

    // ---- settlement ----

    function Reply(result: TurnResult): Option<Message> {
      if result.messageId.Some? && result.messageId.value in messages
      then Some(messages[result.messageId.value]) else None
    }

    function ToolsOf(id: SessionId, result: TurnResult): seq<string>
      requires id in sessions
    {
      var reply := Reply(result);
      if reply.Some? && reply.value.turn.Some?
      then ToolCalls(messages, sessions[id].contact, reply.value.turn.value, nextMessage) else []
    }

    /** A finished turn that stays silent about a possible write is given a receipt. */
    function Protected(p: Patterns, id: SessionId, result: TurnResult): TurnResult
      requires id in sessions
    {
      if result.outcome.TurnDone? && Reply(result).Some?
      then result.(text := Receipt(p, result.text, ToolsOf(id, result))) else result
    }

    function Protect(p: Patterns, id: SessionId, result: TurnResult): State
      requires id in sessions
    {
      var text := Protected(p, id, result).text;
      if text == result.text then this
      else this.(messages := messages[result.messageId.value := messages[result.messageId.value].(content := text)])
    }

    function RecordedOutcome(result: TurnResult): Outcome {
      match result.outcome
      case TurnDone => if IsSilent(result.text) then Silent else Visible
      case TurnError => Failed
      case TurnInterrupted => Interrupted
    }

    function RecordBeat(p: Patterns, key: Key, result: TurnResult): State
      requires key.session in sessions
    {
      var tools := ToolsOf(key.session, result);
      var wrote := Wrote(p, tools);
      var session := sessions[key.session];
      var s := this.(runs :=
          if key in runs then runs[key := RunRow(RecordedOutcome(result), |tools|, wrote)] else runs);
      if result.outcome.TurnDone? then
        var unexplained := wrote && result.text == Receipt(p, "", tools);
        s.(sessions := sessions[key.session := session.(failureCount := 0, paused := session.paused || unexplained)],
           log := log + [SuccessRecorded(key.session)])
      else
        var failures := session.failureCount + 1;
        var retry := result.outcome.TurnError? && !wrote && failures < 3 && p.isRetryable(result.text);
        s.(sessions := sessions[key.session := session.(failureCount := failures, paused := !retry,
                                                        intervalMinutes := BackoffMinutes(failures),
                                                        lastTickAt := Some(now))],
           log := log + [FailureRecorded(key.session, failures, now, wrote)])
    }

    function SettleBeat(id: SessionId, prompt: nat, result: TurnResult): State
      requires id in sessions
    {
      if !result.outcome.TurnDone? || !IsSilent(result.text) then this
      else this.(messages := map m | m in messages && !Pruned(sessions[id].contact, prompt, result, m) :: messages[m])
    }

    /** The rows of a silent turn: the prompt, and the reply with everything of its turn. */
    predicate Pruned(contact: string, prompt: nat, result: TurnResult, m: nat)
      requires m in messages
    {
      var reply := Reply(result);
      || m == prompt
      || (reply.Some? && reply.value.turn.Some? && messages[m].contact == contact
          && messages[m].turn == reply.value.turn)
      || (reply.Some? && reply.value.turn.None? && Some(m) == result.messageId)
    }

    /** After the completion handler has rewritten the reply. */
    function Rewritten(p: Patterns, key: Key, result: TurnResult): (r: State)
      requires key in unsettled && key.session in sessions
      ensures r.sessions == sessions
    {
      Protect(p, key.session, result).(unsettled := unsettled - {key})
    }

    /** The completion handler of a dispatched run, up to a stage. */
    function Settle(p: Patterns, key: Key, result: TurnResult, stage: Stage): (r: State)
      requires key in unsettled && key.session in sessions
      ensures key.session in r.sessions
    {
      var settled := Protected(p, key.session, result);
      match stage
      case Nothing => this.(unsettled := unsettled - {key})
      case Rewritten => Rewritten(p, key, result)
      case Recorded => Rewritten(p, key, result).RecordBeat(p, key, settled)
      case Finished =>
        Rewritten(p, key, result).RecordBeat(p, key, settled).SettleBeat(key.session, unsettled[key], settled)
    }

    function Complete(p: Patterns, key: Key, result: TurnResult): State
      requires key in unsettled && key.session in sessions
    {
      Settle(p, key, result, Finished).LookAt(sessions[key.session].contact)
    }

    /** The handler threw after some stage. */
    function SettlementFailed(p: Patterns, key: Key, result: TurnResult, stage: Stage): State
      requires key in unsettled && key.session in sessions
    {
      Settle(p, key, result, stage).GiveUp(key).LookAt(sessions[key.session].contact)
    }

    function GiveUp(key: Key): State
      requires key.session in sessions
    {
      this.(runs := if key in runs then runs[key := runs[key].(outcome := Failed)] else runs,
            sessions := sessions[key.session := sessions[key.session].(paused := true)])
    }

    /** `start`: runs left running are interrupted and their sessions paused. In a new process
        their completion handlers are gone; after `stop` in the same process they are not. */
    function Restart(newProcess: bool): State {
      this.(sessions := map id | id in sessions ::
              if !sessions[id].stopped && exists key :: key in runs && key.session == id && runs[key].outcome.Running?
              then sessions[id].(paused := true) else sessions[id],
            runs := map key | key in runs ::
              if runs[key].outcome.Running? then runs[key].(outcome := Interrupted) else runs[key],
            unsettled := if newProcess then map[] else unsettled)
    }
  }

  const INITIAL := State(map[], map[], map[], 1, map[], 0, [])

  datatype Event =
    | StartSessionCall(contact: string, minutes: Option<int>, newId: SessionId, workflowOnly: bool, enabled: bool,
        sample: real)
    | StopSessionCall(contact: string)
    | StatusCall(contact: string)
    | TickPass(id: SessionId, around: Surroundings)
    | Completion(key: Key, result: TurnResult)
    | SettlementFailure(key: Key, result: TurnResult, stage: Stage)
    | Start(newProcess: bool)
    | MessageWritten(message: Message)
    | MessageDeleted(m: nat)
    | ClockAdvance(to: int)

  /** The reply of a finished turn is a row of text, never one of a tool call. */
  predicate TextReply(s: State, result: TurnResult) {
    result.outcome.TurnDone? && s.Reply(result).Some? ==> !s.Reply(result).value.toolUse
  }

  predicate NothingUnsettled(s: State, contact: string) {
    forall k :: k in s.unsettled && k.session in s.sessions ==> s.sessions[k.session].contact != contact
  }

  /** What can happen: random identifiers are new and random samples in range, the runtime is
      not idle while a turn of the contact is unsettled, and replies are text. */
  predicate Enabled(s: State, e: Event) {
    match e
    case StartSessionCall(_, _, newId, _, _, sample) => newId !in s.sessions && 0.0 <= sample < 1.0
    case TickPass(id, w) =>
      && id in s.sessions && !s.sessions[id].stopped && 0.0 <= w.sample < 1.0
      && (s.Idles(id, w) ==> NothingUnsettled(s, s.sessions[id].contact))
    case Completion(key, result) => key in s.unsettled && key.session in s.sessions && TextReply(s, result)
    case SettlementFailure(key, result, _) => key in s.unsettled && key.session in s.sessions && TextReply(s, result)
    case MessageWritten(message) => message.key.None?
    case ClockAdvance(to) => s.now <= to
    case _ => true
  }

  function Step(p: Patterns, s: State, e: Event): State {
    if !Enabled(s, e) then s
    else match e
      case StartSessionCall(contact, minutes, newId, workflowOnly, enabled, sample) =>
        s.StartSession(contact, minutes, newId, workflowOnly, enabled, sample).0
      case StopSessionCall(contact) => s.StopSession(contact)
      case StatusCall(contact) => s.LookAt(contact)
      case TickPass(id, w) => s.Tick(id, w)
      case Completion(key, result) => s.Complete(p, key, result)
      case SettlementFailure(key, result, stage) => s.SettlementFailed(p, key, result, stage)
      case Start(newProcess) => s.Restart(newProcess)
      case MessageWritten(message) =>
        s.(messages := s.messages[s.nextMessage := message], nextMessage := s.nextMessage + 1)
      case MessageDeleted(m) => s.(messages := s.messages - {m})
      case ClockAdvance(to) => s.(now := to)
  }

  ghost predicate Follows(p: Patterns, s: State, s': State) {
    exists e :: s' == Step(p, s, e)
  }

  ghost predicate Linked(p: Patterns, run: seq<State>, i: nat) {
    0 < i < |run| ==> Follows(p, run[i - 1], run[i])
  }

  ghost predicate IsRun(p: Patterns, run: seq<State>) {
    run != [] && run[0] == INITIAL && forall i :: Linked(p, run, i)
  }

  ghost predicate Reachable(p: Patterns, s: State) {
    exists run :: IsRun(p, run) && run[|run| - 1] == s
  }
}
