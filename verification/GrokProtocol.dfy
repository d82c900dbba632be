/** server/src/backends/grokCli.ts: one short-lived process per turn, and the session flag that
    corrects itself against the sessions the CLI keeps on disk. */
module GrokProtocol {
  import opened Options
  import opened TurnEvents
  import opened Sequences

  /** `-s` creates a session and fails if it exists; `-r` resumes one and fails if it does not. */
  datatype Flag = Create | Resume

  /** Text matching done with regular expressions. */
  datatype Env = Env(isUuid: string -> bool, mentionsSession: seq<string> -> bool, abnormalStop: string -> bool)

  /** What one process of a turn leaves behind; reset at every spawn. `flag` and `id` are its arguments. */
  datatype Attempt = Attempt(
    flag: Flag,
    id: Option<string>,
    accText: string,
    stopReason: Option<string>,
    interrupted: bool,
    stderrTail: seq<string>,
    toolNames: map<string, string>,
    pendingTool: Option<string>)

  /** The events of a turn, the number of processes it spawned, and how many events the earlier ones left. */
  datatype Queue = Queue(events: seq<TurnEvent>, ended: bool, spawns: nat, before: nat)

  datatype ToolStatus = Running | Completed | OtherStatus

  datatype Line =
    | Thought(data: string)
    | Text(data: string)
    | ToolCall(id: Option<string>, name: Option<string>)
    | ToolCallUpdate(id: Option<string>, status: ToolStatus)
    | End(stopReason: Option<string>, sessionId: Option<string>)
    | OtherLine

  function NewAttempt(flag: Flag, id: Option<string>): Attempt {
    Attempt(flag, id, "", None, false, [], map[], None)
  }

  datatype State = State(
    sessionId: Option<string>,
    sessionAnnounced: bool,
    sessionFlag: Flag,
    started: bool,
    turn: Option<nat>,
    turnTimeouts: Option<nat>,
    retried: bool,
    attempt: Attempt,
    queues: seq<Queue>,
    log: seq<TurnEvent>)
  {
    function Start(env: Env, token: Option<string>, newId: string): State {
      var resume := token.Some? && env.isUuid(token.value);
      this.(sessionId := if resume then token else Some(newId), sessionFlag := if resume then Resume else Create,
            sessionAnnounced := false, started := true)
    }

    function Push(q: nat, ev: TurnEvent): State {
      if q < |queues| && !queues[q].ended
      then this.(queues := queues[q := queues[q].(events := queues[q].events + [ev])], log := log + [ev])
      else this
    }

    function Emit(ev: TurnEvent): State {
      if turn.Some? then Push(turn.value, ev) else this
    }

    function FinishTurn(): State {
      this.(turnTimeouts := None, turn := None,
            queues := if turn.Some? && turn.value < |queues|
                      then queues[turn.value := queues[turn.value].(ended := true)] else queues)
    }

    function SpawnAttempt(): State {
      this.(attempt := NewAttempt(sessionFlag, sessionId),
            queues := if turn.Some? && turn.value < |queues|
                      then queues[turn.value := queues[turn.value].(spawns := queues[turn.value].spawns + 1,
                                                                    before := |queues[turn.value].events|)]
                      else queues)
    }

    function OpenTurn(): State {
      var q := |queues|;
      var s := this.(queues := queues + [Queue([], false, 0, 0)], turn := Some(q), retried := false);
      if sessionId.Some? && !sessionAnnounced
      then s.(sessionAnnounced := true).Push(q, Session(sessionId.value)) else s
    }

    /** `readable` says that the images, if any, can be passed on; the prompt is not built otherwise. */
    function SendTurn(readable: bool): State {
      if readable then OpenTurn().SpawnAttempt().(turnTimeouts := Some(|queues|))
      else
        OpenTurn().(attempt := NewAttempt(attempt.flag, attempt.id))
            .Emit(Error("image not readable", false)).FinishTurn()
    }

    function Interrupt(): State {
      this.(attempt := attempt.(interrupted := true))
    }

    function TimedOut(message: string): State {
      if turnTimeouts.None? || turn != turnTimeouts then this
      else Interrupt().Push(turn.value, Error(message, false)).FinishTurn()
    }

    function Stderr(s: string): State {
      var tail := attempt.stderrTail + [s];
      this.(attempt := attempt.(stderrTail := if |tail| > 20 then tail[1..] else tail))
    }

    function Route(env: Env, line: Line): State {
      if turn.None? then this
      else match line
        case Thought(data) => if data == "" then this else Emit(Thinking(data))
        case Text(data) =>
          if data == "" then this else this.(attempt := attempt.(accText := attempt.accText + data)).Emit(Delta(data))
        case ToolCall(id, name) =>
          var tool := if name.Some? then name.value else "tool";
          var names := if id.Some? then attempt.toolNames[id.value := tool] else attempt.toolNames;
          this.(attempt := attempt.(toolNames := names, pendingTool := Some(tool))).Emit(ToolUse(tool))
        case ToolCallUpdate(id, status) =>
          if status.Running? then this
          else
            var tool := if id.Some? && id.value in attempt.toolNames then attempt.toolNames[id.value]
                        else if attempt.pendingTool.Some? then attempt.pendingTool.value else "tool";
            this.(attempt := attempt.(pendingTool := None)).Emit(ToolResult(tool, status.Completed?))
        case End(stopReason, id) =>
          var s := this.(attempt := attempt.(stopReason := stopReason));
          if id.Some? && env.isUuid(id.value) && id != sessionId
          then s.(sessionId := id).Emit(Session(id.value)) else s
        case OtherLine => this
    }

    predicate Retries(env: Env, code: Option<int>) {
      !attempt.interrupted && code != Some(0) && !retried && env.mentionsSession(attempt.stderrTail)
    }

    /** The exit of a process; `newId` is the random identifier drawn if a new session is needed. */
    function HandleExit(env: Env, code: Option<int>, newId: string): State {
      if turn.None? then this
      else if Retries(env, code) then
        var s := this.(retried := true);
        if sessionFlag.Create? then s.(sessionFlag := Resume).SpawnAttempt()
        else s.(sessionFlag := Create, sessionId := Some(newId)).Emit(Session(newId)).SpawnAttempt()
      else if attempt.interrupted then Emit(Error("turn interrupted", false)).FinishTurn()
      else if code == Some(0) then
        var s := this.(sessionFlag := Resume);
        if attempt.stopReason.Some? && env.abnormalStop(attempt.stopReason.value)
        then s.Emit(Error("turn not completed", false)).FinishTurn()
        else s.Emit(Done(attempt.accText)).FinishTurn()
      else Emit(Error("grok exited abnormally", false)).FinishTurn()
    }

    function Stop(): State {
      this.(started := false)
    }
  }

  const INITIAL := State(None, false, Create, false, None, None, false, NewAttempt(Create, None), [], [])

  datatype Event =
    | StartCall(token: Option<string>, newId: string)
    | SendTurnCall(readable: bool)
    | InterruptCall
    | StopCall
    | TurnTimeout(message: string)
    | LineRead(line: Line)
    | StderrRead(text: string)
    | Exit(code: Option<int>, newId: string)

  /** Lines and exits are not tied to a process: those of an old one are taken like any other. A
      turn is sent only when none is open (types.ts:70). */
  function Step(env: Env, s: State, e: Event): State {
    match e
    case StartCall(token, newId) => s.Start(env, token, newId)
    case SendTurnCall(readable) => if s.turn.None? then s.SendTurn(readable) else s
    case InterruptCall => s.Interrupt()
    case StopCall => s.Stop()
    case TurnTimeout(message) => s.TimedOut(message)
    case LineRead(line) => s.Route(env, line)
    case StderrRead(text) => s.Stderr(text)
    case Exit(code, newId) => s.HandleExit(env, code, newId)
  }

  ghost predicate Follows(env: Env, s: State, s': State) {
    exists e :: s' == Step(env, s, e)
  }

  ghost predicate Linked(env: Env, run: seq<State>, i: nat) {
    0 < i < |run| ==> Follows(env, run[i - 1], run[i])
  }

  /** The states of a run, one per event, from a backend that has just been built. */
  ghost predicate IsRun(env: Env, run: seq<State>) {
    run != [] && run[0] == INITIAL && forall i :: Linked(env, run, i)
  }

  ghost predicate Reachable(env: Env, s: State) {
    exists run :: IsRun(env, run) && run[|run| - 1] == s
  }

  // ---- what every run keeps ----

  function LastSession(log: seq<TurnEvent>): Option<string> {
    if log == [] then None
    else if log[|log| - 1].Session? then Some(log[|log| - 1].sessionId)
    else LastSession(log[..|log| - 1])
  }

  lemma LastSessionAppend(log: seq<TurnEvent>, ev: TurnEvent)
    ensures LastSession(log + [ev]) == if ev.Session? then Some(ev.sessionId) else LastSession(log)
  {
    assert (log + [ev])[..|log|] == log;
  }

  ghost predicate NoTerminal(events: seq<TurnEvent>) {
    forall i :: 0 <= i < |events| ==> !events[i].Terminal()
  }

  /** A turn's queue: at most two processes; one terminal event, last, once it is closed; and a final
      text that is what the last process streamed. */
  ghost predicate QueueInv(queue: Queue) {
    && queue.spawns <= 2 && queue.before <= |queue.events|
    && (if queue.ended then
          && queue.events != []
          && queue.events[|queue.events| - 1].Terminal()
          && NoTerminal(queue.events[..|queue.events| - 1])
          && (queue.events[|queue.events| - 1].Done? ==>
               queue.before < |queue.events| &&
               queue.events[|queue.events| - 1].finalText == DeltaText(queue.events[queue.before..|queue.events| - 1]))
        else NoTerminal(queue.events))
  }

  ghost predicate OpenInv(s: State) {
    s.turn.Some? ==>
      && s.turn.value == |s.queues| - 1
      && var queue := s.queues[s.turn.value];
      && !queue.ended
      && queue.spawns <= (if s.retried then 2 else 1)
      && queue.before <= |queue.events|
      && s.attempt.accText == DeltaText(queue.events[queue.before..])
  }

  ghost predicate Inv(s: State) {
    && (forall q :: 0 <= q < |s.queues| ==> QueueInv(s.queues[q]) && (s.queues[q].ended <==> s.turn != Some(q)))
    && OpenInv(s)
    && (s.turnTimeouts.Some? ==> s.turnTimeouts == s.turn)
    && (s.sessionAnnounced ==> s.sessionId.Some? && LastSession(s.log) == s.sessionId)
  }

  /** One more event in the open queue, remembered if it is text. */
  lemma EmitKeeps(s: State, s': State, ev: TurnEvent)
    requires Inv(s) && s.turn.Some? && !ev.Terminal()
    requires ev.Session? ==> s'.sessionId == Some(ev.sessionId)
    requires !ev.Session? ==> s'.sessionId == s.sessionId
    requires s'.attempt.accText == s.attempt.accText + (if ev.Delta? then ev.text else "")
    requires s' == s.(attempt := s'.attempt, sessionId := s'.sessionId).Emit(ev)
    ensures Inv(s')
  {
    var q := s.turn.value;
    var queue := s.queues[q];
    LastSessionAppend(s.log, ev);
    DeltaTextAppend(queue.events[queue.before..], ev);
    assert (queue.events + [ev])[queue.before..] == queue.events[queue.before..] + [ev];
    assert s'.queues == s.queues[q := queue.(events := queue.events + [ev])];
  }

  lemma Concluded(queue: Queue, ev: TurnEvent)
    requires QueueInv(queue) && !queue.ended && ev.Terminal()
    requires ev.Done? ==> ev.finalText == DeltaText(queue.events[queue.before..])
    ensures QueueInv(queue.(events := queue.events + [ev], ended := true))
  {
    var events := queue.events + [ev];
    assert events[..|events| - 1] == queue.events;
    assert events[queue.before..|events| - 1] == queue.events[queue.before..];
  }

  lemma ConcludeKeeps(s: State, ev: TurnEvent)
    requires Inv(s) && s.turn.Some? && ev.Terminal()
    requires ev.Done? ==> ev.finalText == s.attempt.accText
    ensures Inv(s.Emit(ev).FinishTurn())
  {
    var q := s.turn.value;
    var queue := s.queues[q];
    LastSessionAppend(s.log, ev);
    Concluded(queue, ev);
    assert s.Emit(ev).FinishTurn().queues == s.queues[q := queue.(events := queue.events + [ev], ended := true)];
  }

  lemma RouteKeeps(env: Env, s: State, line: Line)
    requires Inv(s)
    ensures Inv(s.Route(env, line))
  {
    if s.turn.Some? {
      var s' := s.Route(env, line);
      match line
      case Thought(data) => if data != "" { EmitKeeps(s, s', Thinking(data)); }
      case Text(data) => if data != "" { EmitKeeps(s, s', Delta(data)); }
      case ToolCall(id, name) => EmitKeeps(s, s', ToolUse(if name.Some? then name.value else "tool"));
      case ToolCallUpdate(id, status) =>
        if !status.Running? {
          EmitKeeps(s, s', s'.queues[s.turn.value].events[|s'.queues[s.turn.value].events| - 1]);
        }
      case End(_, id) =>
        if id.Some? && env.isUuid(id.value) && id != s.sessionId { EmitKeeps(s, s', Session(id.value)); }
      case OtherLine =>
    }
  }

  lemma SpawnKeeps(s: State)
    requires Inv(s.(retried := false)) && s.turn.Some? && s.retried
    ensures Inv(s.SpawnAttempt())
  {
    var q := s.turn.value;
    var queue := s.queues[q];
    assert queue.events[|queue.events|..] == [];
    assert s.SpawnAttempt().queues == s.queues[q := queue.(spawns := queue.spawns + 1, before := |queue.events|)];
  }

  lemma HandleExitKeeps(env: Env, s: State, code: Option<int>, newId: string)
    requires Inv(s)
    ensures Inv(s.HandleExit(env, code, newId))
  {
    if s.turn.None? {
    } else if s.Retries(env, code) {
      if s.sessionFlag.Create? {
        SpawnKeeps(s.(retried := true, sessionFlag := Resume));
      } else {
        var s1 := s.(sessionFlag := Create);
        var s2 := s1.(sessionId := Some(newId)).Emit(Session(newId));
        EmitKeeps(s1, s2, Session(newId));
        SpawnKeeps(s2.(retried := true));
      }
    } else if s.attempt.interrupted {
      ConcludeKeeps(s, Error("turn interrupted", false));
    } else if code == Some(0) {
      var s1 := s.(sessionFlag := Resume);
      ConcludeKeeps(s1, Error("turn not completed", false));
      ConcludeKeeps(s1, Done(s.attempt.accText));
    } else {
      ConcludeKeeps(s, Error("grok exited abnormally", false));
    }
  }

  /** A turn that was just opened is empty but for the announcement of the session. */
  lemma OpenTurnShape(s: State) returns (opening: seq<TurnEvent>)
    requires Inv(s) && s.turn.None?
    ensures opening == if s.sessionId.Some? && !s.sessionAnnounced then [Session(s.sessionId.value)] else []
    ensures s.OpenTurn() == s.(turn := Some(|s.queues|), retried := false,
        queues := s.queues + [Queue(opening, false, 0, 0)],
                               sessionAnnounced := s.sessionAnnounced || s.sessionId.Some?, log := s.log + opening)
    ensures s.OpenTurn().sessionAnnounced ==> LastSession(s.OpenTurn().log) == s.sessionId
  {
    opening := if s.sessionId.Some? && !s.sessionAnnounced then [Session(s.sessionId.value)] else [];
    assert s.log + [] == s.log;
    if opening != [] {
      LastSessionAppend(s.log, opening[0]);
      assert [] + opening == opening;
      UpdateLast(s.queues, Queue([], false, 0, 0), Queue(opening, false, 0, 0));
    }
  }

  lemma OpenTurnKeeps(s: State, attempt: Attempt)
    requires Inv(s) && s.turn.None? && attempt.accText == ""
    ensures Inv(s.OpenTurn().(attempt := attempt))
  {
    var opening := OpenTurnShape(s);
    OpeningText(opening);
    var s' := s.OpenTurn().(attempt := attempt);
    assert s'.queues == s.queues + [Queue(opening, false, 0, 0)];
    assert forall q :: 0 <= q < |s.queues| ==> s'.queues[q] == s.queues[q];
    assert s'.queues[|s.queues|] == Queue(opening, false, 0, 0);
  }

  lemma OpeningText(opening: seq<TurnEvent>)
    requires |opening| <= 1 && (opening != [] ==> opening[0].Session?)
    ensures DeltaText(opening[0..]) == ""
  {
    assert opening[0..] == opening;
    if opening != [] {
      assert opening[..0] == [];
    }
  }

  lemma SendTurnKeeps(s: State, readable: bool)
    requires Inv(s) && s.turn.None?
    ensures Inv(s.SendTurn(readable))
  {
    OpenTurnKeeps(s, NewAttempt(s.attempt.flag, s.attempt.id));
    if readable {
      var s1 := s.OpenTurn().(attempt := NewAttempt(s.attempt.flag, s.attempt.id));
      var opening := OpenTurnShape(s);
      UpdateLast(s.queues, Queue(opening, false, 0, 0), Queue(opening, false, 1, |opening|));
      assert opening[|opening|..] == [];
    } else {
      ConcludeKeeps(s.OpenTurn().(attempt := NewAttempt(s.attempt.flag, s.attempt.id)),
          Error("image not readable", false));
    }
  }

  lemma StepKeeps(env: Env, s: State, e: Event)
    requires Inv(s)
    ensures Inv(Step(env, s, e))
  {
    match e
    case SendTurnCall(readable) => if s.turn.None? { SendTurnKeeps(s, readable); }
    case TurnTimeout(message) =>
      if s.turn.Some? { ConcludeKeeps(s.Interrupt(), Error(message, false)); }
    case LineRead(line) => RouteKeeps(env, s, line);
    case Exit(code, newId) => HandleExitKeeps(env, s, code, newId);
    case _ =>
  }

  lemma {:induction false} RunKeeps(env: Env, run: seq<State>)
    requires IsRun(env, run)
    ensures Inv(run[|run| - 1])
  {
    if |run| > 1 {
      var before := run[..|run| - 1];
      forall i: nat ensures Linked(env, before, i) {
        assert Linked(env, run, i);
      }
      RunKeeps(env, before);
      assert Linked(env, run, |run| - 1);
      var e :| run[|run| - 1] == Step(env, run[|run| - 2], e);
      StepKeeps(env, run[|run| - 2], e);
    }
  }

  /** Every turn spawns at most two processes and, once closed, has exactly one terminal event, the
      last; the last announced session is the stored one. */
  lemma TurnsAreBounded(env: Env, s: State, q: nat)
    requires Reachable(env, s) && q < |s.queues|
    ensures QueueInv(s.queues[q])
    ensures s.queues[q].ended <==> s.turn != Some(q)
    ensures s.sessionAnnounced ==> LastSession(s.log) == s.sessionId
  {
    var run :| IsRun(env, run) && run[|run| - 1] == s;
    RunKeeps(env, run);
  }

  lemma InitialReachable(env: Env)
    ensures Reachable(env, INITIAL)
  {
    assert IsRun(env, [INITIAL]) && [INITIAL][0] == INITIAL;
  }

  lemma RunExtends(env: Env, run: seq<State>, next: State)
    requires IsRun(env, run) && Follows(env, run[|run| - 1], next)
    ensures IsRun(env, run + [next])
  {
    var more := run + [next];
    forall i: nat ensures Linked(env, more, i) {
      assert Linked(env, run, i);
    }
  }

  lemma StepReachable(env: Env, s: State, e: Event)
    requires Reachable(env, s)
    ensures Reachable(env, Step(env, s, e))
  {
    var run :| IsRun(env, run) && run[|run| - 1] == s;
    var next := Step(env, s, e);
    RunExtends(env, run, next);
    assert (run + [next])[|run + [next]| - 1] == next;
  }
}
