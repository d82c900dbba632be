/** server/src/backends/grokCli.ts: the backend object. Each method does to the fields what the step
    function of the same name says of the state. */
module GrokCli {
  import opened Options
  import opened TurnEvents
  import opened GrokProtocol

  class GrokCliBackend {
    const env: Env
    var sessionId: Option<string>
    var sessionAnnounced: bool
    var sessionFlag: Flag
    var started: bool
    var turn: Option<nat>
    var turnTimeouts: Option<nat>
    var retried: bool
    /** The fields that `spawnAttempt` resets, with the arguments it used. */
    var attempt: Attempt
    var queues: seq<Queue>
    ghost var log: seq<TurnEvent>

    ghost function View(): State
      reads this
    {
      State(sessionId, sessionAnnounced, sessionFlag, started, turn, turnTimeouts, retried, attempt, queues, log)
    }

    /** Some run of the protocol leads to where the object is. */
    ghost predicate Valid()
      reads this
    {
      Reachable(env, View())
    }

    constructor (env: Env)
      ensures Valid() && this.env == env && View() == INITIAL
    {
      this.env := env;
      sessionId, sessionAnnounced, sessionFlag, started := None, false, Create, false;
      turn, turnTimeouts, retried := None, None, false;
      attempt := Attempt(Create, None, "", None, false, [], map[], None);
      queues, log := [], [];
      new;
      InitialReachable(env);
    }

    method Start(resumeToken: Option<string>, newId: string)
      requires Valid()
      modifies this
      ensures View() == old(View()).Start(env, resumeToken, newId)
      ensures Valid()
    {
      StepReachable(env, View(), StartCall(resumeToken, newId));
      var token := if resumeToken.Some? && !env.isUuid(resumeToken.value) then None else resumeToken;
      sessionId := if token.Some? then token else Some(newId);
      sessionFlag := if token.Some? then Resume else Create;
      sessionAnnounced := false;
      started := true;
    }

    method Stop()
      requires Valid()
      modifies this
      ensures View() == old(View()).Stop()
      ensures Valid()
    {
      StepReachable(env, View(), StopCall);
      started := false;
    }

    method Push(q: nat, ev: TurnEvent)
      modifies this
      ensures View() == old(View()).Push(q, ev)
    {
      if q < |queues| && !queues[q].ended {
        queues := queues[q := queues[q].(events := queues[q].events + [ev])];
        log := log + [ev];
      }
    }

    method Emit(ev: TurnEvent)
      modifies this
      ensures View() == old(View()).Emit(ev)
    {
      if turn.Some? { Push(turn.value, ev); }
    }

    method FinishTurn()
      modifies this
      ensures View() == old(View()).FinishTurn()
    {
      turnTimeouts := None;
      if turn.Some? && turn.value < |queues| {
        queues := queues[turn.value := queues[turn.value].(ended := true)];
      }
      turn := None;
    }

    method SpawnAttempt()
      modifies this
      ensures View() == old(View()).SpawnAttempt()
    {
      attempt := Attempt(sessionFlag, sessionId, "", None, false, [], map[], None);
      if turn.Some? && turn.value < |queues| {
        var queue := queues[turn.value];
        queues := queues[turn.value := queue.(spawns := queue.spawns + 1, before := |queue.events|)];
      }
    }

    method OpenTurn()
      modifies this
      ensures View() == old(View()).OpenTurn()
    {
      var queue := |queues|;
      queues := queues + [Queue([], false, 0, 0)];
      turn := Some(queue);
      retried := false;
      if sessionId.Some? && !sessionAnnounced {
        sessionAnnounced := true;
        Push(queue, Session(sessionId.value));
      }
    }

    /** Turns are serialised by the caller: none is open. */
    method SendTurn(readable: bool) returns (queue: nat)
      requires Valid() && turn.None?
      modifies this
      ensures queue == |old(queues)|
      ensures View() == old(View()).SendTurn(readable)
      ensures Valid()
    {
      StepReachable(env, View(), SendTurnCall(readable));
      queue := |queues|;
      OpenTurn();
      if !readable {
        attempt := Attempt(attempt.flag, attempt.id, "", None, false, [], map[], None);
        Emit(Error("image not readable", false));
        FinishTurn();
        return;
      }
      SpawnAttempt();
      turnTimeouts := Some(queue);
    }

    method Interrupt()
      requires Valid()
      modifies this
      ensures View() == old(View()).Interrupt()
      ensures Valid()
    {
      StepReachable(env, View(), InterruptCall);
      attempt := attempt.(interrupted := true);
    }

    method TimedOut(message: string)
      requires Valid()
      modifies this
      ensures View() == old(View()).TimedOut(message)
      ensures Valid()
    {
      StepReachable(env, View(), TurnTimeout(message));
      if turnTimeouts.None? || turn != turnTimeouts { return; }
      attempt := attempt.(interrupted := true);
      Push(turn.value, Error(message, false));
      FinishTurn();
    }

    method Stderr(s: string)
      requires Valid()
      modifies this
      ensures View() == old(View()).Stderr(s)
      ensures Valid()
    {
      StepReachable(env, View(), StderrRead(s));
      attempt := attempt.(stderrTail := attempt.stderrTail + [s]);
      if |attempt.stderrTail| > 20 {
        attempt := attempt.(stderrTail := attempt.stderrTail[1..]);
      }
    }

    method Route(line: Line)
      requires Valid()
      modifies this
      ensures View() == old(View()).Route(env, line)
      ensures Valid()
    {
      StepReachable(env, View(), LineRead(line));
      if turn.None? { return; }
      match line
      case Thought(data) =>
        if data != "" { Emit(Thinking(data)); }
      case Text(data) =>
        if data != "" {
          attempt := attempt.(accText := attempt.accText + data);
          Emit(Delta(data));
        }
      case ToolCall(id, name) =>
        var tool := if name.Some? then name.value else "tool";
        if id.Some? { attempt := attempt.(toolNames := attempt.toolNames[id.value := tool]); }
        attempt := attempt.(pendingTool := Some(tool));
        Emit(ToolUse(tool));
      case ToolCallUpdate(id, status) =>
        if status.Running? { return; }
        var tool := if id.Some? && id.value in attempt.toolNames then attempt.toolNames[id.value]
                    else if attempt.pendingTool.Some? then attempt.pendingTool.value else "tool";
        attempt := attempt.(pendingTool := None);
        Emit(ToolResult(tool, status.Completed?));
      case End(stopReason, id) =>
        attempt := attempt.(stopReason := stopReason);
        if id.Some? && env.isUuid(id.value) && id != sessionId {
          sessionId := id;
          Emit(Session(id.value));
        }
      case OtherLine =>
    }

    method HandleExit(code: Option<int>, newId: string)
      requires Valid()
      modifies this
      ensures View() == old(View()).HandleExit(env, code, newId)
      ensures Valid()
    {
      StepReachable(env, View(), Exit(code, newId));
      if turn.None? { return; }
      if !attempt.interrupted && code != Some(0) && !retried && env.mentionsSession(attempt.stderrTail) {
        retried := true;
        if sessionFlag.Create? {
          sessionFlag := Resume;
        } else {
          sessionFlag := Create;
          sessionId := Some(newId);
          Emit(Session(newId));
        }
        SpawnAttempt();
        return;
      }
      if attempt.interrupted {
        Emit(Error("turn interrupted", false));
      } else if code == Some(0) {
        sessionFlag := Resume;
        if attempt.stopReason.Some? && env.abnormalStop(attempt.stopReason.value) {
          Emit(Error("turn not completed", false));
        } else {
          Emit(Done(attempt.accText));
        }
      } else {
        Emit(Error("grok exited abnormally", false));
      }
      FinishTurn();
    }
  }

  /** What the object keeps through any calls: every turn has spawned at most two processes and ended, once over, with
      its one terminal event; the last announced session is the stored one. */
  lemma ObjectPromises(b: GrokCliBackend, q: nat)
    requires b.Valid() && q < |b.queues|
    ensures QueueInv(b.queues[q]) && (b.queues[q].ended <==> b.turn != Some(q))
    ensures b.sessionAnnounced ==> LastSession(b.log) == b.sessionId
  {
    TurnsAreBounded(b.env, b.View(), q);
  }
}
