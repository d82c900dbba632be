/** server/src/backends/grokCli.ts: the flag-flip retry against the sessions that really exist. */
module GrokSelfCorrection {
  import opened Options
  import opened TurnEvents
  import opened Sequences
  import opened GrokProtocol

  /** The backend, the sessions on disk, and for every turn whether its last process to exit had been given
      arguments that agreed with them. */
  datatype World = World(s: State, store: set<string>, agreed: map<nat, bool>)

  /** The CLI accepts these arguments. */
  predicate Agrees(flag: Flag, id: Option<string>, store: set<string>) {
    id.Some? && (flag.Resume? <==> id.value in store)
  }

  predicate AttemptAgrees(w: World) {
    Agrees(w.s.attempt.flag, w.s.attempt.id, w.store)
  }

  /** The CLI, when nothing else goes wrong: it reports sessions it has, fails with a message about
      the session exactly when its arguments disagree with the store, and otherwise exits with 0
      and leaves its session on disk. */
  predicate CliStep(env: Env, w: World, e: Event, w': World) {
    && w'.s == Step(env, w.s, e)
    && w'.agreed == (if e.Exit? && w.s.turn.Some? then w.agreed[w.s.turn.value := AttemptAgrees(w)] else w.agreed)
    && match e
       case SendTurnCall(readable) => readable && w.s.turn.None? && w.s.sessionId.Some? && w'.store == w.store
       case LineRead(line) =>
         && w.s.turn.Some? && w.s.attempt.id.Some? && w'.store == w.store
         && (line.End? && line.sessionId.Some? ==> line.sessionId.value in w.store + {w.s.attempt.id.value})
       case StderrRead(_) => w'.store == w.store
       case Exit(code, newId) =>
         && w.s.turn.Some? && w.s.attempt.id.Some? && newId !in w.store
         && (if AttemptAgrees(w) then code == Some(0) && w'.store == w.store + {w.s.attempt.id.value}
             else code != Some(0) && env.mentionsSession(w.s.attempt.stderrTail) && w'.store == w.store)
       case _ => false
  }

  /** Between turns anything may happen to the store, and the backend may be started again. */
  predicate Drift(env: Env, w: World, w': World, token: Option<string>, newId: string) {
    w.s.turn.None? && w'.agreed == w.agreed && (w'.s == w.s || w'.s == Step(env, w.s, StartCall(token, newId)))
  }

  ghost predicate WorldStep(env: Env, w: World, w': World, drift: bool) {
    || (exists e :: CliStep(env, w, e, w'))
    || (drift && exists token, newId :: Drift(env, w, w', token, newId))
  }

  /** A run of whole turns that nobody interrupts, from a moment when no turn is open. */
  ghost predicate CleanRun(env: Env, ws: seq<World>, drift: bool) {
    && ws != [] && ws[0].s.turn.None? && Inv(ws[0].s)
    && forall i :: 0 < i < |ws| ==> WorldStep(env, ws[i - 1], ws[i], drift)
  }

  /** A turn that ended because its last process accepted its arguments. */
  ghost predicate EndedWell(queue: Queue, most: nat) {
    && 1 <= queue.spawns <= most
    && queue.events != []
    && (queue.events[|queue.events| - 1].Done?
        || queue.events[|queue.events| - 1] == Error("turn not completed", false))
  }

  predicate LastAgreed(w: World, q: nat) {
    q in w.agreed && w.agreed[q]
  }

  /** `most` is the number of processes a turn may need: two, or one while flag and store agree. */
  ghost predicate Clean(w: World, first: nat, most: nat) {
    && Inv(w.s)
    && first <= |w.s.queues|
    && (forall q :: first <= q < |w.s.queues| && w.s.turn != Some(q) ==>
        EndedWell(w.s.queues[q], most) && LastAgreed(w, q))
    && (most == 1 && w.s.turn.None? ==> Agrees(w.s.sessionFlag, w.s.sessionId, w.store))
    && (w.s.turn.Some? ==> OpenClean(w, most) && first <= w.s.turn.value)
  }

  ghost predicate OpenClean(w: World, most: nat)
    requires w.s.turn.Some? && w.s.turn.value < |w.s.queues|
  {
    var s := w.s;
    && s.attempt.flag == s.sessionFlag && !s.attempt.interrupted
    && s.attempt.id.Some? && s.sessionId.Some?
    && s.sessionId.value in w.store + {s.attempt.id.value}
    && s.queues[s.turn.value].spawns == (if s.retried then 2 else 1)
    && (s.retried || most == 1 ==> AttemptAgrees(w))
    && (most == 1 ==> !s.retried)
  }

  /** From any mismatch, one retry makes the arguments acceptable. */
  lemma RetryAgrees(env: Env, w: World, e: Event, w': World)
    requires CliStep(env, w, e, w') && e.Exit? && Inv(w.s) && w.s.turn.Some? && OpenClean(w, 2) && !AttemptAgrees(w)
    ensures w'.s.turn == w.s.turn && w'.s.retried && !w.s.retried
    ensures OpenClean(w', 2) && AttemptAgrees(w')
    ensures |w'.s.queues| == |w.s.queues| && forall q :: 0 <= q < |w.s.queues| && w.s.turn != Some(q) ==>
        w'.s.queues[q] == w.s.queues[q]
  {
    assert w.s.Retries(env, e.code);
  }

  lemma Closing(s: State, ev: TurnEvent)
    requires s.turn.Some? && s.turn.value < |s.queues| && !s.queues[s.turn.value].ended
    ensures var queue := s.queues[s.turn.value];
      s.Emit(ev).FinishTurn() == s.(turn := None, turnTimeouts := None, log := s.log + [ev],
        queues := s.queues[s.turn.value := Queue(queue.events + [ev], true, queue.spawns, queue.before)])
  {
  }

  /** A process that was accepted ends the turn, and its session is there to be resumed. */
  lemma AcceptedExit(env: Env, w: World, e: Event, w': World)
    requires w.s.turn.Some? && w.s.turn.value < |w.s.queues| && !w.s.queues[w.s.turn.value].ended
    requires w.s.queues[w.s.turn.value].spawns >= 1
    requires CliStep(env, w, e, w') && e.Exit? && OpenClean(w, 2) && AttemptAgrees(w)
    ensures w'.s.turn.None? && Agrees(w'.s.sessionFlag, w'.s.sessionId, w'.store)
    ensures |w'.s.queues| == |w.s.queues| && EndedWell(w'.s.queues[w.s.turn.value], w.s.queues[w.s.turn.value].spawns)
    ensures forall q :: 0 <= q < |w.s.queues| && w.s.turn != Some(q) ==> w'.s.queues[q] == w.s.queues[q]
  {
    var s1 := w.s.(sessionFlag := Resume);
    Closing(s1, Done(w.s.attempt.accText));
    Closing(s1, Error("turn not completed", false));
  }

  lemma ExitKeeps(env: Env, w: World, e: Event, w': World, first: nat, most: nat)
    requires 1 <= most <= 2 && Clean(w, first, most) && CliStep(env, w, e, w') && e.Exit?
    ensures Clean(w', first, most)
  {
    StepKeeps(env, w.s, e);
    if AttemptAgrees(w) {
      AcceptedExit(env, w, e, w');
    } else {
      RetryAgrees(env, w, e, w');
    }
  }

  /** An event in the open turn touches no other queue, and of the open one only its events. */
  lemma EmitTouches(s: State, ev: TurnEvent)
    requires s.turn.Some? && s.turn.value < |s.queues|
    ensures |s.Emit(ev).queues| == |s.queues| && s.Emit(ev).queues[s.turn.value].spawns == s.queues[s.turn.value].spawns
    ensures forall q :: 0 <= q < |s.queues| && s.turn != Some(q) ==> s.Emit(ev).queues[q] == s.queues[q]
    ensures s.Emit(ev) == s.(queues := s.Emit(ev).queues, log := s.Emit(ev).log)
  {
  }

  /** What a line can change of what a clean turn is judged by: the session id, to one that it reports. */
  predicate Touches(s: State, line: Line, t: State)
    requires s.turn.Some? && s.turn.value < |s.queues|
  {
    && t.turn == s.turn && t.retried == s.retried && t.sessionFlag == s.sessionFlag
    && t.attempt.flag == s.attempt.flag && t.attempt.id == s.attempt.id
        && t.attempt.interrupted == s.attempt.interrupted
    && |t.queues| == |s.queues| && t.queues[s.turn.value].spawns == s.queues[s.turn.value].spawns
    && (forall q :: 0 <= q < |s.queues| && s.turn != Some(q) ==> t.queues[q] == s.queues[q])
    && (t.sessionId == s.sessionId || (line.End? && line.sessionId.Some? && t.sessionId == line.sessionId))
  }

  predicate SameAttempt(a: Attempt, b: Attempt) {
    a.flag == b.flag && a.id == b.id && a.interrupted == b.interrupted
  }

  lemma EmitFrom(s: State, line: Line, s1: State, ev: TurnEvent)
    requires s.turn.Some? && s.turn.value < |s.queues|
    requires s1 == s.(attempt := s1.attempt, sessionId := s1.sessionId) && SameAttempt(s.attempt, s1.attempt)
    requires s1.sessionId == s.sessionId || (line.End? && line.sessionId.Some? && s1.sessionId == line.sessionId)
    ensures Touches(s, line, s1) && Touches(s, line, s1.Emit(ev))
  {
    EmitTouches(s1, ev);
  }

  lemma RouteTouches(env: Env, s: State, line: Line)
    requires s.turn.Some? && s.turn.value < |s.queues|
    ensures Touches(s, line, s.Route(env, line))
  {
    match line
    case Thought(data) => EmitFrom(s, line, s, Thinking(data));
    case Text(data) => EmitFrom(s, line, s.(attempt := s.attempt.(accText := s.attempt.accText + data)), Delta(data));
    case ToolCall(id, name) =>
      var tool := if name.Some? then name.value else "tool";
      var names := if id.Some? then s.attempt.toolNames[id.value := tool] else s.attempt.toolNames;
      EmitFrom(s, line, s.(attempt := s.attempt.(toolNames := names, pendingTool := Some(tool))), ToolUse(tool));
    case ToolCallUpdate(id, status) =>
      var tool := if id.Some? && id.value in s.attempt.toolNames then s.attempt.toolNames[id.value]
                  else if s.attempt.pendingTool.Some? then s.attempt.pendingTool.value else "tool";
      EmitFrom(s, line, s.(attempt := s.attempt.(pendingTool := None)), ToolResult(tool, status.Completed?));
    case End(_, _) => EndTouches(env, s, line);
    case OtherLine =>
  }

  lemma EndTouches(env: Env, s: State, line: Line)
    requires s.turn.Some? && s.turn.value < |s.queues| && line.End?
    ensures Touches(s, line, s.Route(env, line))
  {
    var s1 := s.(attempt := s.attempt.(stopReason := line.stopReason));
    EmitFrom(s, line, s1, Session(""));
    if line.sessionId.Some? {
      EmitFrom(s, line, s1.(sessionId := line.sessionId), Session(line.sessionId.value));
    }
  }

  lemma LineKeeps(env: Env, w: World, line: Line, w': World, first: nat, most: nat)
    requires 1 <= most <= 2 && Clean(w, first, most) && CliStep(env, w, LineRead(line), w')
    ensures Clean(w', first, most)
  {
    StepKeeps(env, w.s, LineRead(line));
    RouteTouches(env, w.s, line);
    TouchedIsClean(w, line, w', first, most);
  }

  lemma TouchedIsClean(w: World, line: Line, w': World, first: nat, most: nat)
    requires 1 <= most <= 2 && Clean(w, first, most) && w.s.turn.Some? && Touches(w.s, line, w'.s) && Inv(w'.s)
    requires w'.store == w.store && w'.agreed == w.agreed && w.s.attempt.id.Some?
    requires line.End? && line.sessionId.Some? ==> line.sessionId.value in w.store + {w.s.attempt.id.value}
    ensures Clean(w', first, most)
  {
  }

  lemma SendKeeps(env: Env, w: World, e: Event, w': World, first: nat, most: nat)
    requires 1 <= most <= 2 && Clean(w, first, most) && CliStep(env, w, e, w') && e.SendTurnCall?
    ensures Clean(w', first, most)
  {
    StepKeeps(env, w.s, e);
    var opening := OpenTurnShape(w.s);
    UpdateLast(w.s.queues, Queue(opening, false, 0, 0), Queue(opening, false, 1, |opening|));
    assert w'.s.queues == w.s.queues + [Queue(opening, false, 1, |opening|)];
  }

  lemma WorldKeeps(env: Env, w: World, w': World, first: nat, drift: bool)
    requires WorldStep(env, w, w', drift)
    requires Clean(w, first, if drift then 2 else 1)
    ensures Clean(w', first, if drift then 2 else 1)
  {
    var most := if drift then 2 else 1;
    if e :| CliStep(env, w, e, w') {
      match e
      case SendTurnCall(_) => SendKeeps(env, w, e, w', first, most);
      case LineRead(line) => LineKeeps(env, w, line, w', first, most);
      case StderrRead(_) => StepKeeps(env, w.s, e);
      case Exit(_, _) => ExitKeeps(env, w, e, w', first, most);
      case _ =>
    } else {
      var token, newId :| Drift(env, w, w', token, newId);
      StepKeeps(env, w.s, StartCall(token, newId));
    }
  }

  lemma {:induction false} CleanRunKeeps(env: Env, ws: seq<World>, drift: bool)
    requires CleanRun(env, ws, drift)
    requires !drift ==> Agrees(ws[0].s.sessionFlag, ws[0].s.sessionId, ws[0].store)
    ensures Clean(ws[|ws| - 1], |ws[0].s.queues|, if drift then 2 else 1)
  {
    if |ws| > 1 {
      var front := ws[..|ws| - 1];
      forall i | 0 < i < |front|
        ensures WorldStep(env, front[i - 1], front[i], drift)
      {
        assert WorldStep(env, ws[i - 1], ws[i], drift);
      }
      CleanRunKeeps(env, front, drift);
      assert WorldStep(env, ws[|ws| - 2], ws[|ws| - 1], drift);
      WorldKeeps(env, ws[|ws| - 2], ws[|ws| - 1], |ws[0].s.queues|, drift);
    }
  }

  /** From any mismatch of flag and store, and whatever becomes of the store between turns, every
      uninterrupted turn without other failures ends well with at most two processes, the last
      of which agreed with the store. */
  lemma EveryTurnReachesAgreement(env: Env, ws: seq<World>, q: nat)
    requires CleanRun(env, ws, true)
    requires |ws[0].s.queues| <= q < |ws[|ws| - 1].s.queues|
    ensures var w := ws[|ws| - 1];
      && (w.s.turn != Some(q) ==> EndedWell(w.s.queues[q], 2) && LastAgreed(w, q))
      && (w.s.turn == Some(q) ==> w.s.queues[q].spawns == (if w.s.retried then 2 else 1))
      && (w.s.turn == Some(q) && w.s.retried ==> AttemptAgrees(w))
  {
    CleanRunKeeps(env, ws, true);
  }

  /** Once flag and store agree, and as long as nothing else touches the store, every turn needs one process. */
  lemma AgreementLasts(env: Env, ws: seq<World>, q: nat)
    requires CleanRun(env, ws, false)
    requires Agrees(ws[0].s.sessionFlag, ws[0].s.sessionId, ws[0].store)
    requires |ws[0].s.queues| <= q < |ws[|ws| - 1].s.queues|
    ensures ws[|ws| - 1].s.queues[q].spawns == 1
    ensures ws[|ws| - 1].s.turn != Some(q) ==> EndedWell(ws[|ws| - 1].s.queues[q], 1)
  {
    CleanRunKeeps(env, ws, false);
  }
}
