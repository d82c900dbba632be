/** server/src/backends/turnTimeouts.ts: the idle clock and the absolute clock of one turn. */
module TurnTimeouts {
  import opened Options
  import opened TurnEvents

  datatype Kind = Idle | Hard

  /** Milliseconds. */
  datatype Config = Config(idle: nat, hard: nat)

  predicate IsActivity(ev: TurnEvent) {
    ev.Delta? || ev.Thinking? || ev.ToolUse? || ev.ToolResult?
  }

  /** A timer is the time at which its callback falls due. */
  datatype State = State(idleTimer: Option<int>, hardTimer: Option<int>, finished: bool)
  {
    function ArmIdle(c: Config, now: int): State {
      this.(idleTimer := Some(now + c.idle))
    }

    function Finish(): State {
      State(None, None, true)
    }

    function Start(c: Config, now: int): State {
      Finish().(finished := false).ArmIdle(c, now).(hardTimer := Some(now + c.hard))
    }

    function Activity(c: Config, ev: TurnEvent, now: int): State {
      if finished || !IsActivity(ev) then this else ArmIdle(c, now)
    }

    function Pulse(c: Config, now: int): State {
      if finished then this else ArmIdle(c, now)
    }

    function Fire(): State {
      if finished then this else Finish()
    }

    function Timer(kind: Kind): Option<int> {
      if kind.Idle? then idleTimer else hardTimer
    }
  }

  const FRESH := State(None, None, false)

  /** What happens to a controller, in the order it happens. `Expire` is a timer going off:
      possible once the timer is armed and due, however late. */
  datatype Input = StartCall | ActivityCall(ev: TurnEvent) | PulseCall | FinishCall | Expire(kind: Kind)

  datatype Act = Act(at: int, input: Input)

  predicate Enabled(s: State, a: Act) {
    a.input.Expire? ==> s.Timer(a.input.kind).Some? && s.Timer(a.input.kind).value <= a.at
  }

  function Step(c: Config, s: State, a: Act): State {
    match a.input
    case StartCall => s.Start(c, a.at)
    case ActivityCall(ev) => s.Activity(c, ev, a.at)
    case PulseCall => s.Pulse(c, a.at)
    case FinishCall => s.Finish()
    case Expire(_) => s.Fire()
  }

  /** A controller is started as soon as it is built. */
  function Run(c: Config, acts: seq<Act>): State {
    if |acts| == 0 then FRESH
    else Step(c, Run(c, acts[..|acts| - 1]), acts[|acts| - 1])
  }

  ghost predicate EnabledAt(c: Config, acts: seq<Act>, i: nat) {
    i < |acts| ==> Enabled(Run(c, acts[..i]), acts[i])
  }

  ghost predicate IsRun(c: Config, acts: seq<Act>) {
    && (|acts| > 0 ==> acts[0].input.StartCall?)
    && (forall i :: EnabledAt(c, acts, i))
    && (forall i, j :: 0 <= i < j < |acts| ==> acts[i].at <= acts[j].at)
  }

  // ---- the reference: what the history alone says about the turn ----

  /** The turn under way: when it was started and when it last showed accepted activity. */
  datatype Turn = Turn(startedAt: int, lastActivity: int)

  /** Output of the turn, or a pulse: anything but the announcement of a session and the two terminal events. */
  predicate Accepts(input: Input) {
    input.PulseCall? || (input.ActivityCall? && !input.ev.Session? && !input.ev.Done? && !input.ev.Error?)
  }

  function Current(acts: seq<Act>): Option<Turn> {
    if |acts| == 0 then None
    else
      var before, a := Current(acts[..|acts| - 1]), acts[|acts| - 1];
      match a.input
      case StartCall => Some(Turn(a.at, a.at))
      case FinishCall => None
      case Expire(_) => None
      case _ => if before.Some? && Accepts(a.input) then Some(before.value.(lastActivity := a.at)) else before
  }

  function Clocks(c: Config, acts: seq<Act>): State {
    match Current(acts)
    case None => State(None, None, true)
    case Some(turn) => State(Some(turn.lastActivity + c.idle), Some(turn.startedAt + c.hard), false)
  }

  /** The two timers are, in every run, exactly start + hard limit and last accepted activity
      + idle limit while a turn is under way, and both are gone when none is. */
  lemma {:induction false} TwoClocks(c: Config, acts: seq<Act>)
    requires IsRun(c, acts) && |acts| > 0
    ensures Run(c, acts) == Clocks(c, acts)
  {
    var front := acts[..|acts| - 1];
    if |front| > 0 {
      FrontIsRun(c, acts, |front|);
      TwoClocks(c, front);
    }
  }

  /** Item s starts a turn that is still under way just before item i. */
  predicate StartsTurnOf(acts: seq<Act>, s: int, i: int)
    requires i <= |acts|
  {
    && 0 <= s < i && acts[s].input.StartCall?
    && forall k :: s < k < i ==> !acts[k].input.Expire? && !acts[k].input.FinishCall? && !acts[k].input.StartCall?
  }

  /** A callback belongs to a turn that was started, neither finished nor timed out since,
      and comes no earlier than its limit. An idle callback means that nothing was accepted
      for the whole idle limit before it. */
  lemma CallbackMeansSilence(c: Config, acts: seq<Act>, i: nat) returns (s: nat)
    requires IsRun(c, acts) && i < |acts| && acts[i].input.Expire?
    ensures StartsTurnOf(acts, s, i)
    ensures acts[i].input.kind.Hard? ==> acts[i].at >= acts[s].at + c.hard
    ensures acts[i].input.kind.Idle? ==> acts[i].at >= acts[s].at + c.idle
    ensures acts[i].input.kind.Idle? ==>
      forall k :: s < k < i && Accepts(acts[k].input) ==> acts[k].at <= acts[i].at - c.idle
  {
    var front := acts[..i];
    FrontIsRun(c, acts, i);
    TwoClocks(c, front);
    s := CurrentStart(front);
    assert acts[s] == front[s];
    forall k | s < k < i
      ensures acts[k] == front[k]
    {
    }
  }

  lemma FrontIsRun(c: Config, acts: seq<Act>, i: nat)
    requires IsRun(c, acts) && i < |acts|
    ensures IsRun(c, acts[..i]) && Enabled(Run(c, acts[..i]), acts[i])
  {
    assert EnabledAt(c, acts, i);
    var front := acts[..i];
    forall j: nat ensures EnabledAt(c, front, j) {
      assert EnabledAt(c, acts, j);
      if j < i {
        assert front[..j] == acts[..j];
      }
    }
  }

  lemma {:induction false} CurrentStart(acts: seq<Act>) returns (s: nat)
    requires Current(acts).Some?
    requires forall i, j :: 0 <= i < j < |acts| ==> acts[i].at <= acts[j].at
    ensures s < |acts| && acts[s].input.StartCall? && acts[s].at == Current(acts).value.startedAt
    ensures acts[s].at <= Current(acts).value.lastActivity
    ensures forall k :: s < k < |acts| ==>
        !acts[k].input.Expire? && !acts[k].input.FinishCall? && !acts[k].input.StartCall?
    ensures forall k :: s < k < |acts| && Accepts(acts[k].input) ==> acts[k].at <= Current(acts).value.lastActivity
  {
    var front, last := acts[..|acts| - 1], acts[|acts| - 1];
    if last.input.StartCall? {
      s := |front|;
    } else {
      s := CurrentStart(front);
      assert acts[s] == front[s];
      assert forall k :: s < k < |front| ==> acts[k] == front[k];
    }
  }

  /** Each start leads to at most one callback. */
  lemma OneCallbackPerStart(c: Config, acts: seq<Act>, i: nat, j: nat)
    requires IsRun(c, acts) && i < j < |acts| && acts[i].input.Expire? && acts[j].input.Expire?
    ensures exists s :: i < s < j && acts[s].input.StartCall?
  {
    var s := CallbackMeansSilence(c, acts, j);
  }

  lemma RunExtends(c: Config, acts: seq<Act>, a: Act)
    requires IsRun(c, acts) && Enabled(Run(c, acts), a)
    requires if acts == [] then a.input.StartCall? else acts[|acts| - 1].at <= a.at
    ensures IsRun(c, acts + [a]) && Run(c, acts + [a]) == Step(c, Run(c, acts), a)
  {
    var more := acts + [a];
    assert more[..|acts|] == acts;
    forall i: nat ensures EnabledAt(c, more, i) {
      assert EnabledAt(c, acts, i);
      if i < |acts| {
        assert more[..i] == acts[..i];
      }
    }
  }

  lemma LiveWhileArmed(c: Config, acts: seq<Act>, kind: Kind)
    requires IsRun(c, acts) && Run(c, acts).Timer(kind).Some?
    ensures !Run(c, acts).finished
  {
    if acts != [] {
      TwoClocks(c, acts);
    }
  }

  // ---- configured limits ----

  /** A configured number of milliseconds; None when `Number(value)` is not finite. */
  function PositiveMs(value: Option<real>, fallback: nat): nat {
    if value.Some? && value.value > 0.0 then value.value.Floor else fallback
  }

  function Configured(profile: Option<Option<real>>, global: Option<real>): Option<real> {
    if profile.Some? then profile.value else global
  }

  function ResolveTurnTimeouts(globalIdle: Option<real>, globalHard: Option<real>,
      profileIdle: Option<Option<real>>, profileHard: Option<Option<real>>): Config {
    Config(PositiveMs(Configured(profileIdle, globalIdle), 300_000),
           PositiveMs(Configured(profileHard, globalHard), 900_000))
  }

  /** `positiveMs` by itself: a proper fraction of one millisecond passes the test for positivity
      and is then floored to 0. */
  lemma PositiveMsIsPositive(value: Option<real>, fallback: nat)
    requires fallback > 0
    ensures PositiveMs(value, fallback) > 0 <==> !(value.Some? && 0.0 < value.value < 1.0)
    ensures PositiveMs(Some(0.5), fallback) == 0
  {
    if value.Some? && value.value > 0.0 {
      assert value.value.Floor as real <= value.value < value.value.Floor as real + 1.0;
    }
  }

  /** The limits of a backend's controller: the factory resolves what is configured, and the backend resolves the
      outcome once more. */
  function ControllerConfig(globalIdle: Option<real>, globalHard: Option<real>,
      profileIdle: Option<Option<real>>, profileHard: Option<Option<real>>): Config {
    var once := ResolveTurnTimeouts(globalIdle, globalHard, profileIdle, profileHard);
    ResolveTurnTimeouts(Some(once.idle as real), Some(once.hard as real), None, None)
  }

  /** Resolving twice, a configured limit of at least one millisecond counts, less its fraction, and everything else
      gives the fallback: no controller ever has a limit of 0. */
  lemma ControllerLimits(globalIdle: Option<real>, globalHard: Option<real>,
      profileIdle: Option<Option<real>>, profileHard: Option<Option<real>>)
    ensures var c := ControllerConfig(globalIdle, globalHard, profileIdle, profileHard);
      && c.idle > 0 && c.hard > 0
      && Meant(c.idle, Configured(profileIdle, globalIdle), 300_000)
      && Meant(c.hard, Configured(profileHard, globalHard), 900_000)
  {
    ResolvedTwice(Configured(profileIdle, globalIdle), 300_000);
    ResolvedTwice(Configured(profileHard, globalHard), 900_000);
  }

  predicate Meant(limit: nat, value: Option<real>, fallback: nat) {
    if value.Some? && value.value >= 1.0 then limit as real <= value.value < limit as real + 1.0 else limit == fallback
  }

  lemma ResolvedTwice(value: Option<real>, fallback: nat)
    requires fallback > 0
    ensures var limit := PositiveMs(Some(PositiveMs(value, fallback) as real), fallback);
      limit > 0 && Meant(limit, value, fallback)
  {
    PositiveMsIsPositive(value, fallback);
    var once := PositiveMs(value, fallback);
    assert (once as real).Floor == once;
    if value.Some? && value.value > 0.0 {
      assert once as real <= value.value < once as real + 1.0;
    }
  }

  class TurnTimeoutController {
    const config: Config
    var idleTimer: Option<int>
    var hardTimer: Option<int>
    var finished: bool
    ghost var acts: seq<Act>

    ghost function View(): State
      reads this
    {
      State(idleTimer, hardTimer, finished)
    }

    /** The controller is where its history `acts` leaves it. */
    ghost predicate Valid()
      reads this
    {
      IsRun(config, acts) && View() == Run(config, acts)
    }

    constructor (config: Config)
      ensures Valid() && acts == [] && this.config == config
    {
      this.config := config;
      idleTimer, hardTimer, finished, acts := None, None, false, [];
    }

    /** The next thing that happens to the controller: a call, or a timer that is due. `called` says whether
        `onTimeout` is invoked. */
    method Deliver(a: Act) returns (called: bool)
      requires Valid() && Enabled(View(), a)
      requires if acts == [] then a.input.StartCall? else acts[|acts| - 1].at <= a.at
      modifies this
      ensures Valid() && acts == old(acts) + [a]
      ensures called <==> a.input.Expire?
    {
      RunExtends(config, acts, a);
      if a.input.Expire? {
        LiveWhileArmed(config, acts, a.input.kind);
      }
      acts := acts + [a];
      called := false;
      match a.input {
        case StartCall => Start(a.at);
        case ActivityCall(ev) => Activity(ev, a.at);
        case PulseCall => Pulse(a.at);
        case FinishCall => Finish();
        case Expire(kind) => called := Fire(kind);
      }
    }

    method Start(now: int)
      modifies this`idleTimer, this`hardTimer, this`finished
      ensures View() == old(View()).Start(config, now)
    {
      Finish();
      finished := false;
      ArmIdle(now);
      hardTimer := Some(now + config.hard);
    }

    method Activity(ev: TurnEvent, now: int)
      modifies this`idleTimer, this`hardTimer, this`finished
      ensures View() == old(View()).Activity(config, ev, now)
    {
      if finished || !IsActivity(ev) { return; }
      ArmIdle(now);
    }

    method Pulse(now: int)
      modifies this`idleTimer, this`hardTimer, this`finished
      ensures View() == old(View()).Pulse(config, now)
    {
      if finished { return; }
      ArmIdle(now);
    }

    method Finish()
      modifies this`idleTimer, this`hardTimer, this`finished
      ensures View() == old(View()).Finish()
    {
      finished := true;
      idleTimer := None;
      hardTimer := None;
    }

    method ArmIdle(now: int)
      modifies this`idleTimer, this`hardTimer, this`finished
      ensures View() == old(View()).ArmIdle(config, now)
    {
      idleTimer := Some(now + config.idle);
    }

    /** Runs when a timer goes off; `called` says whether `onTimeout` is invoked. */
    method Fire(kind: Kind) returns (called: bool)
      modifies this`idleTimer, this`hardTimer, this`finished
      ensures called == !old(finished)
      ensures View() == old(View()).Fire()
    {
      if finished { return false; }
      Finish();
      called := true;
    }
  }

  /** So whatever a controller object went through, its timers are the ones its history alone tells of. */
  lemma ObjectTwoClocks(t: TurnTimeoutController)
    requires t.Valid() && t.acts != []
    ensures t.View() == Clocks(t.config, t.acts)
  {
    TwoClocks(t.config, t.acts);
  }
}
