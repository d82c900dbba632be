/** What every step of the heartbeat ledger keeps. */
module HeartbeatInvariant {
  import opened Options
  import opened HeartbeatPolicy
  import opened HeartbeatProtocol

  // ---- the invariant ----

  ghost predicate InFlight(s: State, id: SessionId) {
    exists k :: k in s.unsettled && k.session == id
  }

  predicate SessionBounds(x: Session, now: int) {
    && INTERVAL_MIN_MINUTES <= x.intervalMinutes <= 30
    && x.failureCount <= 3 && (x.failureCount == 3 ==> x.paused)
    && x.Baseline() <= now
  }

  ghost predicate SessionOk(s: State, id: SessionId)
    requires id in s.sessions
  {
    SessionBounds(s.sessions[id], s.now) && (s.sessions[id].failureCount == 3 ==> !InFlight(s, id))
  }

  predicate RowOk(s: State, k: Key) {
    k.session in s.sessions && 1 <= k.tick <= s.sessions[k.session].tickCount
  }

  /** One row a tick, and none besides. */
  ghost predicate RunsOk(s: State) {
    forall k: Key :: k in s.runs <==> RowOk(s, k)
  }

  predicate Begun(s: State, k: Key) {
    k in s.runs && !s.runs[k].outcome.Skipped?
  }

  ghost predicate UnsettledOk(s: State) {
    forall k :: k in s.unsettled ==> Begun(s, k)
  }

  predicate SameContact(s: State, a: SessionId, b: SessionId) {
    a in s.sessions && b in s.sessions && s.sessions[a].contact == s.sessions[b].contact
  }

  ghost predicate OneInFlight(s: State) {
    forall k, l :: k in s.unsettled && l in s.unsettled && SameContact(s, k.session, l.session) ==> k == l
  }

  predicate Unstopped(s: State, id: SessionId) {
    id in s.sessions && !s.sessions[id].stopped
  }

  ghost predicate OneActive(s: State) {
    forall a, b :: Unstopped(s, a) && Unstopped(s, b) && SameContact(s, a, b) ==> a == b
  }

  ghost predicate KeysOk(s: State) {
    (forall m :: m in s.messages ==> m < s.nextMessage) &&
    forall m :: m in s.messages && s.messages[m].key.Some? ==> RowOk(s, s.messages[m].key.value)
  }

  /** After this failure the session is not to be resumed. */
  predicate Final(a: Act) {
    a.FailureRecorded? && (a.wrote || a.failures >= 3)
  }

  predicate BackoffOver(a: Act, now: int) {
    a.FailureRecorded? && a.failures >= 1 && a.at + BackoffMinutes(a.failures) * MINUTE_MS <= now
  }

  /** What a past act still means for its session. */
  ghost predicate ActOk(s: State, a: Act) {
    && a.session in s.sessions
    && match a {
      case Ticked(id, at) =>
        at <= s.now && at + INTERVAL_MIN_MINUTES * MINUTE_MS <= s.sessions[id].Earliest()
      case Dispatched(id, tick) =>
        Begun(s, Key(id, tick))
      case FailureRecorded(id, failures, at, wrote) =>
        && at <= s.now && BackoffOver(a, s.sessions[id].Earliest())
        && (InFlight(s, id) ==> BackoffOver(a, s.now))
        && (Final(a) ==> s.sessions[id].paused && !InFlight(s, id))
      case SuccessRecorded(_) => true
    }
  }

  /** What an act forbids or demands of a later one of the same session. */
  predicate Compatible(a: Act, b: Act) {
    a.session == b.session ==>
      match (a, b) {
        case (Ticked(_, t), Ticked(_, u)) => t + INTERVAL_MIN_MINUTES * MINUTE_MS <= u
        case (Dispatched(_, t), Dispatched(_, u)) => t < u
        case (FailureRecorded(_, _, _, _), Ticked(_, u)) => !Final(a) && BackoffOver(a, u)
        case (FailureRecorded(_, _, _, _), Dispatched(_, _)) => !Final(a)
        case (FailureRecorded(_, _, _, _), SuccessRecorded(_)) => !Final(a)
        case (FailureRecorded(_, _, _, _), FailureRecorded(_, _, u, _)) => !Final(a) && BackoffOver(a, u)
        case _ => true
      }
  }

  ghost predicate LogOk(s: State) {
    forall a :: a in s.log ==> ActOk(s, a)
  }

  predicate Ordered(log: seq<Act>) {
    forall i, j :: 0 <= i < j < |log| ==> Compatible(log[i], log[j])
  }

  ghost predicate DispatchesLogged(s: State) {
    forall k: Key :: Begun(s, k) ==> Dispatched(k.session, k.tick) in s.log
  }

  ghost predicate Inv(s: State) {
    && (forall id :: id in s.sessions ==> SessionOk(s, id))
    && RunsOk(s) && UnsettledOk(s) && OneInFlight(s) && OneActive(s) && KeysOk(s)
    && LogOk(s) && Ordered(s.log) && DispatchesLogged(s)
  }

  // ---- steps that only stop, pause, settle, delete or wait ----

  predicate Calmer(x: Session, y: Session) {
    x == y.(stopped := x.stopped, paused := x.paused) && (x.stopped ==> y.stopped) && (x.paused ==> y.paused)
  }

  predicate Related(s: State, t: State, id: SessionId)
    requires s.sessions.Keys == t.sessions.Keys
  {
    id in s.sessions ==> Calmer(s.sessions[id], t.sessions[id])
  }

  predicate KeyKept(s: State, t: State, m: nat) {
    m in t.messages ==>
      && (m in s.messages || m < t.nextMessage)
      && (t.messages[m].key.Some? ==> m in s.messages && s.messages[m].key == t.messages[m].key)
  }

  ghost predicate Calms(s: State, t: State) {
    && s.sessions.Keys == t.sessions.Keys
    && (forall id :: Related(s, t, id))
    && s.runs.Keys == t.runs.Keys
    && (forall k :: Begun(s, k) <==> Begun(t, k))
    && t.unsettled.Keys <= s.unsettled.Keys
    && (forall m :: KeyKept(s, t, m))
    && s.now <= t.now && s.nextMessage <= t.nextMessage && s.log == t.log
  }

  lemma CalmsKeeps(s: State, t: State)
    requires Inv(s) && Calms(s, t)
    ensures Inv(t)
  {
    forall id | id in t.sessions ensures SessionOk(t, id) {
      assert SessionOk(s, id) && Related(s, t, id);
    }
    CalmsKeepsRows(s, t);
    CalmsKeepsLog(s, t);
  }

  lemma CalmsKeepsRows(s: State, t: State)
    requires Inv(s) && Calms(s, t)
    ensures RunsOk(t) && UnsettledOk(t) && OneInFlight(t) && OneActive(t) && KeysOk(t)
  {
    forall k: Key ensures RowOk(s, k) <==> RowOk(t, k) {
      assert Related(s, t, k.session);
    }
    forall a, b ensures SameContact(s, a, b) <==> SameContact(t, a, b) {
      assert Related(s, t, a) && Related(s, t, b);
    }
    forall a ensures Unstopped(t, a) ==> Unstopped(s, a) {
      assert Related(s, t, a);
    }
    forall m | m in t.messages
        ensures m < t.nextMessage && (t.messages[m].key.Some? ==> RowOk(t, t.messages[m].key.value)) {
      assert KeyKept(s, t, m);
    }
  }

  lemma CalmsKeepsLog(s: State, t: State)
    requires Inv(s) && Calms(s, t)
    ensures LogOk(t) && Ordered(t.log) && DispatchesLogged(t)
  {
    forall a | a in t.log ensures ActOk(t, a) {
      assert ActOk(s, a) && Related(s, t, a.session);
    }
  }

  lemma CalmsTransitive(s: State, t: State, u: State)
    requires Calms(s, t) && Calms(t, u)
    ensures Calms(s, u)
  {
    forall id ensures Related(s, u, id) {
      assert Related(s, t, id) && Related(t, u, id);
    }
    forall m ensures KeyKept(s, u, m) {
      assert KeyKept(s, t, m) && KeyKept(t, u, m);
    }
  }

  lemma StopsCalm(s: State, contact: string)
    ensures Calms(s, s.LookAt(contact)) && Calms(s, s.StopSession(contact))
  {
  }

  lemma GiveUpCalms(s: State, key: Key)
    requires key.session in s.sessions && Begun(s, key)
    ensures Calms(s, s.GiveUp(key))
  {
  }

  lemma MessagesCalm(p: Patterns, s: State, id: SessionId, prompt: nat, result: TurnResult)
    requires id in s.sessions
    ensures Calms(s, s.Protect(p, id, result)) && Calms(s, s.SettleBeat(id, prompt, result))
  {
  }

  lemma RestartCalms(s: State, newProcess: bool)
    ensures Calms(s, s.Restart(newProcess))
  {
  }

  lemma WorldCalms(p: Patterns, s: State, e: Event)
    requires e.MessageWritten? || e.MessageDeleted? || e.ClockAdvance?
    ensures Calms(s, Step(p, s, e))
  {
  }

  // ---- starting a session ----

  lemma StartKeeps(s: State, contact: string, minutes: Option<int>, newId: SessionId, workflowOnly: bool,
      enabled: bool, sample: real)
    requires Inv(s) && newId !in s.sessions && 0.0 <= sample < 1.0
    ensures Inv(s.StartSession(contact, minutes, newId, workflowOnly, enabled, sample).0)
  {
    var t := s.LookAt(contact);
    StopsCalm(s, contact);
    CalmsKeeps(s, t);
    if !t.Active(contact) {
      var expiresAt := if minutes.Some? then Some(s.now + minutes.value * MINUTE_MS) else None;
      var x := Session(contact, s.now, expiresAt, RandomIntervalMinutes(sample), 0, None, false, 0, false);
      NewSessionKeeps(t, newId, x);
    }
  }

  lemma NewSessionKeeps(s: State, newId: SessionId, x: Session)
    requires Inv(s) && newId !in s.sessions && !s.Active(x.contact)
    requires SessionBounds(x, s.now) && x.tickCount == 0 && x.failureCount == 0
    ensures Inv(s.(sessions := s.sessions[newId := x]))
  {
    var t := s.(sessions := s.sessions[newId := x]);
    forall id | id in t.sessions ensures SessionOk(t, id) {
      if id != newId { assert SessionOk(s, id); }
    }
    forall k: Key ensures RowOk(s, k) <==> RowOk(t, k) {
    }
    forall k | k in s.unsettled ensures RowOk(s, k) {
      assert Begun(s, k);
    }
    forall a, b | a != newId && b != newId ensures SameContact(t, a, b) <==> SameContact(s, a, b) {
    }
    forall a | Unstopped(t, a) && a != newId ensures !SameContact(t, a, newId) && Unstopped(s, a) {
    }
    forall a | a in t.log ensures ActOk(t, a) {
      assert ActOk(s, a);
    }
  }

  // ---- a tick ----

  ghost predicate NothingOfContact(s: State, id: SessionId)
    requires id in s.sessions
  {
    forall k :: k in s.unsettled ==> !SameContact(s, k.session, id)
  }

  /** The next tick of a session has no row and no message yet. */
  lemma NextTickIsNew(s: State, id: SessionId)
    requires Inv(s) && id in s.sessions
    ensures Key(id, s.sessions[id].tickCount + 1) !in s.runs
    ensures !s.HasKey(Key(id, s.sessions[id].tickCount + 1))
  {
    var key := Key(id, s.sessions[id].tickCount + 1);
    assert !RowOk(s, key);
  }

  lemma BeginTickKeeps(s: State, id: SessionId, sample: real)
    requires Inv(s) && id in s.sessions && 0.0 <= sample < 1.0
    requires s.now >= s.sessions[id].Earliest() && !s.sessions[id].paused
    ensures Inv(s.BeginTick(id, sample))
  {
    var t := s.BeginTick(id, sample);
    NextTickIsNew(s, id);
    forall k ensures Begun(t, k) <==> Begun(s, k) {
    }
    BeginTickKeepsRows(s, id, sample);
    forall a | a in s.log ensures ActOk(t, a) && Compatible(a, Ticked(id, s.now)) {
      assert ActOk(s, a);
    }
    assert ActOk(t, Ticked(id, s.now));
    forall i, j | 0 <= i < j < |t.log| ensures Compatible(t.log[i], t.log[j]) {
      assert s.log[i] in s.log;
    }
    forall other | other in t.sessions ensures SessionOk(t, other) {
      assert SessionOk(s, other);
    }
  }

  lemma BeginTickKeepsRows(s: State, id: SessionId, sample: real)
    requires Inv(s) && id in s.sessions && 0.0 <= sample < 1.0
    ensures var t := s.BeginTick(id, sample);
      RunsOk(t) && UnsettledOk(t) && OneInFlight(t) && OneActive(t) && KeysOk(t)
  {
    var t := s.BeginTick(id, sample);
    NextTickIsNew(s, id);
    var key := Key(id, s.sessions[id].tickCount + 1);
    forall k: Key ensures RowOk(t, k) <==> RowOk(s, k) || k == key {
    }
    forall a, b ensures SameContact(t, a, b) <==> SameContact(s, a, b) {
    }
    forall a ensures Unstopped(t, a) <==> Unstopped(s, a) {
    }
  }

  /** The row a tick has just opened. */
  ghost predicate Opened(s: State, id: SessionId) {
    && id in s.sessions && var key := Key(id, s.sessions[id].tickCount);
    && key in s.runs && s.runs[key].outcome.Skipped? && !s.HasKey(key)
    && !s.sessions[id].paused && s.sessions[id].lastTickAt == Some(s.now)
    && (forall a :: a in s.log && a.FailureRecorded? && a.session == id ==> BackoffOver(a, s.now))
  }

  lemma BeginTickOpens(s: State, id: SessionId, sample: real)
    requires Inv(s) && id in s.sessions && 0.0 <= sample < 1.0 && s.now >= s.sessions[id].Earliest()
        && !s.sessions[id].paused
    ensures Opened(s.BeginTick(id, sample), id)
  {
    var t := s.BeginTick(id, sample);
    NextTickIsNew(s, id);
    assert t.messages == s.messages;
    forall a | a in t.log && a.FailureRecorded? && a.session == id ensures BackoffOver(a, t.now) {
      assert a in s.log && ActOk(s, a);
    }
  }

  lemma SkipCalms(s: State, id: SessionId, w: Surroundings, idles: bool)
    requires id in s.sessions && (!idles || w.userPresent || !w.contactKnown || w.queueFull)
    ensures Calms(s, s.Dispatch(id, w, idles))
  {
  }

  lemma DispatchKeeps(s: State, id: SessionId, w: Surroundings, idles: bool)
    requires Inv(s) && Opened(s, id) && (idles ==> NothingOfContact(s, id))
    ensures Inv(s.Dispatch(id, w, idles))
  {
    var t := s.Dispatch(id, w, idles);
    if !idles || w.userPresent || !w.contactKnown || w.queueFull {
      SkipCalms(s, id, w, idles);
      CalmsKeeps(s, t);
    } else {
      DispatchKeepsRows(s, id, w);
      DispatchKeepsLog(s, id, w);
      forall other | other in t.sessions ensures SessionOk(t, other) {
        assert SessionOk(s, other);
      }
    }
  }

  ghost predicate Dispatches(s: State, id: SessionId, w: Surroundings) {
    Opened(s, id) && NothingOfContact(s, id) && !w.userPresent && w.contactKnown && !w.queueFull
  }

  lemma DispatchKeepsRows(s: State, id: SessionId, w: Surroundings)
    requires Inv(s) && Dispatches(s, id, w)
    ensures var t := s.Dispatch(id, w, true);
      RunsOk(t) && UnsettledOk(t) && OneInFlight(t) && OneActive(t) && KeysOk(t)
  {
    var t := s.Dispatch(id, w, true);
    var key := Key(id, s.sessions[id].tickCount);
    forall k: Key ensures RowOk(t, k) <==> RowOk(s, k) {
    }
    forall a, b ensures SameContact(t, a, b) <==> SameContact(s, a, b) {
    }
    forall a ensures Unstopped(t, a) <==> Unstopped(s, a) {
    }
    forall k ensures Begun(t, k) <==> Begun(s, k) || k == key {
    }
  }

  lemma DispatchKeepsLog(s: State, id: SessionId, w: Surroundings)
    requires Inv(s) && Dispatches(s, id, w)
    ensures var t := s.Dispatch(id, w, true);
      LogOk(t) && Ordered(t.log) && DispatchesLogged(t)
  {
    var t := s.Dispatch(id, w, true);
    var key := Key(id, s.sessions[id].tickCount);
    var act := Dispatched(id, key.tick);
    forall k ensures Begun(t, k) <==> Begun(s, k) || k == key {
    }
    forall other ensures InFlight(t, other) <==> InFlight(s, other) || other == id {
      assert InFlight(t, id) by { assert key in t.unsettled; }
      if InFlight(s, other) {
        var k :| k in s.unsettled && k.session == other;
        assert k in t.unsettled;
      }
    }
    forall a | a in s.log ensures ActOk(t, a) && Compatible(a, act) {
      assert ActOk(s, a);
      if a.Dispatched? && a.session == id {
        assert RowOk(s, Key(id, a.tick));
      }
    }
    forall i, j | 0 <= i < j < |t.log| ensures Compatible(t.log[i], t.log[j]) {
      assert s.log[i] in s.log;
    }
  }

  lemma TickKeeps(s: State, id: SessionId, w: Surroundings)
    requires Inv(s) && id in s.sessions && 0.0 <= w.sample < 1.0
    requires s.Idles(id, w) ==> NothingOfContact(s, id)
    ensures Inv(s.Tick(id, w))
  {
    if s.Due(id, w) {
      BeginTickKeeps(s, id, w.sample);
      BeginTickOpens(s, id, w.sample);
      var t := s.BeginTick(id, w.sample);
      if s.Idles(id, w) {
        forall k | k in t.unsettled ensures !SameContact(t, k.session, id) {
          assert !SameContact(s, k.session, id);
        }
      }
      DispatchKeeps(t, id, w, s.Idles(id, w));
    } else {
      StopsCalm(s, s.sessions[id].contact);
      CalmsKeeps(s, s.StopSession(s.sessions[id].contact));
    }
  }

  // ---- settling a run ----

  /** The run of `key` has just left `unsettled`. */
  ghost predicate Recordable(s: State, key: Key) {
    && Begun(s, key) && key.session in s.sessions && !InFlight(s, key.session)
        && s.sessions[key.session].failureCount < 3
    && (forall a :: a in s.log && a.FailureRecorded? && a.session == key.session ==> BackoffOver(a, s.now) && !Final(a))
  }

  lemma UnsettledIsRecordable(s: State, key: Key)
    requires Inv(s) && key in s.unsettled
    ensures var t := s.(unsettled := s.unsettled - {key}); Calms(s, t) && Recordable(t, key)
  {
    var t := s.(unsettled := s.unsettled - {key});
    assert RowOk(s, key) && InFlight(s, key.session) && SessionOk(s, key.session);
    forall k | k in t.unsettled ensures k.session != key.session {
      assert !SameContact(s, k.session, key.session);
    }
    forall a | a in t.log && a.FailureRecorded? && a.session == key.session ensures BackoffOver(a, t.now) && !Final(a) {
      assert ActOk(s, a);
    }
  }

  lemma RecordableAfterCalm(s: State, t: State, key: Key)
    requires Recordable(s, key) && Calms(s, t)
    ensures Recordable(t, key)
  {
    assert Related(s, t, key.session);
  }

  function Rewrites(s: State, key: Key, row: RunRow, y: Session, log: seq<Act>): State {
    s.(runs := s.runs[key := row], sessions := s.sessions[key.session := y], log := log)
  }

  predicate SameIdentity(x: Session, y: Session) {
    x.contact == y.contact && x.stopped == y.stopped && x.tickCount == y.tickCount
  }

  ghost predicate SameRows(s: State, t: State) {
    && s.sessions.Keys == t.sessions.Keys && s.runs.Keys == t.runs.Keys
    && (forall id :: id in s.sessions ==> SameIdentity(s.sessions[id], t.sessions[id]))
    && (forall k :: Begun(s, k) <==> Begun(t, k))
    && s.unsettled == t.unsettled && s.messages == t.messages && s.nextMessage == t.nextMessage
  }

  lemma SameRowsKeeps(s: State, t: State)
    requires Inv(s) && SameRows(s, t)
    ensures RunsOk(t) && UnsettledOk(t) && OneInFlight(t) && OneActive(t) && KeysOk(t)
  {
    forall k: Key ensures RowOk(t, k) <==> RowOk(s, k) {
    }
    forall a, b ensures SameContact(t, a, b) <==> SameContact(s, a, b) {
    }
    forall a ensures Unstopped(t, a) <==> Unstopped(s, a) {
    }
  }

  lemma RewritesKeeps(s: State, key: Key, row: RunRow, y: Session, log: seq<Act>)
    requires Inv(s) && Recordable(s, key) && !row.outcome.Skipped?
    requires SameIdentity(s.sessions[key.session], y)
    ensures var t := Rewrites(s, key, row, y, log);
      && RunsOk(t) && UnsettledOk(t) && OneInFlight(t) && OneActive(t) && KeysOk(t)
      && forall k :: Begun(t, k) <==> Begun(s, k)
  {
    SameRowsKeeps(s, Rewrites(s, key, row, y, log));
  }

  lemma SuccessKeeps(s: State, key: Key, row: RunRow, y: Session)
    requires Inv(s) && Recordable(s, key) && !row.outcome.Skipped?
    requires y == s.sessions[key.session].(failureCount := 0, paused := y.paused)
    requires s.sessions[key.session].paused ==> y.paused
    ensures Inv(Rewrites(s, key, row, y, s.log + [SuccessRecorded(key.session)]))
  {
    var act := SuccessRecorded(key.session);
    var t := Rewrites(s, key, row, y, s.log + [act]);
    RewritesKeeps(s, key, row, y, t.log);
    forall id | id in t.sessions ensures SessionOk(t, id) {
      assert SessionOk(s, id);
    }
    forall a | a in s.log ensures ActOk(t, a) && Compatible(a, act) {
      assert ActOk(s, a);
    }
    forall i, j | 0 <= i < j < |t.log| ensures Compatible(t.log[i], t.log[j]) {
      assert s.log[i] in s.log;
    }
  }

  /** The row of a session after one more failure. */
  predicate Fails(s: State, id: SessionId, y: Session, wrote: bool)
    requires id in s.sessions
  {
    var failures := s.sessions[id].failureCount + 1;
    && y == s.sessions[id].(failureCount := failures, paused := y.paused,
                            intervalMinutes := BackoffMinutes(failures), lastTickAt := Some(s.now))
    && (wrote || failures >= 3 ==> y.paused)
  }

  lemma FailureKeeps(s: State, key: Key, row: RunRow, y: Session, wrote: bool)
    requires Inv(s) && Recordable(s, key) && !row.outcome.Skipped? && Fails(s, key.session, y, wrote)
    ensures Inv(Rewrites(s, key, row, y, s.log + [FailureRecorded(key.session, y.failureCount, s.now, wrote)]))
  {
    var act := FailureRecorded(key.session, y.failureCount, s.now, wrote);
    var t := Rewrites(s, key, row, y, s.log + [act]);
    RewritesKeeps(s, key, row, y, t.log);
    assert SessionOk(s, key.session);
    forall id | id in t.sessions ensures SessionOk(t, id) {
      assert SessionOk(s, id);
    }
    FailureKeepsLog(s, t, key.session, act);
  }

  lemma FailureKeepsLog(s: State, t: State, id: SessionId, act: Act)
    requires Inv(s) && id in s.sessions && id in t.sessions && !InFlight(s, id) && SessionOk(s, id)
    requires forall a :: a in s.log && a.FailureRecorded? && a.session == id ==> BackoffOver(a, s.now) && !Final(a)
    requires act.FailureRecorded? && Fails(s, id, t.sessions[id], act.wrote)
    requires act == FailureRecorded(id, t.sessions[id].failureCount, s.now, act.wrote)
    requires t.sessions == s.sessions[id := t.sessions[id]] && t.now == s.now && t.unsettled == s.unsettled
    requires t.log == s.log + [act] && forall k :: Begun(t, k) <==> Begun(s, k)
    ensures LogOk(t) && Ordered(t.log)
  {
    forall a | a in s.log ensures ActOk(t, a) && Compatible(a, act) {
      assert ActOk(s, a);
    }
    assert ActOk(t, act);
    forall i, j | 0 <= i < j < |t.log| ensures Compatible(t.log[i], t.log[j]) {
      assert s.log[i] in s.log;
    }
  }

  lemma RecordSuccessKeeps(p: Patterns, s: State, key: Key, result: TurnResult)
    requires Inv(s) && Recordable(s, key) && result.outcome.TurnDone?
    ensures Inv(s.RecordBeat(p, key, result))
  {
    var t := s.RecordBeat(p, key, result);
    var row, y := t.runs[key], t.sessions[key.session];
    SuccessKeeps(s, key, row, y);
    assert t == Rewrites(s, key, row, y, s.log + [SuccessRecorded(key.session)]);
  }

  lemma RecordFailureKeeps(p: Patterns, s: State, key: Key, result: TurnResult)
    requires Inv(s) && Recordable(s, key) && !result.outcome.TurnDone?
    ensures Inv(s.RecordBeat(p, key, result))
  {
    var t := s.RecordBeat(p, key, result);
    var row, y := t.runs[key], t.sessions[key.session];
    FailureKeeps(s, key, row, y, row.writeAttempted);
    assert t == Rewrites(s, key, row, y,
        s.log + [FailureRecorded(key.session, y.failureCount, s.now, row.writeAttempted)]);
  }

  lemma RecordBeatKeeps(p: Patterns, s: State, key: Key, result: TurnResult)
    requires Inv(s) && Recordable(s, key)
    ensures var t := s.RecordBeat(p, key, result); Inv(t) && Begun(t, key) && key.session in t.sessions
  {
    if result.outcome.TurnDone? {
      RecordSuccessKeeps(p, s, key, result);
    } else {
      RecordFailureKeeps(p, s, key, result);
    }
  }

  lemma RewrittenKeeps(p: Patterns, s: State, key: Key, result: TurnResult)
    requires Inv(s) && key in s.unsettled && key.session in s.sessions
    ensures var b := s.Rewritten(p, key, result); Calms(s, b) && Inv(b) && Recordable(b, key)
  {
    var a := s.(unsettled := s.unsettled - {key});
    UnsettledIsRecordable(s, key);
    CalmsKeeps(s, a);
    var b := a.Protect(p, key.session, result);
    assert b == s.Rewritten(p, key, result);
    MessagesCalm(p, a, key.session, 0, result);
    RecordableAfterCalm(a, b, key);
    CalmsTransitive(s, a, b);
    CalmsKeeps(a, b);
  }

  lemma SettleKeeps(p: Patterns, s: State, key: Key, result: TurnResult, stage: Stage)
    requires Inv(s) && key in s.unsettled && key.session in s.sessions
    ensures var t := s.Settle(p, key, result, stage); Inv(t) && Begun(t, key)
  {
    UnsettledIsRecordable(s, key);
    CalmsKeeps(s, s.(unsettled := s.unsettled - {key}));
    RewrittenKeeps(p, s, key, result);
    var b, settled := s.Rewritten(p, key, result), s.Protected(p, key.session, result);
    RecordBeatKeeps(p, b, key, settled);
    var c := b.RecordBeat(p, key, settled);
    MessagesCalm(p, c, key.session, s.unsettled[key], settled);
    CalmsKeeps(c, c.SettleBeat(key.session, s.unsettled[key], settled));
  }

  lemma CompletionKeeps(p: Patterns, s: State, key: Key, result: TurnResult, stage: Stage)
    requires Inv(s) && key in s.unsettled && key.session in s.sessions
    ensures Inv(s.Complete(p, key, result)) && Inv(s.SettlementFailed(p, key, result, stage))
  {
    var contact := s.sessions[key.session].contact;
    SettleKeeps(p, s, key, result, Finished);
    StopsCalm(s.Settle(p, key, result, Finished), contact);
    CalmsKeeps(s.Settle(p, key, result, Finished), s.Complete(p, key, result));
    SettleKeeps(p, s, key, result, stage);
    var a := s.Settle(p, key, result, stage);
    GiveUpCalms(a, key);
    CalmsKeeps(a, a.GiveUp(key));
    StopsCalm(a.GiveUp(key), contact);
    CalmsKeeps(a.GiveUp(key), a.GiveUp(key).LookAt(contact));
  }

  // ---- every step ----

  lemma StepKeeps(p: Patterns, s: State, e: Event)
    requires Inv(s)
    ensures Inv(Step(p, s, e))
  {
    if Enabled(s, e) {
      match e
      case StartSessionCall(contact, minutes, newId, workflowOnly, enabled, sample) =>
        StartKeeps(s, contact, minutes, newId, workflowOnly, enabled, sample);
      case StopSessionCall(contact) =>
        StopsCalm(s, contact);
        CalmsKeeps(s, s.StopSession(contact));
      case StatusCall(contact) =>
        StopsCalm(s, contact);
        CalmsKeeps(s, s.LookAt(contact));
      case TickPass(id, w) =>
        TickKeeps(s, id, w);
      case Completion(key, result) =>
        CompletionKeeps(p, s, key, result, Finished);
      case SettlementFailure(key, result, stage) =>
        CompletionKeeps(p, s, key, result, stage);
      case Start(newProcess) =>
        RestartCalms(s, newProcess);
        CalmsKeeps(s, s.Restart(newProcess));
      case MessageWritten(_) =>
        WorldCalms(p, s, e);
        CalmsKeeps(s, Step(p, s, e));
      case MessageDeleted(_) =>
        WorldCalms(p, s, e);
        CalmsKeeps(s, Step(p, s, e));
      case ClockAdvance(_) =>
        WorldCalms(p, s, e);
        CalmsKeeps(s, Step(p, s, e));
    }
  }

  lemma PrefixIsRun(p: Patterns, run: seq<State>)
    requires IsRun(p, run) && |run| > 1
    ensures IsRun(p, run[..|run| - 1]) && Follows(p, run[|run| - 2], run[|run| - 1])
  {
    var before := run[..|run| - 1];
    forall i: nat ensures Linked(p, before, i) {
      assert Linked(p, run, i);
    }
    assert Linked(p, run, |run| - 1);
  }

  lemma {:induction false} RunKeeps(p: Patterns, run: seq<State>)
    requires IsRun(p, run)
    ensures Inv(run[|run| - 1])
  {
    if |run| > 1 {
      PrefixIsRun(p, run);
      RunKeeps(p, run[..|run| - 1]);
      var e :| run[|run| - 1] == Step(p, run[|run| - 2], e);
      StepKeeps(p, run[|run| - 2], e);
    }
  }

  lemma ReachableInv(p: Patterns, s: State)
    requires Reachable(p, s)
    ensures Inv(s)
  {
    var run :| IsRun(p, run) && run[|run| - 1] == s;
    RunKeeps(p, run);
  }

  lemma InitialReachable(p: Patterns)
    ensures Reachable(p, INITIAL)
  {
    assert IsRun(p, [INITIAL]) && [INITIAL][0] == INITIAL;
  }

  lemma RunExtends(p: Patterns, run: seq<State>, next: State)
    requires IsRun(p, run) && Follows(p, run[|run| - 1], next)
    ensures IsRun(p, run + [next])
  {
    var more := run + [next];
    forall i: nat ensures Linked(p, more, i) {
      assert Linked(p, run, i);
    }
  }

  lemma StepReachable(p: Patterns, s: State, e: Event)
    requires Reachable(p, s)
    ensures Reachable(p, Step(p, s, e))
  {
    var run :| IsRun(p, run) && run[|run| - 1] == s;
    var next := Step(p, s, e);
    RunExtends(p, run, next);
    assert (run + [next])[|run + [next]| - 1] == next;
  }
}
