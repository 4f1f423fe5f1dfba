/** Exactly which configurations can lose a token for good, and exactly when a stream that
    waits for one can still get it. */
module AccountLost {
  import opened AccountTypes
  import opened Wrappers
  import opened AccountSpec
  import opened AccountInvariant
  import opened AccountSteps
  import opened AccountLadder
  import opened AccountEffects
  import opened AccountStale
  import opened AccountSession
  import opened AccountToken
  import opened AccountScript
  import opened AccountReady
  import opened AccountExpiry
  import opened AccountExamples

  // ---- a clock that does not run backwards

  function Clock(e: Event, from: int): int { if e.Connected? || e.Timer? then e.now else from }

  /** Connects and ticks come in the order of their times, none before `from`. */
  predicate Ordered(events: seq<Event>, from: int)
    decreases |events|
  {
    events == [] || (Clock(events[0], from) >= from && Ordered(events[1..], Clock(events[0], from)))
  }

  lemma {:induction false} TameOrdered(events: seq<Event>, now: int, from: int)
    requires Tame(events, now) && from <= now
    ensures Ordered(events, from)
    decreases |events|
  {
    if events != [] {
      assert events[0] in events && forall e | e in events[1..] :: e in events;
      TameOrdered(events[1..], now, Clock(events[0], from));
    }
  }

  /** First everything at one time, then everything at a later one. */
  lemma {:induction false} LaterOrdered(xs: seq<Event>, ys: seq<Event>, now: int, later: int, from: int)
    requires Tame(xs, now) && Tame(ys, later) && from <= now <= later
    ensures Ordered(xs + ys, from)
    decreases |xs|
  {
    if xs == [] {
      assert xs + ys == ys;
      TameOrdered(ys, later, from);
    } else {
      assert xs[0] in xs && forall e | e in xs[1..] :: e in xs;
      assert (xs + ys)[0] == xs[0] && (xs + ys)[1..] == xs[1..] + ys;
      LaterOrdered(xs[1..], ys, now, later, Clock(xs[0], from));
    }
  }

  // ---- without an expiry no window opens

  /** The server reports no expiry; the dispatch of its messages never raises that event. */
  predicate NoExpiry(events: seq<Event>) { forall e | e in events :: !e.TokenExpired? }

  predicate HasQuery(dc: DropCopyState) { dc.created ==> dc.query != "" }

  lemma WelcomeQuery(cfg: Config, s: Sys)
    requires HasQuery(s.dc)
    ensures var t := Step(cfg, s, Welcome); HasQuery(t.dc) && t.dc.nextSimulated == s.dc.nextSimulated
  {
    ClimbToken(cfg, Acct(s.dc.(welcome := true), s.rq, s.fault), SUBSCRIBE_BALANCES);
  }

  lemma AckQuery(cfg: Config, s: Sys, id: State)
    requires HasQuery(s.dc) && s.fault == NoFault
    ensures var t := Step(cfg, s, Ack(Some(id))); HasQuery(t.dc) && t.dc.nextSimulated == s.dc.nextSimulated
  {
    StepAck(cfg, s, id);
    CheckToken(cfg, Acct(s.dc, s.rq, s.fault), id);
  }

  lemma PollQuery(cfg: Config, s: Sys, now: int, orders: seq<Key>)
    requires HasQuery(s.dc) && s.fault == NoFault
    ensures var t := Step(cfg, s, Timer(now, orders));
      && t.dc.created == s.dc.created
      && ((Due(s.dc, now) && t.fault == NoFault && t.dc.status == READY)
          || (HasQuery(t.dc) && t.dc.query == s.dc.query && t.dc.nextSimulated == s.dc.nextSimulated))
  {
    var a := Acct(s.dc, s.rq, s.fault);
    var b := CheckRequestQueue(cfg, a, orders);
    StepTimer(cfg, s, now, orders);
    TimerToken(cfg, a, now, orders);
    if Fires(cfg, a, now, orders) {
      WhenReadyStream(cfg, b, now, orders);
    }
  }

  lemma OtherQuery(cfg: Config, s: Sys, e: Event)
    requires HasQuery(s.dc) && !e.TokenExpired? && !e.Welcome? && !e.Timer? && !(e.Ack? && e.id.Some?)
    ensures HasQuery(Step(cfg, s, e).dc)
  {
  }

  /** Only a tick that finds a ready stream and a due expiry takes the query away. */
  lemma StepQuery(cfg: Config, s: Sys, e: Event)
    requires HasQuery(s.dc) && s.fault == NoFault && !e.TokenExpired?
    ensures var t := Step(cfg, s, e);
      HasQuery(t.dc) || (e.Timer? && Due(s.dc, e.now) && t.fault == NoFault && t.dc.status == READY)
  {
    if e.Welcome? {
      WelcomeQuery(cfg, s);
    } else if e.Ack? && e.id.Some? {
      AckQuery(cfg, s, e.id.value);
    } else if e.Timer? {
      PollQuery(cfg, s, e.now, e.orders);
    } else {
      OtherQuery(cfg, s, e);
    }
  }

  // ---- without the simulation nothing is ever due

  lemma {:induction false} RunHasQuery(cfg: Config, s: Sys, events: seq<Event>)
    requires cfg.simulateExpiry == 0 && s.dc.nextSimulated == 0 && HasQuery(s.dc) && NoExpiry(events)
    ensures var t := Run(cfg, s, events); t.fault == NoFault ==> HasQuery(t.dc)
    decreases |events|
  {
    if events != [] {
      assert events[0] in events && forall e | e in events[1..] :: e in events;
      var t := Step(cfg, s, events[0]);
      if s.fault == NoFault && t.fault == NoFault {
        StepQuery(cfg, s, events[0]);
        StepNeverDue(cfg, s, events[0]);
        RunHasQuery(cfg, t, events[1..]);
      } else {
        FaultStays(cfg, t, events[1..]);
      }
    }
  }

  // ---- without a master account the stream is never ready

  lemma StepNeverReady(cfg: Config, s: Sys, e: Event)
    requires !cfg.master && Inv(cfg, s) && s.fault == NoFault && Enabled(s, e)
    requires HasQuery(s.dc) && !e.TokenExpired? && StuckAt(s, BALANCES, GET_BALANCES)
    ensures var t := Step(cfg, s, e); t.fault == NoFault ==> HasQuery(t.dc) && StuckAt(t, BALANCES, GET_BALANCES)
  {
    StepKeeps(cfg, s, e);
    StepQuery(cfg, s, e);
    StepStuck(cfg, s, e, BALANCES, GET_BALANCES);
    if Step(cfg, s, e).fault == NoFault {
      ReadyIsDone(cfg, Step(cfg, s, e));
    }
  }

  lemma {:induction false} RunNeverReady(cfg: Config, s: Sys, events: seq<Event>)
    requires !cfg.master && Inv(cfg, s) && s.fault == NoFault && Valid(cfg, s, events)
    requires HasQuery(s.dc) && NoExpiry(events) && StuckAt(s, BALANCES, GET_BALANCES)
    ensures var t := Run(cfg, s, events); t.fault == NoFault ==> HasQuery(t.dc)
    decreases |events|
  {
    if events != [] {
      assert events[0] in events && forall e | e in events[1..] :: e in events;
      var t := Step(cfg, s, events[0]);
      StepKeeps(cfg, s, events[0]);
      if t.fault == NoFault {
        StepNeverReady(cfg, s, events[0]);
        RunNeverReady(cfg, t, events[1..]);
      } else {
        FaultStays(cfg, t, events[1..]);
      }
    }
  }

  // ---- with both it can happen

  /** A connection made at `now`: its expiry is due later. */
  predicate Simulating(cfg: Config, dc: DropCopyState, now: int) {
    dc.created && dc.query != "" && dc.nextSimulated == now + cfg.simulateExpiry
  }

  lemma StepSimulating(cfg: Config, s: Sys, e: Event, now: int)
    requires cfg.simulateExpiry != 0 && s.fault == NoFault && Simulating(cfg, s.dc, now) && TameEvent(e, now)
    ensures Simulating(cfg, Step(cfg, s, e).dc, now)
  {
    if e.Welcome? {
      ClimbToken(cfg, Acct(s.dc.(welcome := true), s.rq, s.fault), SUBSCRIBE_BALANCES);
    } else if e.Ack? && e.id.Some? {
      StepAck(cfg, s, e.id.value);
      CheckToken(cfg, Acct(s.dc, s.rq, s.fault), e.id.value);
    } else if e.Timer? {
      PollQuery(cfg, s, e.now, e.orders);
    } else {
      OtherSimulating(cfg, s, e, now);
    }
  }

  lemma OtherSimulating(cfg: Config, s: Sys, e: Event, now: int)
    requires cfg.simulateExpiry != 0 && s.fault == NoFault && Simulating(cfg, s.dc, now) && TameEvent(e, now)
    requires !e.Welcome? && !e.Timer? && !(e.Ack? && e.id.Some?)
    ensures Simulating(cfg, Step(cfg, s, e).dc, now)
  {
  }

  lemma {:induction false} RunSimulating(cfg: Config, s: Sys, events: seq<Event>, now: int)
    requires cfg.simulateExpiry != 0 && Simulating(cfg, s.dc, now) && Tame(events, now)
    ensures Run(cfg, s, events).fault == NoFault ==> Simulating(cfg, Run(cfg, s, events).dc, now)
    decreases |events|
  {
    if events != [] {
      assert events[0] in events && forall e | e in events[1..] :: e in events;
      var t := Step(cfg, s, events[0]);
      if s.fault == NoFault && t.fault == NoFault {
        StepSimulating(cfg, s, events[0], now);
        RunSimulating(cfg, t, events[1..], now);
      } else {
        FaultStays(cfg, t, events[1..]);
      }
    }
  }

  /** A session that is ready, everything at one time. */
  lemma ReadyRun(cfg: Config, now: int) returns (s: Sys, events: seq<Event>)
    requires cfg.master && cfg.simulateExpiry != 0
    ensures Valid(cfg, INIT, events) && Tame(events, now) && Run(cfg, INIT, events) == s
    ensures s.fault == NoFault && s.dc.status == READY && s.rest.status == READY && s.rq.Ready() && Simulating(cfg, s.dc, now)
  {
    var s0 := Startup(cfg, now);
    var xs :| Valid(cfg, INIT, xs) && Tame(xs, now) && Run(cfg, INIT, xs) == s0;
    ReachesSelf(cfg, s0, false, now);
    s := OneSession(cfg, s0, now);
    var ys :| Valid(cfg, s0, ys) && Tame(ys, now) && Run(cfg, s0, ys) == s;
    RunSimulating(cfg, s0, ys, now);
    RunAppend(cfg, INIT, xs, ys);
    events := xs + ys;
  }

  lemma OneSession(cfg: Config, s: Sys, now: int) returns (t: Sys)
    requires cfg.master && Poised(s.(dc := s.dc.(welcome := true))) && !s.dc.welcome && s.rq.details == {}
    ensures Reaches(cfg, s, t, false, now)
    ensures t.fault == NoFault && t.dc.status == READY && t.rest.status == READY && t.rq.Ready()
  {
    ReachesSelf(cfg, s, false, now);
    assert s.rq.New([]) == {};
    var u := Session(cfg, s, s, [], false, now);
    t := LastRung(cfg, s, u, false, now);
  }

  /** The expiry becomes due and the tick asks for a new token, with stale orders also for a
      batch. */
  lemma Expires(cfg: Config, s: Sys, later: int, orders: seq<Key>) returns (t: Sys)
    requires Inv(cfg, s) && TokenOk(s) && Queued(s) && s.fault == NoFault && s.dc.status == READY && s.rq.Ready()
    requires s.dc.query != "" && Due(s.dc, later) && s.dc.nextScan < later
    ensures Reaches(cfg, s, t, false, later) && Inv(cfg, t) && Window(t) && t.rq.token.pending
    ensures t.rest == s.rest && t.rq.Ready() && Queued(t) && (orders != [] ==> t.rq.details != {})
  {
    var e := Timer(later, orders);
    t := Step(cfg, s, e);
    StepTimer(cfg, s, later, orders);
    ReadyInSession(cfg, s);
    ReadyTick(cfg, s, later, orders);
    PollTicks(cfg, s, later, orders);
    TickedReady(s.rq, t.rq);
    StepKeeps(cfg, s, e);
    StepTokenOk(cfg, s, e);
    StepQueued(cfg, s, e);
    ReachesSelf(cfg, s, false, later);
    ReachesStep(cfg, s, s, e, false, later);
  }

  lemma ReadyTick(cfg: Config, s: Sys, later: int, orders: seq<Key>)
    requires Inv(cfg, s) && s.fault == NoFault && s.dc.status == READY && s.dc.created && s.dc.phase == UPGRADED
    requires s.dc.query != "" && Due(s.dc, later) && s.dc.nextScan < later
    ensures var t := Step(cfg, s, Timer(later, orders));
      && t.fault == NoFault && t.dc.query == "" && t.dc.created && t.rq.token.pending
      && (orders != [] ==> t.rq.details != {})
  {
    var a := Acct(s.dc, s.rq, s.fault);
    StepTimer(cfg, s, later, orders);
    DoneTick(cfg, a, later, orders);
    ReadyToken(cfg, a, later, orders);
    WhenReadyStream(cfg, a, later, orders);
    ReadyScan(cfg, a, later, orders);
  }

  lemma ReadyScan(cfg: Config, a: Acct, now: int, orders: seq<Key>)
    requires a.dc.nextScan < now
    ensures orders != [] ==> WhenReady(cfg, a, now, orders).rq.details != {}
  {
    var a1 := a.(dc := CheckPing(a.dc, now), rq := a.rq.(token := a.rq.token.Consume()));
    ExpiryTicks(CheckStaleOrders(cfg, a1, now, orders), now);
    if orders != [] {
      assert orders[0] in CheckStaleOrders(cfg, a1, now, orders).rq.details;
    }
  }

  /** The batch, or else the token request, goes out. */
  lemma Blocks(cfg: Config, r: Sys, s: Sys, waiting: bool, now: int) returns (t: Sys)
    requires cfg.master && Inv(cfg, s) && Queued(s) && Window(s) && s.rq.token.pending && s.rq.Ready()
    requires s.rest.status == READY && (waiting ==> s.rq.details != {}) && Reaches(cfg, r, s, false, now)
    ensures Reaches(cfg, r, t, false, now) && Window(t) && t.rq.token.pending == waiting && (waiting ==> Wedged(t))
  {
    var k := if waiting then STALE_ORDERS else TOKEN;
    t := Step(cfg, s, RestTimer({k}, {}));
    StartsOnly(cfg, s, k, {});
    ReachesStep(cfg, r, s, RestTimer({k}, {}), false, now);
    assert s.rq.details * {} == {};
  }

  /** Every token request on the wire fails. */
  lemma {:induction false} AllFail(cfg: Config, r: Sys, s: Sys, now: int) returns (t: Sys)
    requires Window(s) && (s.rq.token.pending ==> Wedged(s)) && Reaches(cfg, r, s, false, now)
    ensures Reaches(cfg, r, t, false, now) && Lost(t) && t.rq.token.pending == s.rq.token.pending
    decreases s.rest.outstanding[TOKEN]
  {
    if TOKEN in s.rest.outstanding {
      var e := TokenAnswer(NetworkFailure, "", false);
      TokenAnswerReleases(cfg, s, NetworkFailure, "", false);
      TokenFailed(cfg, s);
      ReachesStep(cfg, r, s, e, false, now);
      t := AllFail(cfg, r, Step(cfg, s, e), now);
    } else {
      t := s;
    }
  }

  /** A run without an expiry reported by the server that loses the token, with or without a
      request still waiting. */
  ghost predicate LosesToken(cfg: Config, events: seq<Event>, waiting: bool) {
    var t := Run(cfg, INIT, events);
    Valid(cfg, INIT, events) && NoExpiry(events) && Lost(t) && t.rq.token.pending == waiting
  }

  /** Since the server's error event is never raised, a token can be lost if and only if the
      account is the master and the expiry of tokens is simulated. It then can in both ways,
      with a clock that starts at any time and does not run backwards: the request failed, or
      it waits behind a batch of unknown orders. */
  lemma LostExact(cfg: Config, now: int, waiting: bool)
    ensures (exists events :: LosesToken(cfg, events, waiting)) <==> cfg.master && cfg.simulateExpiry != 0
    ensures cfg.master && cfg.simulateExpiry != 0 ==>
      exists events :: LosesToken(cfg, events, waiting) && Ordered(events, now)
  {
    if cfg.master && cfg.simulateExpiry != 0 {
      var events := LostRun(cfg, now, waiting);
    }
    if events :| LosesToken(cfg, events, waiting) {
      InitHolds(cfg);
      if cfg.simulateExpiry == 0 {
        RunHasQuery(cfg, INIT, events);
      } else if !cfg.master {
        RunNeverReady(cfg, INIT, events);
      }
    }
  }

  lemma LostRun(cfg: Config, now: int, waiting: bool) returns (events: seq<Event>)
    requires cfg.master && cfg.simulateExpiry != 0
    ensures LosesToken(cfg, events, waiting) && Ordered(events, now)
  {
    var start := if now < 0 then 0 else now;  // the time 0 stands for no expiry
    var s, xs := ReadyRun(cfg, start);
    JointInvariant(cfg, s);
    ReachableTokenOk(cfg, s);
    ReachableQueued(cfg, s);
    var due := start + cfg.simulateExpiry;
    var later := if s.dc.nextScan < due then due + 1 else s.dc.nextScan + 1;
    var t, ys := LosingRun(cfg, s, later, waiting);
    RunAppend(cfg, INIT, xs, ys);
    LaterOrdered(xs, ys, start, later, now);
    events := xs + ys;
    assert NoExpiry(events);
  }

  lemma LosingRun(cfg: Config, s: Sys, later: int, waiting: bool) returns (t: Sys, events: seq<Event>)
    requires cfg.master && Inv(cfg, s) && TokenOk(s) && Queued(s)
    requires s.fault == NoFault && s.dc.status == READY && s.rest.status == READY && s.rq.Ready()
    requires s.dc.query != "" && Due(s.dc, later) && s.dc.nextScan < later
    ensures Valid(cfg, s, events) && Tame(events, later) && Run(cfg, s, events) == t
    ensures Lost(t) && t.rq.token.pending == waiting
  {
    var u := Expires(cfg, s, later, if waiting then [Key(0, 1)] else []);
    var v := Blocks(cfg, s, u, waiting, later);
    t := AllFail(cfg, s, v, later);
    events :| Valid(cfg, s, events) && Tame(events, later) && Run(cfg, s, events) == t;
  }

  // ---- a window that can still close

  ghost predicate GetsToken(cfg: Config, s: Sys, events: seq<Event>) {
    Valid(cfg, s, events) && Run(cfg, s, events).dc.query != ""
  }

  /** A stream that waits for a token can still get one if and only if a request is on the
      wire, or is pending in an account that is not wedged; it then can at once. */
  lemma TokenReturnsExact(cfg: Config, s: Sys, now: int)
    requires Reachable(cfg, s) && s.fault == NoFault && s.dc.created && s.dc.suspended
    ensures (exists events :: GetsToken(cfg, s, events)) <==>
      TOKEN in s.rest.outstanding || (s.rq.token.pending && !Wedged(s))
    ensures TOKEN in s.rest.outstanding || (s.rq.token.pending && !Wedged(s)) ==>
      exists events :: GetsToken(cfg, s, events) && Tame(events, now)
  {
    JointInvariant(cfg, s);
    ReachableTokenOk(cfg, s);
    if TOKEN in s.rest.outstanding || (s.rq.token.pending && !Wedged(s)) {
      var events := ReturningRun(cfg, s, now);
    } else {
      forall events | Valid(cfg, s, events) ensures Run(cfg, s, events).dc.query == "" {
        LostForever(cfg, s, events);
      }
    }
  }

  lemma ReturningRun(cfg: Config, s: Sys, now: int) returns (events: seq<Event>)
    requires Inv(cfg, s) && Window(s) && (TOKEN in s.rest.outstanding || (s.rq.token.pending && !Wedged(s)))
    ensures GetsToken(cfg, s, events) && Tame(events, now)
  {
    ReachesSelf(cfg, s, false, now);
    var t := s;
    if TOKEN !in s.rest.outstanding {
      t := Asked(cfg, s, now);
    }
    var e := TokenAnswer(Http(SUCCESS, Decoded(SYSTEM_CODE_SUCCESS)), "t", false);
    ReachesStep(cfg, s, t, e, false, now);
    TokenComes(cfg, t, e);
    events :| Valid(cfg, s, events) && Tame(events, now) && Run(cfg, s, events) == Step(cfg, t, e);
  }

  /** Once nothing is in flight the pending request goes out. */
  lemma Asked(cfg: Config, s: Sys, now: int) returns (t: Sys)
    requires Inv(cfg, s) && Window(s) && s.rq.token.pending && !Wedged(s)
    ensures Reaches(cfg, s, t, false, now) && t.fault == NoFault && t.dc == s.dc && TOKEN in t.rest.outstanding
  {
    ReachesSelf(cfg, s, false, now);
    var u := Settle(cfg, s, s, false, now);
    var v := Connect(cfg, s, u, false, now);
    t := Step(cfg, v, RestTimer({TOKEN}, {}));
    StartsOnly(cfg, v, TOKEN, {});
    ReachesStep(cfg, s, v, RestTimer({TOKEN}, {}), false, now);
  }

  lemma TokenComes(cfg: Config, s: Sys, e: Event)
    requires s.fault == NoFault && s.dc.created && e.TokenAnswer? && Delivers(s.rest, e.response, e.superseded)
    ensures Step(cfg, s, e).dc.query == "?token=" + e.token
  {
  }
}
