/** When the fatal check of GET_STALE_ORDERS can fire in the session a welcome opens. */
module AccountFatal {
  import opened AccountTypes
  import opened AccountSpec
  import opened AccountInvariant
  import opened AccountSteps
  import opened AccountLadder
  import opened AccountEffects
  import opened AccountStale
  import opened AccountSession
  import opened AccountScript
  import opened AccountReady

  // ---- where it fires

  /** Only a poll in that very state that finds a response. */
  lemma FiresThere(cfg: Config, s: Sys, e: Event)
    requires s.fault == NoFault
    ensures Step(cfg, s, e).fault == UnexpectedStale ==> s.dc.ladder == GET_STALE_ORDERS && s.rq.staleOrders.response
  {
    var a := Acct(s.dc, s.rq, s.fault);
    if e.Timer? {
      StepTimer(cfg, s, e.now, e.orders);
      QueueFault(cfg, a, e.orders);
      WhenReadyStream(cfg, CheckRequestQueue(cfg, a, e.orders), e.now, e.orders);
    } else if e.Ack? && e.id.Some? {
      StepAck(cfg, s, e.id.value);
      CheckNotFatal(cfg, a, e.id.value);
    } else if e.Welcome? {
      WelcomeEnters(cfg, s);
    } else {
      NotFatal(cfg, s, e);
    }
  }

  lemma CheckNotFatal(cfg: Config, a: Acct, s: State)
    requires a.fault == NoFault
    ensures Check(cfg, a, s).fault != UnexpectedStale
  {
    if s == a.dc.ladder && Active(s) {
      ClimbNotFatal(cfg, Note(a, [Completed(s)]), Next(s));
    }
  }

  lemma {:induction false} ClimbNotFatal(cfg: Config, a: Acct, s: State)
    requires a.fault == NoFault && s != UNDEFINED
    ensures Climb(cfg, a, s).fault != UnexpectedStale
    decreases 10 - Index(s)
  {
    if s != DONE && Skips(cfg, a.rq, s) {
      ClimbNotFatal(cfg, Note(a.(dc := a.dc.(ladder := s)), [Skipped(s)]), Next(s));
    }
  }

  lemma NotFatal(cfg: Config, s: Sys, e: Event)
    requires s.fault == NoFault && !e.Timer? && !e.Welcome? && !(e.Ack? && e.id.Some?)
    ensures Step(cfg, s, e).fault != UnexpectedStale
  {
  }

  // ---- accounts that never get there

  lemma StuckFires(cfg: Config, s: Sys, e: Event, k: Kind)
    requires s.fault == NoFault && Mandatory(k) && StuckAt(s, k, GetOf(k))
    ensures Step(cfg, s, e).fault != UnexpectedStale
  {
    FiresThere(cfg, s, e);
    assert Index(GetOf(k)) < Index(GET_STALE_ORDERS);
  }

  lemma StuckStays(cfg: Config, s: Sys, e: Event, k: Kind)
    requires Inv(cfg, s) && s.fault == NoFault && Enabled(s, e) && Step(cfg, s, e).fault == NoFault
    requires Mandatory(k) && StuckAt(s, k, GetOf(k)) && (cfg.master ==> Wedged(s))
    ensures var t := Step(cfg, s, e); StuckAt(t, k, GetOf(k)) && (cfg.master ==> Wedged(t))
  {
    StepStuck(cfg, s, e, k, GetOf(k));
    if cfg.master {
      StepWedged(cfg, s, e);
    }
  }

  /** The ladder stays below, for want of an answer to a mandatory download. */
  lemma {:induction false} StuckNotFatal(cfg: Config, s: Sys, events: seq<Event>, k: Kind)
    requires Inv(cfg, s) && s.fault == NoFault && Valid(cfg, s, events)
    requires Mandatory(k) && StuckAt(s, k, GetOf(k)) && (cfg.master ==> Wedged(s))
    ensures Run(cfg, s, events).fault != UnexpectedStale
    decreases |events|
  {
    if events != [] {
      var t := Step(cfg, s, events[0]);
      StepKeeps(cfg, s, events[0]);
      StuckFires(cfg, s, events[0], k);
      if t.fault == NoFault {
        StuckStays(cfg, s, events[0], k);
        StuckNotFatal(cfg, t, events[1..], k);
      } else {
        FaultStays(cfg, t, events[1..]);
      }
    }
  }

  /** No response is there, and a wedged batch never gets one. */
  lemma {:induction false} UnansweredNotFatal(cfg: Config, s: Sys, events: seq<Event>)
    requires Inv(cfg, s) && Wedged(s) && !s.rq.staleOrders.response && Valid(cfg, s, events)
    ensures Run(cfg, s, events).fault != UnexpectedStale
    decreases |events|
  {
    if events != [] {
      var t := Step(cfg, s, events[0]);
      StepKeeps(cfg, s, events[0]);
      FiresThere(cfg, s, events[0]);
      if t.fault == NoFault {
        StepWedged(cfg, s, events[0]);
        StepUnanswered(cfg, s, events[0]);
        UnansweredNotFatal(cfg, t, events[1..]);
      } else {
        FaultStays(cfg, t, events[1..]);
      }
    }
  }

  lemma StepUnanswered(cfg: Config, s: Sys, e: Event)
    requires Inv(cfg, s) && Wedged(s) && !s.rq.staleOrders.response && Enabled(s, e)
    ensures !Step(cfg, s, e).rq.staleOrders.response
  {
    if Streamed(e) {
      StreamTicks(cfg, s, e);
    } else if e.RestTimer? {
      TickStartsOne(cfg, Side(s.rest, s.rq, s.fault), e.grants, e.known);
    } else {
      NoAnswers(cfg, s, e);
      TokenSlotOnly(cfg, s, e);
    }
  }

  lemma TokenSlotOnly(cfg: Config, s: Sys, e: Event)
    requires s.fault == NoFault && (e.TokenAnswer? || e.RestConnected? || e.RestDisconnected? || e.RestRetry?)
    ensures Step(cfg, s, e).rq.staleOrders == s.rq.staleOrders
  {
  }

  // ---- the runs that do

  /** The three downloads, then a scan that finds an order while a response is recorded. */
  lemma FatalRun(cfg: Config, r: Sys, s: Sys, now: int) returns (t: Sys)
    requires cfg.master && Poised(s) && AtRung(s, SUBSCRIBE_BALANCES) && s.rq.staleOrders.response && Reaches(cfg, r, s, true, now)
    ensures Reaches(cfg, r, t, true, now) && t.fault == UnexpectedStale
  {
    var orders := [Key(0, 1)];
    var u := Rungs(cfg, r, s, orders, {BALANCES, POSITIONS, OPEN_ORDERS}, true, now);
    ScanFinds(s.rq, orders);
    ScanFinds(Downloaded(s.rq, {BALANCES, POSITIONS, OPEN_ORDERS}), orders);
    t := FatalPoll(cfg, r, u, now);
  }

  lemma ScanFinds(rq: Requests, orders: seq<Key>)
    requires orders != []
    ensures orders[0] in rq.Scan(orders).details
  {
  }

  lemma FatalPoll(cfg: Config, r: Sys, s: Sys, now: int) returns (t: Sys)
    requires Upright(s) && s.dc.ladder == GET_STALE_ORDERS && s.rq.details != {} && s.rq.staleOrders.response
    requires Reaches(cfg, r, s, true, now)
    ensures Reaches(cfg, r, t, true, now) && t.fault == UnexpectedStale
  {
    t := Step(cfg, s, Timer(now, []));
    ReachesStep(cfg, r, s, Timer(now, []), true, now);
    TickIsFatal(cfg, s, now);
  }

  /** The same with the answers that are there, when nothing can be requested. */
  lemma FatalPolled(cfg: Config, r: Sys, s: Sys, now: int) returns (t: Sys)
    requires Upright(s) && AtRung(s, SUBSCRIBE_BALANCES) && s.rq.staleOrders.response && Answerable(s.rq, {})
    requires Reaches(cfg, r, s, true, now)
    ensures Reaches(cfg, r, t, true, now) && t.fault == UnexpectedStale
  {
    var orders := [Key(0, 1)];
    var u := RungPolled(cfg, r, s, BALANCES, [], true, now);
    var v := RungPolled(cfg, r, u, POSITIONS, [], true, now);
    var x := RungPolled(cfg, r, v, OPEN_ORDERS, orders, true, now);
    ScanFinds(v.rq, orders);
    ScanFinds(v.rq.Put(OPEN_ORDERS, v.rq.openOrders.Request().Consume()), orders);
    t := FatalPoll(cfg, r, x, now);
  }

  /** What a caller can check at the welcome. */
  predicate Doomed(cfg: Config, s: Sys) {
    && cfg.master && !s.rq.staleOrders.Idle()
    && (Wedged(s) ==> s.rq.staleOrders.response && Answerable(s.rq, {}))
  }

  lemma DoomedRun(cfg: Config, s: Sys, now: int) returns (events: seq<Event>)
    requires Reachable(cfg, s) && s.fault == NoFault && Enabled(s, Welcome) && Doomed(cfg, s)
    ensures GetsFatal(cfg, s, [Welcome] + events) && Tame(events, now)
  {
    var w := Step(cfg, s, Welcome);
    var t: Sys;
    if Wedged(s) {
      JointInvariant(cfg, s);
      WelcomeRung(cfg, s);
      ReachesSelf(cfg, w, true, now);
      t := FatalPolled(cfg, w, w, now);
    } else {
      var u := FromWelcome(cfg, s, now);
      if !u.rq.staleOrders.response {
        u := HandOverBatch(cfg, w, u, now);
      }
      t := FatalRun(cfg, w, u, now);
    }
    events := WelcomedRun(cfg, s, t, now);
  }

  /** At a welcome: the session can run into the fatal check if and only if the account is
      the master and the stale slot is not idle (pending, on the wire or answered); an
      account wedged by a batch of unknown orders gets there only with a response to an
      earlier batch and to every mandatory download. It then can with no time passing. */
  lemma FatalAtWelcomeExact(cfg: Config, s: Sys, now: int)
    requires Reachable(cfg, s) && s.fault == NoFault && Enabled(s, Welcome)
    ensures Doomed(cfg, s) <==> exists events :: GetsFatal(cfg, s, [Welcome] + events)
    ensures Doomed(cfg, s) ==> exists events :: GetsFatal(cfg, s, [Welcome] + events) && Tame(events, now)
  {
    if Doomed(cfg, s) {
      var events := DoomedRun(cfg, s, now);
    } else {
      forall events | Valid(cfg, s, [Welcome] + events) && InSession([Welcome] + events)
        ensures Run(cfg, s, [Welcome] + events).fault != UnexpectedStale
      {
        assert forall e | e in events :: e in [Welcome] + events;
        SafeWelcome(cfg, s, events);
      }
    }
  }

  lemma SafeWelcome(cfg: Config, s: Sys, events: seq<Event>)
    requires Reachable(cfg, s) && s.fault == NoFault && Enabled(s, Welcome) && !Doomed(cfg, s)
    requires Valid(cfg, s, [Welcome] + events) && InSession(events)
    ensures Run(cfg, s, [Welcome] + events).fault != UnexpectedStale
  {
    JointInvariant(cfg, s);
    var all := [Welcome] + events;
    NotEntered(cfg, s);
    if s.rq.staleOrders.Idle() {
      CleanSessionNeverFatal(cfg, s, events);
    } else if !cfg.master {
      StuckNotFatal(cfg, s, all, BALANCES);
    } else {
      WedgedSafe(cfg, s, all);
    }
  }

  lemma NotEntered(cfg: Config, s: Sys)
    requires Inv(cfg, s) && s.fault == NoFault && Enabled(s, Welcome)
    ensures s.dc.ladder == UNDEFINED && (!cfg.master ==> StuckAt(s, BALANCES, GetOf(BALANCES)))
  {
  }

  lemma WedgedSafe(cfg: Config, s: Sys, events: seq<Event>)
    requires Inv(cfg, s) && Wedged(s) && s.dc.ladder == UNDEFINED && Valid(cfg, s, events)
    requires !s.rq.staleOrders.response || !Answerable(s.rq, {})
    ensures Run(cfg, s, events).fault != UnexpectedStale
  {
    if !s.rq.staleOrders.response {
      UnansweredNotFatal(cfg, s, events);
    } else {
      var k := if !s.rq.balances.response then BALANCES else if !s.rq.positions.response then POSITIONS else OPEN_ORDERS;
      StuckNotFatal(cfg, s, events, k);
    }
  }
}
