/** Runs put together step by step: how the answers on the wire come in, how one download is
    made, how a session is brought to READY. */
module AccountScript {
  import opened AccountTypes
  import opened Wrappers
  import opened AccountSpec
  import opened AccountInvariant
  import opened AccountSteps
  import opened AccountLadder
  import opened AccountEffects
  import opened AccountStale
  import opened AccountSession

  // ---- concatenated runs

  lemma {:induction false} RunAppend(cfg: Config, s: Sys, xs: seq<Event>, ys: seq<Event>)
    ensures Run(cfg, s, xs + ys) == Run(cfg, Run(cfg, s, xs), ys)
    ensures Valid(cfg, s, xs + ys) <==> Valid(cfg, s, xs) && Valid(cfg, Run(cfg, s, xs), ys)
    decreases |xs|
  {
    if xs == [] {
      assert xs + ys == ys;
    } else {
      assert (xs + ys)[0] == xs[0] && (xs + ys)[1..] == xs[1..] + ys;
      RunAppend(cfg, Step(cfg, s, xs[0]), xs[1..], ys);
    }
  }

  /** `t` is reached from `s` by a tame run, and with `stay` the stream does not disconnect. */
  ghost predicate Reaches(cfg: Config, s: Sys, t: Sys, stay: bool, now: int) {
    exists events :: Valid(cfg, s, events) && Tame(events, now) && (stay ==> InSession(events)) && Run(cfg, s, events) == t
  }

  lemma ReachesStep(cfg: Config, s: Sys, t: Sys, e: Event, stay: bool, now: int)
    requires Reaches(cfg, s, t, stay, now) && Enabled(t, e)
    requires TameEvent(e, now) && (stay ==> e != Disconnected)
    ensures Reaches(cfg, s, Step(cfg, t, e), stay, now)
  {
    var events :| Valid(cfg, s, events) && Tame(events, now) && (stay ==> InSession(events)) && Run(cfg, s, events) == t;
    RunAppend(cfg, s, events, [e]);
    RunOne(cfg, t, e);
    assert Tame(events + [e], now) && (stay ==> InSession(events + [e]));
    assert Run(cfg, s, events + [e]) == Step(cfg, t, e);
  }

  lemma ReachesSelf(cfg: Config, s: Sys, stay: bool, now: int)
    ensures Reaches(cfg, s, s, stay, now)
  {
    assert Valid(cfg, s, []) && Tame([], now) && InSession([]) && Run(cfg, s, []) == s;
  }

  /** One more event after a run that starts with the welcome. */
  lemma WelcomedRun(cfg: Config, s: Sys, t: Sys, now: int) returns (events: seq<Event>)
    requires Enabled(s, Welcome) && Reaches(cfg, Step(cfg, s, Welcome), t, true, now)
    ensures Valid(cfg, s, [Welcome] + events) && InSession(events) && Tame(events, now) && Run(cfg, s, [Welcome] + events) == t
  {
    events :| Valid(cfg, Step(cfg, s, Welcome), events) && Tame(events, now) && InSession(events)
      && Run(cfg, Step(cfg, s, Welcome), events) == t;
    assert ([Welcome] + events)[0] == Welcome && ([Welcome] + events)[1..] == events;
  }

  // ---- answers come in

  /** The same stream and the same slots up to what is in flight, now answered. */
  predicate Settled(s: Sys, t: Sys) {
    && t.fault == NoFault && t.dc == s.dc && t.rest.sent == s.rest.sent
    && t.rest.hasToken == s.rest.hasToken && t.rest.downloading == s.rest.downloading
    && t.rq == Landed(s.rq) && t.rq.Ready()
  }

  function LandedSlot(slot: Slot): Slot { if slot.inFlight then slot.Commit() else slot }

  function Landed(rq: Requests): Requests {
    rq.(token := LandedSlot(rq.token), balances := LandedSlot(rq.balances), positions := LandedSlot(rq.positions),
        openOrders := LandedSlot(rq.openOrders), staleOrders := LandedSlot(rq.staleOrders), trades := LandedSlot(rq.trades))
  }

  /** Everything on the wire is answered, by failures: unless the account is wedged nothing
      stays in flight. */
  lemma Settle(cfg: Config, r: Sys, s: Sys, stay: bool, now: int) returns (t: Sys)
    requires Inv(cfg, s) && s.fault == NoFault && !Wedged(s) && Reaches(cfg, r, s, stay, now)
    requires s.rest.hasToken && !s.rest.downloading
    ensures Reaches(cfg, r, t, stay, now) && Inv(cfg, t) && Settled(s, t)
  {
    if s.rq.staleOrders.inFlight {
      t := SettleBatch(cfg, r, s, stay, now);
    } else if s.rq.token.inFlight {
      t := SettleToken(cfg, r, s, stay, now);
    } else if s.rq.balances.inFlight {
      t := SettlePlain(cfg, r, s, BALANCES, stay, now);
    } else if s.rq.positions.inFlight {
      t := SettlePlain(cfg, r, s, POSITIONS, stay, now);
    } else if s.rq.openOrders.inFlight {
      t := SettlePlain(cfg, r, s, OPEN_ORDERS, stay, now);
    } else if s.rq.trades.inFlight {
      t := SettlePlain(cfg, r, s, TRADES, stay, now);
    } else {
      t := s;
    }
  }

  lemma SettlePlain(cfg: Config, r: Sys, s: Sys, k: Kind, stay: bool, now: int) returns (t: Sys)
    requires Inv(cfg, s) && s.fault == NoFault && Plain(k) && s.rq.Get(k).inFlight && Reaches(cfg, r, s, stay, now)
    ensures Reaches(cfg, r, t, stay, now) && Inv(cfg, t) && Settled(s, t)
  {
    var e := Answer(k, NetworkFailure);
    OnWire(s, k);
    t := Step(cfg, s, e);
    StepKeeps(cfg, s, e);
    ReachesStep(cfg, r, s, e, stay, now);
    PlainAnswered(cfg, s, k);
    OnlyOneFlies(s.rq, k);
  }

  lemma OnWire(s: Sys, k: Kind)
    requires WireOk(s.rest, s.rq) && Plain(k) && s.rq.Get(k).inFlight
    ensures k in s.rest.outstanding
  {
  }

  lemma PlainAnswered(cfg: Config, s: Sys, k: Kind)
    requires s.fault == NoFault && Plain(k)
    ensures var t := Step(cfg, s, Answer(k, NetworkFailure));
      && t.fault == NoFault && t.dc == s.dc && t.rq == s.rq.Put(k, s.rq.Get(k).Commit())
      && t.rest == s.rest.(outstanding := s.rest.outstanding - multiset{k}, committed := s.rest.committed + multiset{k})
  {
  }

  lemma OnlyOneFlies(rq: Requests, k: Kind)
    requires Flying(rq) <= 1 && rq.Get(k).inFlight
    ensures Landed(rq) == rq.Put(k, rq.Get(k).Commit()) && Landed(rq).Ready()
  {
  }

  lemma SettleToken(cfg: Config, r: Sys, s: Sys, stay: bool, now: int) returns (t: Sys)
    requires Inv(cfg, s) && s.fault == NoFault && s.rq.token.inFlight && Reaches(cfg, r, s, stay, now)
    ensures Reaches(cfg, r, t, stay, now) && Inv(cfg, t) && Settled(s, t)
  {
    var e := TokenAnswer(NetworkFailure, "", false);
    t := Step(cfg, s, e);
    StepKeeps(cfg, s, e);
    ReachesStep(cfg, r, s, e, stay, now);
    TokenAnswerReleases(cfg, s, NetworkFailure, "", false);
    OnlyOneFlies(s.rq, TOKEN);
    TokenFailed(cfg, s);
  }

  lemma TokenFailed(cfg: Config, s: Sys)
    requires s.fault == NoFault
    ensures var t := Step(cfg, s, TokenAnswer(NetworkFailure, "", false));
      t.dc == s.dc && t.rest.sent == s.rest.sent && t.rest.hasToken == s.rest.hasToken && t.rest.downloading == s.rest.downloading
  {
  }

  lemma {:induction false} SettleBatch(cfg: Config, r: Sys, s: Sys, stay: bool, now: int) returns (t: Sys)
    requires Inv(cfg, s) && s.fault == NoFault && s.rq.staleOrders.inFlight && s.rest.counter > 0 && Reaches(cfg, r, s, stay, now)
    ensures Reaches(cfg, r, t, stay, now) && Inv(cfg, t) && Settled(s, t)
    decreases s.rest.counter
  {
    t := SettleOrder(cfg, r, s, stay, now);
    if t.rest.orders != multiset{} {
      t := SettleBatch(cfg, r, t, stay, now);
    } else {
      OnlyOneFlies(s.rq, STALE_ORDERS);
    }
  }

  /** One answer of the batch. */
  lemma SettleOrder(cfg: Config, r: Sys, s: Sys, stay: bool, now: int) returns (t: Sys)
    requires Inv(cfg, s) && s.fault == NoFault && s.rq.staleOrders.inFlight && s.rest.counter > 0 && Reaches(cfg, r, s, stay, now)
    ensures Reaches(cfg, r, t, stay, now) && Inv(cfg, t) && t.fault == NoFault && t.dc == s.dc && t.rest.sent == s.rest.sent
    ensures t.rest.hasToken == s.rest.hasToken && t.rest.downloading == s.rest.downloading
    ensures t.rest.counter == s.rest.counter - 1 == |t.rest.orders|
    ensures t.rq == if t.rest.orders == multiset{} then s.rq.(staleOrders := s.rq.staleOrders.Commit()) else s.rq
  {
    var key :| key in s.rest.orders;
    var e := OrderAnswer(key, NetworkFailure);
    t := Step(cfg, s, e);
    StepKeeps(cfg, s, e);
    ReachesStep(cfg, r, s, e, stay, now);
    BatchReleases(cfg, s, key, NetworkFailure);
    OrderAnswered(cfg, s, key);
  }

  lemma OrderAnswered(cfg: Config, s: Sys, key: Key)
    requires s.fault == NoFault
    ensures var t := Step(cfg, s, OrderAnswer(key, NetworkFailure));
      t.rest.sent == s.rest.sent && t.rest.hasToken == s.rest.hasToken && t.rest.downloading == s.rest.downloading
  {
  }

  /** The REST stream connects if it has to. */
  lemma Connect(cfg: Config, r: Sys, s: Sys, stay: bool, now: int) returns (t: Sys)
    requires Inv(cfg, s) && s.fault == NoFault && Reaches(cfg, r, s, stay, now) && s.rest.hasToken && !s.rest.downloading
    ensures Reaches(cfg, r, t, stay, now) && Inv(cfg, t) && t == s.(rest := s.rest.(status := READY))
  {
    t := Step(cfg, s, RestConnected(false));
    StepKeeps(cfg, s, RestConnected(false));
    ReachesStep(cfg, r, s, RestConnected(false), stay, now);
  }

  // ---- one request

  /** With one grant, and nothing in flight, the tick starts that request. */
  lemma StartsOnly(cfg: Config, s: Sys, k: Kind, known: set<Key>)
    requires (cfg.master || k == TOKEN) && s.fault == NoFault && s.rest.status == READY && s.rq.Ready() && s.rq.Get(k).pending
    ensures Step(cfg, s, RestTimer({k}, known)) == FromSide(s, Start(Side(s.rest, s.rq, s.fault), k, known))
  {
    var x := Side(s.rest, s.rq, s.fault);
    TickStartsOne(cfg, x, {k}, known);
    assert Chosen(cfg, x, {k}) == Some(k);
  }

  /** A pending plain download is sent and answered. */
  lemma Obtain(cfg: Config, r: Sys, s: Sys, k: Kind, stay: bool, now: int) returns (t: Sys)
    requires cfg.master && Plain(k) && s.fault == NoFault && s.rest.status == READY && s.rq.Ready()
    requires s.rq.Get(k).pending && Reaches(cfg, r, s, stay, now)
    ensures Reaches(cfg, r, t, stay, now) && t.fault == NoFault && t.dc == s.dc
    ensures t.rq == s.rq.Put(k, Slot(false, false, true))
    ensures t.rest.status == READY && t.rest.sent == s.rest.sent + multiset{k}
    ensures t.rest.orders == s.rest.orders && t.rest.counter == s.rest.counter
  {
    var e := RestTimer({k}, {});
    var u := Step(cfg, s, e);
    StartsOnly(cfg, s, k, {});
    ReachesStep(cfg, r, s, e, stay, now);
    t := Step(cfg, u, Answer(k, NetworkFailure));
    PlainAnswered(cfg, u, k);
    ReachesStep(cfg, r, u, Answer(k, NetworkFailure), stay, now);
  }

  // ---- one rung of the ladder

  predicate Upright(s: Sys) { s.fault == NoFault && s.dc.phase == UPGRADED && s.dc.created && s.dc.welcome && !s.dc.ready }

  /** Nothing in flight and the REST stream ready. */
  predicate Poised(s: Sys) { Upright(s) && s.rest.status == READY && s.rq.Ready() }

  /** The slots after a rung: after the open orders the scan may have found a batch to ask
      for. */
  function Scanned(rq: Requests, k: Kind, orders: seq<Key>): Requests {
    if k != OPEN_ORDERS then rq
    else
      var rq1 := rq.Scan(orders);
      if rq1.details == {} then rq1 else rq1.(staleOrders := rq1.staleOrders.Request())
  }

  function NextRung(rq: Requests, k: Kind, orders: seq<Key>): State {
    if k == BALANCES then SUBSCRIBE_POSITIONS
    else if k == POSITIONS then SUBSCRIBE_ORDERS
    else if rq.Scan(orders).details == {} then SUBSCRIBE_TRADES
    else GET_STALE_ORDERS
  }

  predicate AtRung(s: Sys, state: State) {
    s.dc.ladder == state && (IsSubscribe(state) ==> Subscribed(state) in s.dc.trace)
  }

  /** A step of the drop-copy stream that keeps the session going. */
  predicate Onward(s: Sys, t: Sys, state: State) {
    && AtRung(t, state) && t.fault == NoFault && t.rest == s.rest
    && t.dc.phase == s.dc.phase && t.dc.created == s.dc.created && t.dc.welcome == s.dc.welcome && t.dc.ready == s.dc.ready
  }

  /** A state that is not passed over is simply entered. */
  lemma ClimbEnters(cfg: Config, a: Acct, s: State)
    requires Active(s) && !Skips(cfg, a.rq, s)
    ensures var b := Climb(cfg, a, s);
      && b == Enter(a.(dc := a.dc.(ladder := s)), s)
      && b.dc.ladder == s && b.dc.status == DOWNLOADING && b.fault == a.fault
      && (IsSubscribe(s) ==> Subscribed(s) in b.dc.trace && b.rq == a.rq)
      && (!IsSubscribe(s) ==> b.rq == a.rq.Put(KindOf(s), a.rq.Get(KindOf(s)).Request()))
      && b.dc.phase == a.dc.phase && b.dc.created == a.dc.created && b.dc.welcome == a.dc.welcome && b.dc.ready == a.dc.ready
  {
  }

  lemma AckEnters(cfg: Config, s: Sys, k: Kind)
    requires s.fault == NoFault && Mandatory(k) && s.dc.ladder == SubscriptionOf(k)
    ensures var t := Step(cfg, s, Ack(Some(SubscriptionOf(k))));
      Onward(s, t, GetOf(k)) && t.rq == s.rq.Put(k, s.rq.Get(k).Request())
  {
    var a := Note(Acct(s.dc, s.rq, s.fault), [Completed(s.dc.ladder)]);
    assert Next(s.dc.ladder) == GetOf(k);
    ClimbEnters(cfg, a, GetOf(k));
    StepAck(cfg, s, SubscriptionOf(k));
  }

  lemma TickCompletes(cfg: Config, s: Sys, k: Kind, orders: seq<Key>, now: int)
    requires s.fault == NoFault && Mandatory(k) && s.dc.ladder == GetOf(k) && s.dc.phase == UPGRADED
    requires s.rq.Get(k).response
    ensures var t := Step(cfg, s, Timer(now, orders));
      Onward(s, t, NextRung(s.rq, k, orders)) && t.rq == Scanned(s.rq.Put(k, s.rq.Get(k).Consume()), k, orders)
  {
    var rq := s.rq.Put(k, s.rq.Get(k).Consume());
    var a := Note(Acct(s.dc, if k == OPEN_ORDERS then rq.Scan(orders) else rq, s.fault), [Completed(GetOf(k))]);
    var b := Climb(cfg, a, Next(GetOf(k)));
    ClimbsOn(cfg, a, k);
    assert CheckRequestQueue(cfg, Acct(s.dc, s.rq, s.fault), orders) == b;
    StepTimer(cfg, s, now, orders);
  }

  /** After a mandatory download the ladder goes on to the next subscription, or to the
      batch of stale orders if there is one. */
  lemma ClimbsOn(cfg: Config, a: Acct, k: Kind)
    requires Mandatory(k)
    ensures var b := Climb(cfg, a, Next(GetOf(k)));
      var next := if k == BALANCES then SUBSCRIBE_POSITIONS else if k == POSITIONS then SUBSCRIBE_ORDERS
                  else if a.rq.details == {} then SUBSCRIBE_TRADES else GET_STALE_ORDERS;
      && b.dc.ladder == next && b.dc.status == DOWNLOADING && b.fault == a.fault
      && (IsSubscribe(next) ==> Subscribed(next) in b.dc.trace)
      && b.rq == (if next == GET_STALE_ORDERS then a.rq.(staleOrders := a.rq.staleOrders.Request()) else a.rq)
      && b.dc.phase == a.dc.phase && b.dc.created == a.dc.created && b.dc.welcome == a.dc.welcome && b.dc.ready == a.dc.ready
  {
    if k == OPEN_ORDERS && a.rq.details == {} {
      var a1 := Note(a.(dc := a.dc.(ladder := GET_STALE_ORDERS)), [Skipped(GET_STALE_ORDERS)]);
      ClimbEnters(cfg, a1, SUBSCRIBE_TRADES);
      assert Climb(cfg, a, GET_STALE_ORDERS) == Climb(cfg, a1, SUBSCRIBE_TRADES);
    } else {
      ClimbEnters(cfg, a, Next(GetOf(k)));
    }
  }

  /** A response that is already there: acknowledgement and poll, no request. */
  lemma RungPolled(cfg: Config, r: Sys, s: Sys, k: Kind, orders: seq<Key>, stay: bool, now: int) returns (t: Sys)
    requires Upright(s) && Mandatory(k) && AtRung(s, SubscriptionOf(k)) && s.rq.Get(k).response && Reaches(cfg, r, s, stay, now)
    ensures Reaches(cfg, r, t, stay, now) && Onward(s, t, NextRung(s.rq, k, orders))
    ensures t.rq == Scanned(s.rq.Put(k, s.rq.Get(k).Request().Consume()), k, orders)
  {
    var e := Ack(Some(SubscriptionOf(k)));
    var u := Step(cfg, s, e);
    AckEnters(cfg, s, k);
    ReachesStep(cfg, r, s, e, stay, now);
    t := Step(cfg, u, Timer(now, orders));
    TickCompletes(cfg, u, k, orders, now);
    ReachesStep(cfg, r, u, Timer(now, orders), stay, now);
  }

  /** Acknowledgement, request and answer. */
  lemma RungAsked(cfg: Config, r: Sys, s: Sys, k: Kind, stay: bool, now: int) returns (t: Sys)
    requires cfg.master && Poised(s) && Mandatory(k) && AtRung(s, SubscriptionOf(k)) && Reaches(cfg, r, s, stay, now)
    ensures Reaches(cfg, r, t, stay, now) && Poised(t) && t.dc.ladder == GetOf(k)
    ensures t.rq == s.rq.Put(k, Slot(false, false, true)) && t.rest.sent == s.rest.sent + multiset{k}
    ensures t.rest.orders == s.rest.orders && t.rest.counter == s.rest.counter
  {
    var e := Ack(Some(SubscriptionOf(k)));
    var u := Step(cfg, s, e);
    AckEnters(cfg, s, k);
    ReachesStep(cfg, r, s, e, stay, now);
    t := Obtain(cfg, r, u, k, stay, now);
  }

  /** Then the poll. */
  lemma RungSent(cfg: Config, r: Sys, s: Sys, k: Kind, orders: seq<Key>, stay: bool, now: int) returns (t: Sys)
    requires cfg.master && Poised(s) && Mandatory(k) && AtRung(s, SubscriptionOf(k)) && Reaches(cfg, r, s, stay, now)
    ensures Reaches(cfg, r, t, stay, now) && Poised(t) && AtRung(t, NextRung(s.rq, k, orders))
    ensures t.rq == Scanned(s.rq.Put(k, FREE), k, orders) && t.rest.sent == s.rest.sent + multiset{k}
    ensures t.rest.orders == s.rest.orders && t.rest.counter == s.rest.counter
  {
    var u := RungAsked(cfg, r, s, k, stay, now);
    t := Step(cfg, u, Timer(now, orders));
    TickCompletes(cfg, u, k, orders, now);
    ReachesStep(cfg, r, u, Timer(now, orders), stay, now);
    ScannedReady(s.rq.Put(k, FREE), k, orders);
  }

  lemma ScannedReady(rq: Requests, k: Kind, orders: seq<Key>)
    ensures Scanned(rq, k, orders).Ready() == rq.Ready()
  {
  }

  /** One download, with a new request or with the response that is already there. */
  lemma Rung(cfg: Config, r: Sys, s: Sys, k: Kind, orders: seq<Key>, send: bool, stay: bool, now: int) returns (t: Sys)
    requires cfg.master && Poised(s) && Mandatory(k) && AtRung(s, SubscriptionOf(k)) && Reaches(cfg, r, s, stay, now)
    requires send || s.rq.Get(k).response
    ensures Reaches(cfg, r, t, stay, now) && Poised(t) && AtRung(t, NextRung(s.rq, k, orders))
    ensures t.rq == Scanned(s.rq.Put(k, Slot(!send, false, false)), k, orders)
    ensures t.rest.sent == s.rest.sent + (if send then multiset{k} else multiset{})
    ensures t.rest.orders == s.rest.orders && t.rest.counter == s.rest.counter
  {
    if send {
      t := RungSent(cfg, r, s, k, orders, stay, now);
    } else {
      t := RungPolled(cfg, r, s, k, orders, stay, now);
      PolledSlot(s.rq, k);
      ScannedReady(s.rq.Put(k, Slot(true, false, false)), k, orders);
      StillPoised(s, t, NextRung(s.rq, k, orders));
    }
  }

  lemma PolledSlot(rq: Requests, k: Kind)
    requires rq.Ready()
    ensures rq.Get(k).Request().Consume() == Slot(true, false, false) && rq.Put(k, Slot(true, false, false)).Ready()
  {
  }

  lemma StillPoised(s: Sys, t: Sys, state: State)
    requires Poised(s) && Onward(s, t, state) && t.rq.Ready()
    ensures Poised(t)
  {
  }

  predicate Answerable(rq: Requests, send: set<Kind>) {
    && (BALANCES in send || rq.balances.response)
    && (POSITIONS in send || rq.positions.response)
    && (OPEN_ORDERS in send || rq.openOrders.response)
  }

  /** The three mandatory downloads, up to the scan for stale orders. */
  lemma Rungs(cfg: Config, r: Sys, s: Sys, orders: seq<Key>, send: set<Kind>, stay: bool, now: int) returns (t: Sys)
    requires cfg.master && Reaches(cfg, r, s, stay, now) && Poised(s) && AtRung(s, SUBSCRIBE_BALANCES) && Answerable(s.rq, send)
    ensures Reaches(cfg, r, t, stay, now) && Poised(t) && AtRung(t, NextRung(s.rq, OPEN_ORDERS, orders))
    ensures t.rq == Scanned(Downloaded(s.rq, send), OPEN_ORDERS, orders)
    ensures t.rest.sent[BALANCES] == s.rest.sent[BALANCES] + One(BALANCES in send)
    ensures t.rest.sent[POSITIONS] == s.rest.sent[POSITIONS] + One(POSITIONS in send)
    ensures t.rest.sent[OPEN_ORDERS] == s.rest.sent[OPEN_ORDERS] + One(OPEN_ORDERS in send)
    ensures t.rest.orders == s.rest.orders && t.rest.counter == s.rest.counter
  {
    var u := TwoRungs(cfg, r, s, send, stay, now);
    t := Rung(cfg, r, u, OPEN_ORDERS, orders, OPEN_ORDERS in send, stay, now);
    assert u.rq.(openOrders := Slot(OPEN_ORDERS !in send, false, false)) == Downloaded(s.rq, send);
  }

  lemma TwoRungs(cfg: Config, r: Sys, s: Sys, send: set<Kind>, stay: bool, now: int) returns (t: Sys)
    requires cfg.master && Reaches(cfg, r, s, stay, now) && Poised(s) && AtRung(s, SUBSCRIBE_BALANCES) && Answerable(s.rq, send)
    ensures Reaches(cfg, r, t, stay, now) && Poised(t) && AtRung(t, SUBSCRIBE_ORDERS)
    ensures t.rq == s.rq.(balances := Slot(BALANCES !in send, false, false), positions := Slot(POSITIONS !in send, false, false))
    ensures t.rest.sent[BALANCES] == s.rest.sent[BALANCES] + One(BALANCES in send)
    ensures t.rest.sent[POSITIONS] == s.rest.sent[POSITIONS] + One(POSITIONS in send)
    ensures t.rest.sent[OPEN_ORDERS] == s.rest.sent[OPEN_ORDERS]
    ensures t.rest.orders == s.rest.orders && t.rest.counter == s.rest.counter
  {
    var u := Rung(cfg, r, s, BALANCES, [], BALANCES in send, stay, now);
    t := Rung(cfg, r, u, POSITIONS, [], POSITIONS in send, stay, now);
  }

  /** A download without a request of its own leaves the slot pending. */
  function Downloaded(rq: Requests, send: set<Kind>): Requests {
    rq.(balances := Slot(BALANCES !in send, false, false), positions := Slot(POSITIONS !in send, false, false),
        openOrders := Slot(OPEN_ORDERS !in send, false, false))
  }

  /** From the welcome to the scan for stale orders, every download requested. */
  lemma Session(cfg: Config, r: Sys, s: Sys, orders: seq<Key>, stay: bool, now: int) returns (t: Sys)
    requires cfg.master && Reaches(cfg, r, s, stay, now) && Poised(s.(dc := s.dc.(welcome := true))) && !s.dc.welcome
    ensures Reaches(cfg, r, t, stay, now) && Poised(t) && AtRung(t, NextRung(s.rq, OPEN_ORDERS, orders))
    ensures t.rq == Scanned(Downloaded(s.rq, {BALANCES, POSITIONS, OPEN_ORDERS}), OPEN_ORDERS, orders)
    ensures t.rest.orders == s.rest.orders && t.rest.counter == s.rest.counter
  {
    var s1 := Step(cfg, s, Welcome);
    WelcomeRung(cfg, s);
    ReachesStep(cfg, r, s, Welcome, stay, now);
    t := Rungs(cfg, r, s1, orders, {BALANCES, POSITIONS, OPEN_ORDERS}, stay, now);
  }

  lemma WelcomeRung(cfg: Config, s: Sys)
    requires s.fault == NoFault
    ensures var t := Step(cfg, s, Welcome);
      Onward(s.(dc := s.dc.(welcome := true)), t, SUBSCRIBE_BALANCES) && t.rq == s.rq
  {
    WelcomeEnters(cfg, s);
    assert Step(cfg, s, Welcome).dc.trace[|s.dc.trace| + 1] == Subscribed(SUBSCRIBE_BALANCES);
    WelcomeNotReady(cfg, s);
  }

  lemma WelcomeNotReady(cfg: Config, s: Sys)
    requires s.fault == NoFault
    ensures Step(cfg, s, Welcome).dc.ready == s.dc.ready
  {
  }

  // ---- the last subscription and, with a lookback, the trades

  predicate Finished(s: Sys, t: Sys) {
    && t.fault == NoFault && t.dc.ladder == DONE && t.dc.status == READY
    && t.rest.sent[BALANCES] == s.rest.sent[BALANCES] && t.rest.sent[POSITIONS] == s.rest.sent[POSITIONS]
    && t.rest.sent[OPEN_ORDERS] == s.rest.sent[OPEN_ORDERS]
    && t.rest.status == s.rest.status && (s.rq.Ready() ==> t.rq.Ready())
  }

  lemma TickedReady(rq: Requests, rq': Requests)
    requires Ticked(rq, rq')
    ensures rq'.Ready() == rq.Ready()
  {
  }

  lemma LastRung(cfg: Config, r: Sys, s: Sys, stay: bool, now: int) returns (t: Sys)
    requires cfg.master && Reaches(cfg, r, s, stay, now) && Poised(s) && AtRung(s, SUBSCRIBE_TRADES)
    ensures Reaches(cfg, r, t, stay, now) && Finished(s, t)
  {
    t := AckTrades(cfg, r, s, stay, now);
    if cfg.tradesLookback {
      if !t.rq.trades.response {
        t := Obtain(cfg, r, t, TRADES, stay, now);
      }
      t := PollTrades(cfg, r, t, stay, now);
    }
  }

  lemma AckTrades(cfg: Config, r: Sys, s: Sys, stay: bool, now: int) returns (t: Sys)
    requires Upright(s) && AtRung(s, SUBSCRIBE_TRADES) && Reaches(cfg, r, s, stay, now)
    ensures Reaches(cfg, r, t, stay, now)
    ensures if cfg.tradesLookback
      then Onward(s, t, GET_TRADES) && t.rq == s.rq.(trades := s.rq.trades.Request())
      else Finished(s, t)
  {
    var e := Ack(Some(SUBSCRIBE_TRADES));
    t := Step(cfg, s, e);
    ReachesStep(cfg, r, s, e, stay, now);
    StepAck(cfg, s, SUBSCRIBE_TRADES);
    TradesAcked(cfg, Acct(s.dc, s.rq, s.fault));
    AckTicks(cfg, s, SUBSCRIBE_TRADES);
    TickedReady(s.rq, t.rq);
  }

  lemma TradesAcked(cfg: Config, a: Acct)
    requires a.fault == NoFault && !a.dc.ready && a.dc.ladder == SUBSCRIBE_TRADES
    ensures var b := Check(cfg, a, SUBSCRIBE_TRADES);
      && b.fault == NoFault
      && if cfg.tradesLookback
         then b.dc.ladder == GET_TRADES && b.rq == a.rq.(trades := a.rq.trades.Request())
              && b.dc.phase == a.dc.phase && b.dc.created == a.dc.created && b.dc.welcome == a.dc.welcome && b.dc.ready == a.dc.ready
         else b.dc.ladder == DONE && b.dc.status == READY
  {
    var a1 := Note(a, [Completed(SUBSCRIBE_TRADES)]);
    if cfg.tradesLookback {
      ClimbEnters(cfg, a1, GET_TRADES);
    } else {
      ClimbFinishes(cfg, a1.(dc := a1.dc.(ladder := GET_TRADES)), [Skipped(GET_TRADES)]);
    }
  }

  lemma PollTrades(cfg: Config, r: Sys, s: Sys, stay: bool, now: int) returns (t: Sys)
    requires Upright(s) && s.dc.ladder == GET_TRADES && s.rq.trades.response && Reaches(cfg, r, s, stay, now)
    ensures Reaches(cfg, r, t, stay, now) && Finished(s, t)
  {
    t := Step(cfg, s, Timer(now, []));
    TradesComplete(cfg, s, now);
    ReachesStep(cfg, r, s, Timer(now, []), stay, now);
  }

  lemma ClimbFinishes(cfg: Config, a: Acct, marks: seq<Mark>)
    requires !a.dc.ready && a.fault == NoFault
    ensures var b := Climb(cfg, Note(a, marks), DONE); b.fault == NoFault && b.dc.ladder == DONE && b.dc.status == READY
  {
  }

  lemma TradesComplete(cfg: Config, s: Sys, now: int)
    requires Upright(s) && s.dc.ladder == GET_TRADES && s.rq.trades.response
    ensures Finished(s, Step(cfg, s, Timer(now, [])))
  {
    var a := Acct(s.dc, s.rq.(trades := s.rq.trades.Consume()), s.fault);
    ClimbFinishes(cfg, a, [Completed(GET_TRADES)]);
    var b := Climb(cfg, Note(a, [Completed(GET_TRADES)]), DONE);
    assert CheckRequestQueue(cfg, Acct(s.dc, s.rq, s.fault), []) == b;
    WhenReadyStream(cfg, b, now, []);
    StepTimer(cfg, s, now, []);
    PollTicks(cfg, s, now, []);
    TickedReady(s.rq, Step(cfg, s, Timer(now, [])).rq);
  }
}
