/** Stale-order reconciliation over whole runs: nothing is lost, the answer counter is
    exact, when the fatal check can fire, and when a batch blocks the account for good. */
module AccountStale {
  import opened AccountTypes
  import opened Wrappers
  import opened AccountSpec
  import opened AccountInvariant
  import opened AccountSteps
  import opened AccountLadder
  import opened AccountEffects

  // ---- counter and conservation

  /** The counter of stale orders is the number of order-detail requests on the wire, so
      the fatal branch on an unexpected answer is never taken, and while it is positive
      the slot of the batch stays in flight. */
  lemma CounterExact(cfg: Config, s: Sys)
    requires Reachable(cfg, s)
    ensures s.fault != UnexpectedAnswer && s.fault != AssertFailed
    ensures s.fault == NoFault ==> s.rest.counter == |s.rest.orders|
    ensures s.fault == NoFault && s.rest.counter > 0 ==> s.rq.staleOrders.inFlight
  {
    JointInvariant(cfg, s);
  }

  /** Each time a key was inserted it is still in the set, or was sent as a detail request,
      or was reported unknown; each detail request was answered or is on the wire. */
  lemma StaleOrderConservation(cfg: Config, s: Sys, key: Key)
    requires Reachable(cfg, s) && s.fault == NoFault
    ensures s.rq.inserted[key] == One(key in s.rq.details) + s.rest.dispatched[key] + s.rest.unknown[key]
    ensures s.rest.dispatched[key] == s.rest.answered[key] + s.rest.orders[key]
  {
    JointInvariant(cfg, s);
  }

  /** Keys leave the set only when the REST stream hands over the batch, and then each is
      dispatched or reported unknown once, at this very step. */
  lemma KeysLeaveAtDispatch(cfg: Config, s: Sys, e: Event, key: Key)
    requires s.fault == NoFault && key in s.rq.details
    ensures var t := Step(cfg, s, e);
      key !in t.rq.details ==>
        && e.RestTimer? && cfg.master && s.rest.status == READY
        && t.rq.details == {}
        && t.rest.dispatched[key] == s.rest.dispatched[key] + One(key in e.known)
        && t.rest.unknown[key] == s.rest.unknown[key] + One(key !in e.known)
  {
    if Streamed(e) {
      StreamTicks(cfg, s, e);
    } else if e.RestTimer? {
      TickStartsOne(cfg, Side(s.rest, s.rq, s.fault), e.grants, e.known);
    }
  }

  // ---- slot release

  predicate Balanced(s: Sys) {
    s.fault == NoFault ==> s.rest.sent[TOKEN] == s.rest.committed[TOKEN] + s.rest.outstanding[TOKEN]
  }

  lemma TickBalanced(cfg: Config, s: Sys, grants: set<Kind>, known: set<Key>)
    requires Balanced(s)
    ensures Balanced(Step(cfg, s, RestTimer(grants, known)))
  {
    var x := Side(s.rest, s.rq, s.fault);
    if s.fault == NoFault {
      TickStartsOne(cfg, x, grants, known);
      match Chosen(cfg, x, grants) {
        case None =>
        case Some(k) => StartBalanced(x, k, known);
      }
    }
  }

  lemma StartBalanced(x: Side, k: Kind, known: set<Key>)
    requires x.rest.sent[TOKEN] == x.rest.committed[TOKEN] + x.rest.outstanding[TOKEN]
    ensures var y := Start(x, k, known); y.rest.sent[TOKEN] == y.rest.committed[TOKEN] + y.rest.outstanding[TOKEN]
  {
  }

  lemma TokenBalanced(cfg: Config, s: Sys, e: Event)
    requires Balanced(s) && e.TokenAnswer? && TOKEN in s.rest.outstanding
    ensures Balanced(Step(cfg, s, e))
  {
  }

  lemma AnswerBalanced(cfg: Config, s: Sys, e: Event)
    requires Balanced(s) && ((e.Answer? && Plain(e.kind)) || e.OrderAnswer?)
    ensures Balanced(Step(cfg, s, e))
  {
  }

  lemma ConnectionBalanced(cfg: Config, s: Sys, e: Event)
    requires Balanced(s) && (e.RestConnected? || e.RestDisconnected? || e.RestRetry?)
    ensures Balanced(Step(cfg, s, e))
  {
  }

  lemma StepBalanced(cfg: Config, s: Sys, e: Event)
    requires Balanced(s) && Enabled(s, e)
    ensures Balanced(Step(cfg, s, e))
  {
    if Streamed(e) {
      StreamTicks(cfg, s, e);
    } else if e.RestTimer? {
      TickBalanced(cfg, s, e.grants, e.known);
    } else if e.TokenAnswer? {
      TokenBalanced(cfg, s, e);
    } else if e.Answer? || e.OrderAnswer? {
      AnswerBalanced(cfg, s, e);
    } else {
      ConnectionBalanced(cfg, s, e);
    }
  }

  lemma {:induction false} RunBalanced(cfg: Config, s: Sys, events: seq<Event>)
    requires Balanced(s) && Valid(cfg, s, events)
    ensures Balanced(Run(cfg, s, events))
    decreases |events|
  {
    if events != [] {
      StepBalanced(cfg, s, events[0]);
      RunBalanced(cfg, Step(cfg, s, events[0]), events[1..]);
    }
  }

  /** Over every run each request sent, the token's included, was committed exactly once or
      is still on the wire. */
  lemma RequestConservation(cfg: Config, s: Sys, k: Kind)
    requires Reachable(cfg, s) && s.fault == NoFault && k != STALE_ORDERS
    ensures s.rest.sent[k] == s.rest.committed[k] + s.rest.outstanding[k]
    ensures k != TOKEN ==> s.rest.outstanding[k] == One(s.rq.Get(k).inFlight)
  {
    JointInvariant(cfg, s);
    var events :| Valid(cfg, INIT, events) && Run(cfg, INIT, events) == s;
    RunBalanced(cfg, INIT, events);
  }

  /** Whatever the answer says, short of a redirect, an answered plain download frees its
      slot and commits exactly once. */
  lemma AnswerReleases(cfg: Config, s: Sys, k: Kind, response: Response)
    requires Inv(cfg, s) && s.fault == NoFault && Enabled(s, Answer(k, response))
    ensures var t := Step(cfg, s, Answer(k, response));
      if response.Http? && response.category == REDIRECTION then t.fault == Redirected
      else
        && s.rq.Get(k).inFlight
        && t.rq == s.rq.Put(k, s.rq.Get(k).Commit())
        && t.rest.committed == s.rest.committed + multiset{k}
  {
    InFlightOnWire(s.rest, s.rq, k);
  }

  /** The answer is no server error and has a body that can be decoded, and no other answer
      has ended the initial download before it. */
  predicate Heard(rest: RestState, response: Response, superseded: bool) {
    && response.Http? && response.category in {SUCCESS, CLIENT_ERROR} && response.body.Decoded?
    && !(rest.downloading && superseded)
  }

  /** So does an answered token request, delivered or not; the initial download is over, and
      no other will follow, exactly when the answer is heard, that of a refused request
      included. */
  lemma TokenAnswerReleases(cfg: Config, s: Sys, response: Response, token: string, superseded: bool)
    requires s.fault == NoFault && Enabled(s, TokenAnswer(response, token, superseded))
    ensures var t := Step(cfg, s, TokenAnswer(response, token, superseded));
      if response.Http? && response.category == REDIRECTION then t.fault == Redirected
      else
        && t.fault == NoFault
        && t.rq == s.rq.(token := s.rq.token.Commit())
        && t.rest.committed == s.rest.committed + multiset{TOKEN}
        && t.rest.outstanding == s.rest.outstanding - multiset{TOKEN}
        && t.rest.hasToken == (s.rest.hasToken || Heard(s.rest, response, superseded))
        && t.rest.downloading == (s.rest.downloading && !Heard(s.rest, response, superseded))
        && (t.dc == s.dc || (Heard(s.rest, response, superseded) && response.body.code == 200_000))
  {
  }

  lemma InFlightOnWire(rest: RestState, rq: Requests, k: Kind)
    requires WireOk(rest, rq) && Plain(k) && k in rest.outstanding
    ensures rq.Get(k).inFlight
  {
  }

  lemma OrderAnswerEffect(x: Side, key: Key, response: Response)
    requires x.rest.counter == |x.rest.orders| && key in x.rest.orders && x.fault == NoFault
    requires ProcessResponse(response) != Terminated
    ensures var y := OnOrderAnswer(x, key, response);
      && y.fault == NoFault
      && y.rest.orders == x.rest.orders - multiset{key}
      && y.rest.counter == x.rest.counter - 1
      && (if y.rest.orders == multiset{}
          then y.rq == x.rq.(staleOrders := x.rq.staleOrders.Commit())
               && y.rest.committed == x.rest.committed + multiset{STALE_ORDERS}
          else y.rq == x.rq && y.rest.committed == x.rest.committed)
  {
  }

  /** The batch of stale orders commits exactly at the answer that leaves none outstanding. */
  lemma BatchReleases(cfg: Config, s: Sys, key: Key, response: Response)
    requires Inv(cfg, s) && s.fault == NoFault && Enabled(s, OrderAnswer(key, response))
    requires !(response.Http? && response.category == REDIRECTION)
    ensures var t := Step(cfg, s, OrderAnswer(key, response));
      && t.fault == NoFault && t.dc == s.dc
      && s.rq.staleOrders.inFlight
      && t.rest.orders == s.rest.orders - multiset{key}
      && t.rest.counter == s.rest.counter - 1
      && (if t.rest.orders == multiset{}
          then t.rq == s.rq.(staleOrders := s.rq.staleOrders.Commit())
               && t.rest.committed == s.rest.committed + multiset{STALE_ORDERS}
          else t.rq == s.rq && t.rest.committed == s.rest.committed)
  {
    OrderAnswerEffect(Side(s.rest, s.rq, s.fault), key, response);
    Nonempty(s.rest.orders, key);
  }

  lemma Nonempty(orders: multiset<Key>, key: Key)
    requires key in orders
    ensures |orders| > 0
  {
  }

  /** At most one of the six kinds is in flight, and on the wire at most one of the four
      plain downloads or one batch of stale orders. */
  lemma MutualExclusion(cfg: Config, s: Sys, j: Kind, k: Kind)
    requires Reachable(cfg, s) && s.fault == NoFault && j != k
    ensures !(s.rq.Get(j).inFlight && s.rq.Get(k).inFlight)
    ensures Plain(j) ==> s.rest.outstanding[j] <= 1
    ensures Plain(j) && Plain(k) ==> s.rest.outstanding[j] + s.rest.outstanding[k] <= 1
    ensures Plain(j) && |s.rest.orders| > 0 ==> s.rest.outstanding[j] == 0
  {
    JointInvariant(cfg, s);
  }

  // ---- the fatal check of GET_STALE_ORDERS

  /** The stale slot along a session in which the fatal check cannot fire. */
  predicate StaleSafe(dc: DropCopyState, rq: Requests, counter: nat) {
    var slot := rq.staleOrders;
    if Index(dc.ladder) < Index(GET_STALE_ORDERS) then slot.Idle()
    else if dc.ladder == GET_STALE_ORDERS then
      || (!slot.inFlight && !slot.response)
      || (!slot.pending && slot.inFlight != slot.response && rq.details == {})
      || (slot.inFlight && !slot.response && counter == 0)
    else true
  }

  lemma AckStaleSafe(cfg: Config, a: Acct, id: State, counter: nat)
    requires StaleSafe(a.dc, a.rq, counter)
    ensures StaleSafe(Check(cfg, a, id).dc, Check(cfg, a, id).rq, counter)
  {
    if id == a.dc.ladder && Active(id) {
      ClimbLands(cfg, Note(a, [Completed(id)]), Next(id));
    }
  }

  lemma QueueStaleSafe(cfg: Config, a: Acct, orders: seq<Key>, counter: nat)
    requires StaleSafe(a.dc, a.rq, counter) && a.fault == NoFault
    ensures var b := CheckRequestQueue(cfg, a, orders);
      b.fault != UnexpectedStale && (b.fault == NoFault ==> StaleSafe(b.dc, b.rq, counter))
  {
    TickLands(cfg, a, orders);
    QueueFault(cfg, a, orders);
    match a.dc.ladder {
      case GET_BALANCES =>
      case GET_POSITIONS =>
      case GET_OPEN_ORDERS =>
      case GET_STALE_ORDERS =>
      case GET_TRADES =>
      case _ =>
    }
  }

  lemma QueueFault(cfg: Config, a: Acct, orders: seq<Key>)
    requires a.fault == NoFault
    ensures CheckRequestQueue(cfg, a, orders).fault == UnexpectedStale <==>
      a.dc.ladder == GET_STALE_ORDERS && a.rq.staleOrders.response && a.rq.details != {}
  {
  }

  lemma TimerStaleSafe(cfg: Config, a: Acct, now: int, orders: seq<Key>, counter: nat)
    requires StaleSafe(a.dc, a.rq, counter) && StreamOk(cfg, a.dc) && a.fault == NoFault
    ensures var b := OnTimer(cfg, a, now, orders);
      b.fault != UnexpectedStale && (b.fault == NoFault ==> StaleSafe(b.dc, b.rq, counter))
  {
    if a.dc.phase == UPGRADED {
      QueueStaleSafe(cfg, a, orders, counter);
      TickStream(cfg, a, orders);
      WhenReadyStream(cfg, CheckRequestQueue(cfg, a, orders), now, orders);
    }
  }

  lemma TickStream(cfg: Config, a: Acct, orders: seq<Key>)
    requires StreamOk(cfg, a.dc) && a.fault == NoFault
    ensures StreamOk(cfg, CheckRequestQueue(cfg, a, orders).dc)
  {
    var s := a.dc.ladder;
    if IsGet(s) && a.rq.Get(KindOf(s)).response {
      var a1 := a.(rq := a.rq.Put(KindOf(s), a.rq.Get(KindOf(s)).Consume()));
      CheckKeeps(cfg, if s == GET_OPEN_ORDERS then a1.(rq := a1.rq.Scan(orders)) else a1, s);
    }
  }

  lemma StartStaleSafe(dc: DropCopyState, x: Side, k: Kind, known: set<Key>)
    requires StaleSafe(dc, x.rq, x.rest.counter) && x.rq.Ready() && x.rq.Get(k).pending
    ensures var y := Start(x, k, known); StaleSafe(dc, y.rq, y.rest.counter)
  {
  }

  lemma QueuesStaleSafe(cfg: Config, dc: DropCopyState, x: Side, grants: set<Kind>, known: set<Key>)
    requires StaleSafe(dc, x.rq, x.rest.counter)
    ensures var y := OnRestTimer(cfg, x, grants, known); StaleSafe(dc, y.rq, y.rest.counter)
  {
    TickStartsOne(cfg, x, grants, known);
    match Chosen(cfg, x, grants) {
      case None =>
      case Some(k) => StartStaleSafe(dc, x, k, known);
    }
  }

  lemma AnswerStaleSafe(cfg: Config, s: Sys, key: Key, response: Response)
    requires Inv(cfg, s) && s.fault == NoFault && StaleSafe(s.dc, s.rq, s.rest.counter)
    requires Enabled(s, OrderAnswer(key, response))
    ensures var t := Step(cfg, s, OrderAnswer(key, response));
      t.fault != UnexpectedStale && StaleSafe(t.dc, t.rq, t.rest.counter)
  {
    if ProcessResponse(response) != Terminated {
      BatchReleases(cfg, s, key, response);
    }
  }

  /** The events that touch neither the ladder nor the batch. */
  lemma OthersLeaveBatch(cfg: Config, s: Sys, e: Event)
    requires s.fault == NoFault && s.dc.created
    requires e.RestConnected? || e.RestDisconnected? || e.RestRetry? || e.TokenAnswer? || e.TokenExpired? || e.Connected? || e.Upgraded?
      || (e.Answer? && Plain(e.kind)) || (e.Ack? && e.id == None)
    ensures var t := Step(cfg, s, e);
      && t.fault != UnexpectedStale && t.dc.ladder == s.dc.ladder
      && t.rq.staleOrders == s.rq.staleOrders && t.rq.details == s.rq.details && t.rest.counter == s.rest.counter
  {
  }

  lemma StepStaleSafe(cfg: Config, s: Sys, e: Event)
    requires Inv(cfg, s) && s.fault == NoFault && s.dc.welcome && StaleSafe(s.dc, s.rq, s.rest.counter)
    requires Enabled(s, e) && e != Disconnected
    ensures var t := Step(cfg, s, e);
      t.fault != UnexpectedStale && (t.fault == NoFault ==> StaleSafe(t.dc, t.rq, t.rest.counter))
  {
    var a := Acct(s.dc, s.rq, s.fault);
    if e.Ack? && e.id.Some? {
      AckStaleSafe(cfg, a, e.id.value, s.rest.counter);
      CheckKeeps(cfg, a, e.id.value);
    } else if e.Timer? {
      TimerStaleSafe(cfg, a, e.now, e.orders, s.rest.counter);
    } else if e.RestTimer? {
      QueuesStaleSafe(cfg, s.dc, Side(s.rest, s.rq, s.fault), e.grants, e.known);
      TickStartsOne(cfg, Side(s.rest, s.rq, s.fault), e.grants, e.known);
    } else if e.OrderAnswer? {
      AnswerStaleSafe(cfg, s, e.key, e.response);
    } else {
      OthersLeaveBatch(cfg, s, e);
    }
  }

  lemma {:induction false} RunStaleSafe(cfg: Config, s: Sys, events: seq<Event>)
    requires Inv(cfg, s) && s.fault == NoFault && s.dc.welcome && StaleSafe(s.dc, s.rq, s.rest.counter)
    requires Valid(cfg, s, events) && InSession(events)
    ensures Run(cfg, s, events).fault != UnexpectedStale
    decreases |events|
  {
    if events != [] {
      var t := Step(cfg, s, events[0]);
      assert events[0] in events && forall e | e in events[1..] :: e in events;
      StepKeeps(cfg, s, events[0]);
      StepStaleSafe(cfg, s, events[0]);
      StepProgress(cfg, s, events[0]);
      if t.fault == NoFault {
        RunStaleSafe(cfg, t, events[1..]);
      } else {
        FaultStays(cfg, t, events[1..]);
      }
    }
  }

  /** A session that finds the stale slot idle when the welcome arrives never runs into the
      fatal check, whatever happens until it disconnects. */
  lemma CleanSessionNeverFatal(cfg: Config, s: Sys, events: seq<Event>)
    requires Reachable(cfg, s) && s.fault == NoFault && s.rq.staleOrders.Idle()
    requires Valid(cfg, s, [Welcome] + events) && InSession(events)
    ensures Run(cfg, s, [Welcome] + events).fault != UnexpectedStale
  {
    JointInvariant(cfg, s);
    var a := Acct(s.dc, s.rq, s.fault);
    var all := [Welcome] + events;
    assert all[0] == Welcome && all[1..] == events;
    StepKeeps(cfg, s, Welcome);
    OnWelcomeKeeps(cfg, a);
    ClimbLands(cfg, a.(dc := a.dc.(welcome := true)), SUBSCRIBE_BALANCES);
    ClimbShape(cfg, a.(dc := a.dc.(welcome := true)), SUBSCRIBE_BALANCES);
    RunStaleSafe(cfg, Step(cfg, s, Welcome), events);
  }

  /** What makes the fatal check reachable once a batch waits in GET_STALE_ORDERS: a
      response nobody consumed, or an earlier batch that still expects answers. */
  predicate Endangered(s: Sys) {
    s.rq.staleOrders.response || s.rest.counter > 0
  }

  lemma TickIsFatal(cfg: Config, s: Sys, now: int)
    requires s.fault == NoFault && s.dc.phase == UPGRADED
    requires s.dc.ladder == GET_STALE_ORDERS && s.rq.details != {} && s.rq.staleOrders.response
    ensures Step(cfg, s, Timer(now, [])).fault == UnexpectedStale
  {
    QueueFault(cfg, Acct(s.dc, s.rq, s.fault), []);
    StepTimer(cfg, s, now, []);
  }

  ghost predicate GetsFatal(cfg: Config, s: Sys, events: seq<Event>) {
    Valid(cfg, s, events) && InSession(events) && Run(cfg, s, events).fault == UnexpectedStale
  }

  /** The run that gets there: the outstanding answers arrive, then the stream polls. */
  lemma {:induction false} DoomRun(cfg: Config, s: Sys, now: int) returns (events: seq<Event>)
    requires Inv(cfg, s) && s.fault == NoFault
    requires s.dc.ladder == GET_STALE_ORDERS && s.rq.details != {} && Endangered(s)
    ensures GetsFatal(cfg, s, events) && Tame(events, now)
    decreases s.rest.counter
  {
    if s.rq.staleOrders.response {
      events := [Timer(now, [])];
      TickIsFatal(cfg, s, now);
      RunOne(cfg, s, Timer(now, []));
    } else {
      var key :| key in s.rest.orders;
      var e, t := AnswerTowardsDoom(cfg, s, key);
      var rest := DoomRun(cfg, t, now);
      events := [e] + rest;
      assert events[0] == e && events[1..] == rest;
    }
  }

  lemma AnswerTowardsDoom(cfg: Config, s: Sys, key: Key) returns (e: Event, t: Sys)
    requires Inv(cfg, s) && s.fault == NoFault && s.rq.details != {} && key in s.rest.orders
    ensures e == OrderAnswer(key, NetworkFailure) && Enabled(s, e) && t == Step(cfg, s, e)
    ensures Inv(cfg, t) && t.fault == NoFault && t.dc == s.dc && t.rq.details == s.rq.details
    ensures t.rest.counter == s.rest.counter - 1 && Endangered(t)
  {
    e := OrderAnswer(key, NetworkFailure);
    t := Step(cfg, s, e);
    StepKeeps(cfg, s, e);
    BatchReleases(cfg, s, key, NetworkFailure);
  }

  lemma RunOne(cfg: Config, s: Sys, e: Event)
    ensures Run(cfg, s, [e]) == Step(cfg, s, e)
    ensures Valid(cfg, s, [e]) <==> Enabled(s, e)
  {
  }

  /** Exactly when a batch waiting in GET_STALE_ORDERS can take the process down before the
      session disconnects; it then can at once, with no time passing. */
  lemma FatalCheckExact(cfg: Config, s: Sys, now: int)
    requires Reachable(cfg, s) && s.fault == NoFault
    requires s.dc.ladder == GET_STALE_ORDERS && s.rq.details != {}
    ensures Endangered(s) <==> exists events :: GetsFatal(cfg, s, events)
    ensures Endangered(s) ==> exists events :: GetsFatal(cfg, s, events) && Tame(events, now)
  {
    JointInvariant(cfg, s);
    if Endangered(s) {
      var events := DoomRun(cfg, s, now);
    } else {
      forall events | Valid(cfg, s, events) && InSession(events)
        ensures Run(cfg, s, events).fault != UnexpectedStale
      {
        RunStaleSafe(cfg, s, events);
      }
    }
  }

  // ---- a batch of unknown orders

  /** The stale slot is in flight and nothing on the wire will ever free it. */
  predicate Wedged(s: Sys) { s.fault == NoFault && s.rq.staleOrders.inFlight && s.rest.counter == 0 }

  /** Handing over a batch wedges the account exactly when none of its orders is known. */
  lemma UnknownBatchWedges(cfg: Config, s: Sys, grants: set<Kind>, known: set<Key>)
    requires Inv(cfg, s) && s.fault == NoFault && !s.rq.staleOrders.inFlight
    ensures var t := Step(cfg, s, RestTimer(grants, known));
      t.rq.staleOrders.inFlight ==>
        && s.rq.details != {}
        && t.rest.counter == |s.rq.details * known|
        && (Wedged(t) <==> s.rq.details !! known)
  {
    var x := Side(s.rest, s.rq, s.fault);
    TickStartsOne(cfg, x, grants, known);
    match Chosen(cfg, x, grants) {
      case None =>
      case Some(k) => StartStale(x, k, known);
    }
  }

  lemma StartStale(x: Side, k: Kind, known: set<Key>)
    requires !x.rq.staleOrders.inFlight && x.rest.counter == 0
    ensures var y := Start(x, k, known);
      if k == STALE_ORDERS
      then y.rest.counter == |x.rq.details * known| && (y.rest.counter == 0 <==> x.rq.details !! known)
      else !y.rq.staleOrders.inFlight
  {
    EmptyIntersection(x.rq.details, known);
  }

  lemma EmptyIntersection(xs: set<Key>, ys: set<Key>)
    ensures xs !! ys <==> |xs * ys| == 0
  {
  }

  /** The requests a wedged account can no longer make. */
  predicate Frozen(s: Sys, t: Sys) {
    && t.rest.dispatched == s.rest.dispatched
    && t.rest.sent[BALANCES] == s.rest.sent[BALANCES]
    && t.rest.sent[POSITIONS] == s.rest.sent[POSITIONS]
    && t.rest.sent[OPEN_ORDERS] == s.rest.sent[OPEN_ORDERS]
    && t.rest.sent[TRADES] == s.rest.sent[TRADES]
    && (t.rq.balances.response ==> s.rq.balances.response)
    && (t.rq.positions.response ==> s.rq.positions.response)
    && (t.rq.openOrders.response ==> s.rq.openOrders.response)
    && (s.rest.hasToken && !s.rest.downloading ==>
          t.rest.hasToken && !t.rest.downloading && t.rest.sent[TOKEN] == s.rest.sent[TOKEN])
  }

  ghost predicate StaysWedged(s: Sys, t: Sys) { Frozen(s, t) && (t.fault == NoFault ==> Wedged(t)) }

  lemma StreamWedged(cfg: Config, s: Sys, e: Event)
    requires Wedged(s) && Streamed(e)
    ensures StaysWedged(s, Step(cfg, s, e))
  {
    StreamTicks(cfg, s, e);
  }

  lemma TickWedged(cfg: Config, s: Sys, grants: set<Kind>, known: set<Key>)
    requires Wedged(s)
    ensures StaysWedged(s, Step(cfg, s, RestTimer(grants, known)))
  {
    TickStartsOne(cfg, Side(s.rest, s.rq, s.fault), grants, known);
  }

  /** No plain download and no order detail is on the wire, only a token may be. */
  lemma NoAnswers(cfg: Config, s: Sys, e: Event)
    requires Inv(cfg, s) && Wedged(s) && Enabled(s, e)
    ensures !e.Answer? && !e.OrderAnswer?
  {
  }

  lemma RestWedged(cfg: Config, s: Sys, e: Event)
    requires Wedged(s) && (e.TokenAnswer? || e.RestConnected? || e.RestDisconnected? || (e.RestRetry? && s.rest.downloading))
    ensures StaysWedged(s, Step(cfg, s, e))
  {
  }

  lemma StepWedged(cfg: Config, s: Sys, e: Event)
    requires Inv(cfg, s) && Wedged(s) && Enabled(s, e)
    ensures Frozen(s, Step(cfg, s, e))
    ensures Step(cfg, s, e).fault == NoFault ==> Wedged(Step(cfg, s, e))
  {
    if Streamed(e) {
      StreamWedged(cfg, s, e);
    } else if e.RestTimer? {
      TickWedged(cfg, s, e.grants, e.known);
    } else {
      NoAnswers(cfg, s, e);
      RestWedged(cfg, s, e);
    }
  }

  /** A wedged account stays wedged through every continuation, reconnects included: no
      download, no stale order and, once the first token is there, no token is ever
      requested again. */
  lemma {:induction false} WedgedForever(cfg: Config, s: Sys, events: seq<Event>)
    requires Inv(cfg, s) && Wedged(s) && Valid(cfg, s, events)
    ensures Frozen(s, Run(cfg, s, events))
    ensures Run(cfg, s, events).fault == NoFault ==> Wedged(Run(cfg, s, events))
    decreases |events|
  {
    if events != [] {
      var t := Step(cfg, s, events[0]);
      StepKeeps(cfg, s, events[0]);
      StepWedged(cfg, s, events[0]);
      if t.fault == NoFault {
        WedgedForever(cfg, t, events[1..]);
      } else {
        FaultStays(cfg, t, events[1..]);
      }
    }
  }
}
