/** Which accounts can be brought to READY: any master account that is not wedged, even if
    every download fails, and a wedged one exactly by the responses it has left. */
module AccountReady {
  import opened AccountTypes
  import opened Wrappers
  import opened AccountSpec
  import opened AccountInvariant
  import opened AccountSteps
  import opened AccountLadder
  import opened AccountEffects
  import opened AccountStale
  import opened AccountSession
  import opened AccountScript
  import opened AccountSends

  // ---- a batch waits only with its slot pending

  predicate Queued(s: Sys) { s.fault == NoFault && s.rq.details != {} ==> s.rq.staleOrders.pending }

  lemma QueueQueued(cfg: Config, a: Acct, orders: seq<Key>)
    requires a.fault == NoFault && (a.rq.details != {} ==> a.rq.staleOrders.pending)
    ensures var b := CheckRequestQueue(cfg, a, orders);
      b.fault == NoFault && b.rq.details != {} ==> b.rq.staleOrders.pending
  {
    if a.dc.ladder == GET_OPEN_ORDERS {
      OpenOrdersQueued(cfg, a, orders);
    } else {
      QueueTicks(cfg, a, orders);
      QueueDetails(cfg, a, orders);
    }
  }

  /** The scan comes before the ladder moves on, which asks for what it found. */
  lemma OpenOrdersQueued(cfg: Config, a: Acct, orders: seq<Key>)
    requires a.dc.ladder == GET_OPEN_ORDERS && (a.rq.details != {} ==> a.rq.staleOrders.pending)
    ensures var b := CheckRequestQueue(cfg, a, orders); b.rq.details != {} ==> b.rq.staleOrders.pending
  {
    if a.rq.openOrders.response {
      var rq := a.rq.(openOrders := a.rq.openOrders.Consume()).Scan(orders);
      AsksForFound(cfg, a.(rq := rq));
    }
  }

  lemma AsksForFound(cfg: Config, a: Acct)
    requires a.dc.ladder == GET_OPEN_ORDERS
    ensures var b := Check(cfg, a, GET_OPEN_ORDERS); b.rq.details != {} ==> b.rq.staleOrders.pending
  {
    CheckLands(cfg, a, GET_OPEN_ORDERS);
  }

  lemma QueueDetails(cfg: Config, a: Acct, orders: seq<Key>)
    requires a.dc.ladder != GET_OPEN_ORDERS
    ensures CheckRequestQueue(cfg, a, orders).rq.details == a.rq.details
  {
    var s := a.dc.ladder;
    if IsGet(s) && a.rq.Get(KindOf(s)).response {
      CheckRequests(cfg, a.(rq := a.rq.Put(KindOf(s), a.rq.Get(KindOf(s)).Consume())), s);
    }
  }

  lemma ReadyQueued(cfg: Config, a: Acct, now: int, orders: seq<Key>)
    requires a.rq.details != {} ==> a.rq.staleOrders.pending
    ensures var b := WhenReady(cfg, a, now, orders); b.rq.details != {} ==> b.rq.staleOrders.pending
  {
  }

  lemma PollQueued(cfg: Config, s: Sys, now: int, orders: seq<Key>)
    requires Queued(s) && s.fault == NoFault
    ensures Queued(Step(cfg, s, Timer(now, orders)))
  {
    var a := Acct(s.dc, s.rq, s.fault);
    var b := CheckRequestQueue(cfg, a, orders);
    StepTimer(cfg, s, now, orders);
    QueueQueued(cfg, a, orders);
    if b.fault == NoFault {
      ReadyQueued(cfg, b, now, orders);
    }
  }

  lemma TickQueued(cfg: Config, s: Sys, grants: set<Kind>, known: set<Key>)
    requires Queued(s) && s.fault == NoFault
    ensures Queued(Step(cfg, s, RestTimer(grants, known)))
  {
    TickStartsOne(cfg, Side(s.rest, s.rq, s.fault), grants, known);
  }

  lemma RestQueued(cfg: Config, s: Sys, e: Event)
    requires Queued(s) && s.fault == NoFault && !Streamed(e) && !e.RestTimer?
    ensures Queued(Step(cfg, s, e))
  {
  }

  lemma StepQueued(cfg: Config, s: Sys, e: Event)
    requires Queued(s)
    ensures Queued(Step(cfg, s, e))
  {
    if s.fault == NoFault {
      if e.Timer? {
        PollQueued(cfg, s, e.now, e.orders);
      } else if e.RestTimer? {
        TickQueued(cfg, s, e.grants, e.known);
      } else if Streamed(e) {
        StreamTicks(cfg, s, e);
      } else {
        RestQueued(cfg, s, e);
      }
    }
  }

  lemma {:induction false} RunQueued(cfg: Config, s: Sys, events: seq<Event>)
    requires Queued(s)
    ensures Queued(Run(cfg, s, events))
    decreases |events|
  {
    if events != [] {
      StepQueued(cfg, s, events[0]);
      RunQueued(cfg, Step(cfg, s, events[0]), events[1..]);
    }
  }

  lemma ReachableQueued(cfg: Config, s: Sys)
    requires Reachable(cfg, s)
    ensures Queued(s)
  {
    var events :| Valid(cfg, INIT, events) && Run(cfg, INIT, events) == s;
    RunQueued(cfg, INIT, events);
  }

  // ---- from the welcome

  /** Where a session starts once everything on the wire is answered. */
  predicate Started(s: Sys, t: Sys) {
    Poised(t) && AtRung(t, SUBSCRIBE_BALANCES) && t.rq == Landed(s.rq) && t.rest.sent == s.rest.sent
  }

  lemma FromWelcome(cfg: Config, s: Sys, now: int) returns (t: Sys)
    requires Reachable(cfg, s) && s.fault == NoFault && !Wedged(s) && Enabled(s, Welcome)
    ensures Reaches(cfg, Step(cfg, s, Welcome), t, true, now) && Inv(cfg, t) && Queued(t) && Started(s, t)
    ensures t.rest.hasToken && !t.rest.downloading
  {
    JointInvariant(cfg, s);
    ReachableQueued(cfg, s);
    TokenThere(cfg, s);
    var w := Step(cfg, s, Welcome);
    StepKeeps(cfg, s, Welcome);
    WelcomeRung(cfg, s);
    ReachesSelf(cfg, w, true, now);
    var u := Settle(cfg, w, w, true, now);
    t := Connect(cfg, w, u, true, now);
  }

  /** A batch with every order known goes out. */
  lemma BatchSent(cfg: Config, s: Sys)
    requires cfg.master && Poised(s) && s.rq.staleOrders.pending && s.rq.details != {} && s.rest.counter == 0
    ensures var t := Step(cfg, s, RestTimer({STALE_ORDERS}, s.rq.details));
      && t.fault == NoFault && t.dc == s.dc && t.rest.counter > 0 && t.rest.sent == s.rest.sent
      && t.rest.hasToken == s.rest.hasToken && t.rest.downloading == s.rest.downloading
      && t.rq == s.rq.(staleOrders := s.rq.staleOrders.Start(), details := {})
  {
    StartsOnly(cfg, s, STALE_ORDERS, s.rq.details);
    assert s.rq.details * s.rq.details == s.rq.details;
  }

  /** And is answered. */
  lemma HandOverBatch(cfg: Config, r: Sys, s: Sys, now: int) returns (t: Sys)
    requires cfg.master && Inv(cfg, s) && Poised(s) && s.rq.staleOrders.pending && s.rest.hasToken && !s.rest.downloading
    requires Reaches(cfg, r, s, true, now)
    ensures Reaches(cfg, r, t, true, now) && Poised(t) && t.dc == s.dc
    ensures t.rq == s.rq.(staleOrders := Slot(false, false, true), details := {}) && t.rest.sent == s.rest.sent
  {
    var e := RestTimer({STALE_ORDERS}, s.rq.details);
    NothingOut(s.rest, s.rq);
    BatchSent(cfg, s);
    var u := Step(cfg, s, e);
    StepKeeps(cfg, s, e);
    ReachesStep(cfg, r, s, e, true, now);
    var v := Settle(cfg, r, u, true, now);
    LandedBatch(s.rq);
    t := Connect(cfg, r, v, true, now);
  }

  lemma NothingOut(rest: RestState, rq: Requests)
    requires WireOk(rest, rq) && rq.Ready() && rq.staleOrders.pending
    ensures rest.counter == 0 && rq.details != {}
  {
  }

  lemma LandedBatch(rq: Requests)
    requires rq.Ready()
    ensures Landed(rq.(staleOrders := rq.staleOrders.Start(), details := {}))
      == rq.(staleOrders := Slot(false, false, true), details := {})
  {
  }

  // ---- to READY

  function Unanswered(rq: Requests): set<Kind> {
    (if rq.balances.response then {} else {BALANCES})
    + (if rq.positions.response then {} else {POSITIONS})
    + (if rq.openOrders.response then {} else {OPEN_ORDERS})
  }

  /** One more request exactly for these downloads. */
  predicate SentMore(s: Sys, t: Sys, send: set<Kind>) {
    && t.rest.sent[BALANCES] == s.rest.sent[BALANCES] + One(BALANCES in send)
    && t.rest.sent[POSITIONS] == s.rest.sent[POSITIONS] + One(POSITIONS in send)
    && t.rest.sent[OPEN_ORDERS] == s.rest.sent[OPEN_ORDERS] + One(OPEN_ORDERS in send)
  }

  /** With no batch waiting the session gets to READY, with requests for these downloads and
      with the responses that are there for the others. */
  lemma ToReady(cfg: Config, r: Sys, s: Sys, send: set<Kind>, now: int) returns (t: Sys)
    requires cfg.master && Poised(s) && AtRung(s, SUBSCRIBE_BALANCES) && s.rq.details == {} && Unanswered(s.rq) <= send
    requires Reaches(cfg, r, s, true, now)
    ensures Reaches(cfg, r, t, true, now) && t.fault == NoFault && t.dc.status == READY
    ensures SentMore(s, t, send)
  {
    ScanNothing(s.rq);
    ScanNothing(Downloaded(s.rq, send));
    var u := Rungs(cfg, r, s, [], send, true, now);
    t := LastRung(cfg, r, u, true, now);
  }

  /** Any master account that is not wedged can be brought to READY in the session a welcome
      opens, even if every single download is answered by a failure. */
  lemma CanBecomeReady(cfg: Config, s: Sys, now: int) returns (events: seq<Event>)
    requires Reachable(cfg, s) && s.fault == NoFault && cfg.master && !Wedged(s) && Enabled(s, Welcome)
    ensures Valid(cfg, s, [Welcome] + events) && InSession(events) && Tame(events, now)
    ensures Run(cfg, s, [Welcome] + events).fault == NoFault && Run(cfg, s, [Welcome] + events).dc.status == READY
  {
    var w := Step(cfg, s, Welcome);
    var u := FromWelcome(cfg, s, now);
    if u.rq.details != {} {
      u := HandOverBatch(cfg, w, u, now);
    }
    var t := ToReady(cfg, w, u, Unanswered(u.rq), now);
    events := WelcomedRun(cfg, s, t, now);
  }

  // ---- a wedged account

  /** The responses a session still needs are there. */
  predicate Open(cfg: Config, ladder: State, rq: Requests) {
    && (Index(ladder) <= Index(GET_BALANCES) ==> rq.balances.response)
    && (Index(ladder) <= Index(GET_POSITIONS) ==> rq.positions.response)
    && (Index(ladder) <= Index(GET_OPEN_ORDERS) ==> rq.openOrders.response)
    && (Index(ladder) <= Index(GET_STALE_ORDERS) ==> rq.details == {})
    && (ladder == GET_STALE_ORDERS ==> rq.staleOrders.response)
    && (ladder == GET_TRADES || (cfg.tradesLookback && Index(ladder) < Index(GET_TRADES)) ==> rq.trades.response)
  }

  /** Those of the current session, or those of a new one. */
  predicate CanFinish(cfg: Config, s: Sys) { Open(cfg, s.dc.ladder, s.rq) || Open(cfg, UNDEFINED, s.rq) }

  /** One answer that is already there moves the ladder on. */
  lemma FinishStep(cfg: Config, r: Sys, s: Sys, stay: bool, now: int) returns (t: Sys)
    requires Inv(cfg, s) && s.fault == NoFault && s.dc.welcome && Active(s.dc.ladder) && Open(cfg, s.dc.ladder, s.rq)
    requires Reaches(cfg, r, s, stay, now)
    ensures Reaches(cfg, r, t, stay, now) && Inv(cfg, t) && t.fault == NoFault && t.dc.welcome
    ensures Index(t.dc.ladder) > Index(s.dc.ladder) && Open(cfg, t.dc.ladder, t.rq)
  {
    var e := if IsSubscribe(s.dc.ladder) then Ack(Some(s.dc.ladder)) else Timer(now, []);
    t := Step(cfg, s, e);
    if IsSubscribe(s.dc.ladder) {
      SubscribedHere(cfg, s.dc);
      AckOpen(cfg, s);
    } else {
      OpenResponse(cfg, s.dc.ladder, s.rq);
      PollOpen(cfg, s, now);
    }
    StepKeeps(cfg, s, e);
    ReachesStep(cfg, r, s, e, stay, now);
    StepProgress(cfg, s, e);
  }

  lemma SubscribedHere(cfg: Config, dc: DropCopyState)
    requires StreamOk(cfg, dc) && IsSubscribe(dc.ladder)
    ensures Subscribed(dc.ladder) in dc.trace
  {
    var skips: set<State> :| SkipsOk(cfg, skips) && dc.trace == Transcript(dc.ladder, skips);
    assert Block(dc.ladder)[1] == Subscribed(dc.ladder);
  }

  lemma OpenResponse(cfg: Config, ladder: State, rq: Requests)
    requires Open(cfg, ladder, rq) && IsGet(ladder)
    ensures rq.Get(KindOf(ladder)).response
  {
  }

  lemma AckOpen(cfg: Config, s: Sys)
    requires StreamOk(cfg, s.dc) && s.fault == NoFault && IsSubscribe(s.dc.ladder) && Open(cfg, s.dc.ladder, s.rq)
    ensures var t := Step(cfg, s, Ack(Some(s.dc.ladder))); t.fault == NoFault && Open(cfg, t.dc.ladder, t.rq)
  {
    var a := Acct(s.dc, s.rq, s.fault);
    StepAck(cfg, s, s.dc.ladder);
    CheckKeeps(cfg, a, s.dc.ladder);
    CheckOpen(cfg, a);
  }

  lemma CheckOpen(cfg: Config, a: Acct)
    requires IsSubscribe(a.dc.ladder) && Open(cfg, a.dc.ladder, a.rq)
    ensures var b := Check(cfg, a, a.dc.ladder); Open(cfg, b.dc.ladder, b.rq)
  {
    CheckLands(cfg, a, a.dc.ladder);
    match a.dc.ladder {
      case SUBSCRIBE_BALANCES =>
      case SUBSCRIBE_POSITIONS =>
      case SUBSCRIBE_ORDERS =>
      case SUBSCRIBE_TRADES =>
    }
  }

  lemma PollOpen(cfg: Config, s: Sys, now: int)
    requires Inv(cfg, s) && s.fault == NoFault && s.dc.phase == UPGRADED
    requires IsGet(s.dc.ladder) && s.rq.Get(KindOf(s.dc.ladder)).response && Open(cfg, s.dc.ladder, s.rq)
    ensures var t := Step(cfg, s, Timer(now, [])); t.fault == NoFault && Open(cfg, t.dc.ladder, t.rq)
  {
    var a := Acct(s.dc, s.rq, s.fault);
    var b := CheckRequestQueue(cfg, a, []);
    StepTimer(cfg, s, now, []);
    QueueOpen(cfg, a);
    QueueFault(cfg, a, []);
    CheckRequestQueueKeeps(cfg, s.rest, a, []);
    TimerOpen(cfg, a, now);
  }

  /** The rest of the tick runs only when the ladder is done. */
  lemma TimerOpen(cfg: Config, a: Acct, now: int)
    requires var b := CheckRequestQueue(cfg, a, []); StreamOk(cfg, b.dc) && b.fault == NoFault && Open(cfg, b.dc.ladder, b.rq)
    requires a.dc.phase == UPGRADED
    ensures var c := OnTimer(cfg, a, now, []); c.fault == NoFault && Open(cfg, c.dc.ladder, c.rq)
  {
    var b := CheckRequestQueue(cfg, a, []);
    if b.dc.status == READY {
      WhenReadyStream(cfg, b, now, []);
      OpenDone(cfg, OnTimer(cfg, a, now, []).rq);
    }
  }

  lemma OpenDone(cfg: Config, rq: Requests)
    ensures Open(cfg, DONE, rq)
  {
  }

  lemma QueueOpen(cfg: Config, a: Acct)
    requires IsGet(a.dc.ladder) && a.rq.Get(KindOf(a.dc.ladder)).response && Open(cfg, a.dc.ladder, a.rq) && a.fault == NoFault
    ensures var b := CheckRequestQueue(cfg, a, []); Open(cfg, b.dc.ladder, b.rq)
  {
    var s := a.dc.ladder;
    var rq := a.rq.Put(KindOf(s), a.rq.Get(KindOf(s)).Consume());
    ScanNothing(rq);
    var b := CheckRequestQueue(cfg, a, []);
    assert b == Check(cfg, a.(rq := rq), s);
    CheckLands(cfg, a.(rq := rq), s);
    if s == GET_TRADES {
      OpenDone(cfg, b.rq);
    } else {
      OpenBehind(cfg, s, a.rq, rq);
    }
  }

  lemma ScanNothing(rq: Requests)
    ensures rq.Scan([]) == rq
  {
    assert rq.New([]) == {};
  }

  /** Behind a download its own response is no longer needed. */
  lemma OpenBehind(cfg: Config, s: State, rq: Requests, rq': Requests)
    requires IsGet(s) && s != GET_TRADES && Open(cfg, s, rq) && rq' == rq.Put(KindOf(s), rq.Get(KindOf(s)).Consume())
    ensures var t := Landing(cfg, rq', Next(s));
      Open(cfg, t, if IsGet(t) then rq'.Put(KindOf(t), rq'.Get(KindOf(t)).Request()) else rq')
  {
  }

  /** All that is needed is there. */
  lemma {:induction false} FinishFrom(cfg: Config, r: Sys, s: Sys, stay: bool, now: int) returns (t: Sys)
    requires Inv(cfg, s) && s.fault == NoFault && s.dc.welcome && Open(cfg, s.dc.ladder, s.rq) && Reaches(cfg, r, s, stay, now)
    ensures Reaches(cfg, r, t, stay, now) && t.fault == NoFault && t.dc.status == READY
    decreases 10 - Index(s.dc.ladder)
  {
    if s.dc.ladder == DONE {
      t := s;
    } else {
      var u := FinishStep(cfg, r, s, stay, now);
      t := FinishFrom(cfg, r, u, stay, now);
    }
  }

  /** A new session, after a disconnect if there is one already. */
  lemma Restart(cfg: Config, s: Sys, now: int) returns (t: Sys)
    requires Inv(cfg, s) && s.fault == NoFault && s.dc.created
    ensures Reaches(cfg, s, t, false, now) && Inv(cfg, t) && t.fault == NoFault && t.rq == s.rq
    ensures t.dc.welcome && t.dc.ladder == SUBSCRIBE_BALANCES
  {
    ReachesSelf(cfg, s, false, now);
    var u := s;
    if u.dc.phase != CLOSED {
      u := Step(cfg, u, Disconnected);
      StepKeeps(cfg, s, Disconnected);
      ReachesStep(cfg, s, s, Disconnected, false, now);
    }
    t := OpenSession(cfg, s, u, now);
  }

  lemma OpenSession(cfg: Config, r: Sys, s: Sys, now: int) returns (t: Sys)
    requires Inv(cfg, s) && s.fault == NoFault && s.dc.created && s.dc.phase == CLOSED && Reaches(cfg, r, s, false, now)
    ensures Reaches(cfg, r, t, false, now) && Inv(cfg, t) && t.fault == NoFault && t.rq == s.rq
    ensures t.dc.welcome && t.dc.ladder == SUBSCRIBE_BALANCES
  {
    var u := Step(cfg, s, Connected(now));
    StepKeeps(cfg, s, Connected(now));
    ReachesStep(cfg, r, s, Connected(now), false, now);
    var v := Step(cfg, u, Upgraded);
    StepKeeps(cfg, u, Upgraded);
    ReachesStep(cfg, r, u, Upgraded, false, now);
    t := Step(cfg, v, Welcome);
    StepKeeps(cfg, v, Welcome);
    ReachesStep(cfg, r, v, Welcome, false, now);
    WelcomeEnters(cfg, v);
  }

  // ---- and nothing can be added

  lemma OpenShrinks(cfg: Config, ladder: State, rq: Requests, rq': Requests)
    requires Ticked(rq, rq') && Open(cfg, ladder, rq')
    ensures Open(cfg, ladder, rq)
  {
  }

  lemma AckBack(cfg: Config, a: Acct, id: State)
    requires IsSubscribe(id) && Open(cfg, Check(cfg, a, id).dc.ladder, Check(cfg, a, id).rq)
    ensures Open(cfg, a.dc.ladder, a.rq)
  {
    if id == a.dc.ladder {
      CheckLands(cfg, a, id);
      match id {
        case SUBSCRIBE_BALANCES =>
        case SUBSCRIBE_POSITIONS =>
        case SUBSCRIBE_ORDERS =>
        case SUBSCRIBE_TRADES =>
      }
    }
  }

  /** The slots once the response the ladder waits for is taken. */
  function Polled(rq: Requests, s: State, orders: seq<Key>): Requests {
    var rq' := rq.Put(KindOf(s), rq.Get(KindOf(s)).Consume());
    if s == GET_OPEN_ORDERS then rq'.Scan(orders) else rq'
  }

  lemma QueueChecks(cfg: Config, a: Acct, orders: seq<Key>)
    requires a.fault == NoFault && IsGet(a.dc.ladder) && a.rq.Get(KindOf(a.dc.ladder)).response
    ensures a.dc.ladder == GET_STALE_ORDERS && a.rq.details != {} ==> CheckRequestQueue(cfg, a, orders).fault == UnexpectedStale
    ensures !(a.dc.ladder == GET_STALE_ORDERS && a.rq.details != {}) ==>
      CheckRequestQueue(cfg, a, orders) == Check(cfg, a.(rq := Polled(a.rq, a.dc.ladder, orders)), a.dc.ladder)
  {
  }

  lemma QueueBack(cfg: Config, a: Acct, orders: seq<Key>)
    requires a.fault == NoFault
    requires var b := CheckRequestQueue(cfg, a, orders); b.fault == NoFault && Open(cfg, b.dc.ladder, b.rq)
    ensures Open(cfg, a.dc.ladder, a.rq)
  {
    var s := a.dc.ladder;
    if IsGet(s) && a.rq.Get(KindOf(s)).response {
      QueueChecks(cfg, a, orders);
      CheckBack(cfg, a.(rq := Polled(a.rq, s, orders)), s, a.rq);
    }
  }

  lemma CheckBack(cfg: Config, a: Acct, s: State, rq: Requests)
    requires s == a.dc.ladder && IsGet(s) && rq.Get(KindOf(s)).response && (s == GET_STALE_ORDERS ==> rq.details == {})
    requires a.rq == rq.Put(KindOf(s), rq.Get(KindOf(s)).Consume()).(details := a.rq.details, inserted := a.rq.inserted)
    requires rq.details <= a.rq.details
    requires var b := Check(cfg, a, s); Open(cfg, b.dc.ladder, b.rq)
    ensures Open(cfg, s, rq)
  {
    CheckLands(cfg, a, s);
    LandedBack(cfg, s, rq, a.rq);
  }

  /** What is needed behind a download was there before it. */
  lemma LandedBack(cfg: Config, s: State, rq: Requests, rq1: Requests)
    requires IsGet(s) && rq.Get(KindOf(s)).response && (s == GET_STALE_ORDERS ==> rq.details == {})
    requires var rq' := rq.Put(KindOf(s), rq.Get(KindOf(s)).Consume());
      rq1 == rq'.(details := rq1.details, inserted := rq1.inserted) && rq.details <= rq1.details
    requires var t := Landing(cfg, rq1, Next(s));
      Open(cfg, t, if IsGet(t) then rq1.Put(KindOf(t), rq1.Get(KindOf(t)).Request()) else rq1)
    ensures Open(cfg, s, rq)
  {
    match s {
      case GET_BALANCES =>
      case GET_POSITIONS =>
      case GET_OPEN_ORDERS =>
      case GET_STALE_ORDERS =>
      case GET_TRADES =>
    }
  }

  lemma PollBack(cfg: Config, s: Sys, now: int, orders: seq<Key>)
    requires s.fault == NoFault
    requires var t := Step(cfg, s, Timer(now, orders)); t.fault == NoFault && Open(cfg, t.dc.ladder, t.rq)
    ensures Open(cfg, s.dc.ladder, s.rq)
  {
    var a := Acct(s.dc, s.rq, s.fault);
    StepTimer(cfg, s, now, orders);
    if a.dc.phase == UPGRADED {
      var b := CheckRequestQueue(cfg, a, orders);
      WhenReadyStream(cfg, b, now, orders);
      ReadyTicks(cfg, b, now, orders);
      if b.fault == NoFault && b.dc.status == READY {
        OpenShrinks(cfg, b.dc.ladder, b.rq, WhenReady(cfg, b, now, orders).rq);
      }
      QueueBack(cfg, a, orders);
    }
  }

  lemma StreamBack(cfg: Config, s: Sys, e: Event)
    requires Inv(cfg, s) && s.fault == NoFault && Streamed(e) && Enabled(s, e)
    requires Step(cfg, s, e).fault == NoFault && CanFinish(cfg, Step(cfg, s, e))
    ensures CanFinish(cfg, s)
  {
    var t := Step(cfg, s, e);
    StreamTicks(cfg, s, e);
    if Open(cfg, UNDEFINED, t.rq) {
      OpenShrinks(cfg, UNDEFINED, s.rq, t.rq);
    } else if e.Welcome? {
      WelcomeEnters(cfg, s);
    } else if e.Ack? && e.id.Some? {
      StepAck(cfg, s, e.id.value);
      AckedIds(cfg, s.dc, e.id.value);
      AckBack(cfg, Acct(s.dc, s.rq, s.fault), e.id.value);
    } else if e.Timer? {
      PollBack(cfg, s, e.now, e.orders);
    } else {
      SocketLadder(cfg, s, e);
      OpenShrinks(cfg, s.dc.ladder, s.rq, t.rq);
    }
  }

  lemma SocketLadder(cfg: Config, s: Sys, e: Event)
    requires e.Connected? || e.Upgraded? || e.TokenExpired? || e.Disconnected? || (e.Ack? && e.id == None)
    ensures Step(cfg, s, e).dc.ladder == s.dc.ladder || Step(cfg, s, e).dc.ladder == UNDEFINED
  {
  }

  /** Of the REST stream's events only a token's answer is left, and it changes none of this. */
  lemma RestBack(cfg: Config, s: Sys, e: Event)
    requires Inv(cfg, s) && Wedged(s) && s.dc.created && !Streamed(e) && Enabled(s, e)
    requires Step(cfg, s, e).fault == NoFault && CanFinish(cfg, Step(cfg, s, e))
    ensures CanFinish(cfg, s)
  {
    NoAnswers(cfg, s, e);
    if e.RestTimer? {
      TickStartsOne(cfg, Side(s.rest, s.rq, s.fault), e.grants, e.known);
    } else {
      TokenLeaves(cfg, s, e);
    }
  }

  lemma TokenLeaves(cfg: Config, s: Sys, e: Event)
    requires s.fault == NoFault && s.dc.created && (e.TokenAnswer? || e.RestConnected? || e.RestDisconnected? || e.RestRetry?)
    ensures var t := Step(cfg, s, e); t.dc.ladder == s.dc.ladder && t.rq == s.rq.(token := t.rq.token)
  {
  }

  lemma {:induction false} RunBack(cfg: Config, s: Sys, events: seq<Event>)
    requires Inv(cfg, s) && Wedged(s) && s.dc.created && Valid(cfg, s, events)
    requires Run(cfg, s, events).fault == NoFault && CanFinish(cfg, Run(cfg, s, events))
    ensures CanFinish(cfg, s)
    decreases |events|
  {
    if events != [] {
      var e, t := events[0], Step(cfg, s, events[0]);
      StepKeeps(cfg, s, e);
      FaultStays(cfg, t, events[1..]);
      StepWedged(cfg, s, e);
      CreatedStays(cfg, s, e);
      RunBack(cfg, t, events[1..]);
      if Streamed(e) {
        StreamBack(cfg, s, e);
      } else {
        RestBack(cfg, s, e);
      }
    }
  }

  ghost predicate GetsReady(cfg: Config, s: Sys, events: seq<Event>) {
    Valid(cfg, s, events) && Run(cfg, s, events).fault == NoFault && Run(cfg, s, events).dc.status == READY
  }

  /** Without a drop-copy stream there is no batch. */
  predicate Unused(s: Sys) {
    s.fault == NoFault && !s.dc.created ==> !s.rq.staleOrders.pending && !s.rq.staleOrders.inFlight
  }

  lemma StepUnused(cfg: Config, s: Sys, e: Event)
    requires Inv(cfg, s) && Unused(s) && Enabled(s, e)
    ensures Unused(Step(cfg, s, e))
  {
    if s.fault == NoFault && s.dc.created {
      CreatedStays(cfg, s, e);
    } else if s.fault == NoFault {
      NoStream(cfg, s, e);
      if e.RestTimer? {
        TickUnused(cfg, s, e.grants, e.known);
      } else {
        RestUnused(cfg, s, e);
      }
    }
  }

  lemma NoStream(cfg: Config, s: Sys, e: Event)
    requires StreamOk(cfg, s.dc) && !s.dc.created && Enabled(s, e)
    ensures !Streamed(e)
  {
  }

  lemma TickUnused(cfg: Config, s: Sys, grants: set<Kind>, known: set<Key>)
    requires s.fault == NoFault && !s.rq.staleOrders.pending && !s.rq.staleOrders.inFlight
    ensures var slot := Step(cfg, s, RestTimer(grants, known)).rq.staleOrders; !slot.pending && !slot.inFlight
  {
    TickStartsOne(cfg, Side(s.rest, s.rq, s.fault), grants, known);
  }

  lemma RestUnused(cfg: Config, s: Sys, e: Event)
    requires s.fault == NoFault && !Streamed(e) && !e.RestTimer?
    ensures var slot := Step(cfg, s, e).rq.staleOrders;
      slot.pending == s.rq.staleOrders.pending && (slot.inFlight ==> s.rq.staleOrders.inFlight)
  {
  }

  lemma {:induction false} RunUnused(cfg: Config, s: Sys, events: seq<Event>)
    requires Inv(cfg, s) && Unused(s) && Valid(cfg, s, events)
    ensures Unused(Run(cfg, s, events))
    decreases |events|
  {
    if events != [] {
      StepUnused(cfg, s, events[0]);
      StepKeeps(cfg, s, events[0]);
      RunUnused(cfg, Step(cfg, s, events[0]), events[1..]);
    }
  }

  lemma WedgedCreated(cfg: Config, s: Sys)
    requires Reachable(cfg, s) && Wedged(s)
    ensures s.dc.created
  {
    var events :| Valid(cfg, INIT, events) && Run(cfg, INIT, events) == s;
    InitHolds(cfg);
    RunUnused(cfg, INIT, events);
  }

  /** A wedged account can still get to READY, reconnects included, if and only if responses
      left over from before answer all that its session, or a new one, still waits for. */
  lemma WedgedReadyExact(cfg: Config, s: Sys, now: int)
    requires Reachable(cfg, s) && Wedged(s)
    ensures CanFinish(cfg, s) <==> exists events :: GetsReady(cfg, s, events)
    ensures CanFinish(cfg, s) ==> exists events :: GetsReady(cfg, s, events) && Tame(events, now)
  {
    JointInvariant(cfg, s);
    WedgedCreated(cfg, s);
    if CanFinish(cfg, s) {
      var t := FinishRun(cfg, s, now);
      var events :| Valid(cfg, s, events) && Tame(events, now) && Run(cfg, s, events) == t;
      assert GetsReady(cfg, s, events);
    }
    if events :| GetsReady(cfg, s, events) {
      RunKeeps(cfg, s, events);
      ReadyIsDone(cfg, Run(cfg, s, events));
      OpenDone(cfg, Run(cfg, s, events).rq);
      RunBack(cfg, s, events);
    }
  }

  lemma FinishRun(cfg: Config, s: Sys, now: int) returns (t: Sys)
    requires Inv(cfg, s) && s.fault == NoFault && s.dc.created && CanFinish(cfg, s)
    ensures Reaches(cfg, s, t, false, now) && t.fault == NoFault && t.dc.status == READY
  {
    if s.dc.welcome && Open(cfg, s.dc.ladder, s.rq) {
      ReachesSelf(cfg, s, false, now);
      t := FinishFrom(cfg, s, s, false, now);
    } else {
      assert Open(cfg, UNDEFINED, s.rq);
      var u := Restart(cfg, s, now);
      t := FinishFrom(cfg, s, u, false, now);
    }
  }

  /** At a welcome: the account can get to READY in this session exactly if it is the master
      and is not wedged, or is and has every answer already. */
  lemma ReadyExact(cfg: Config, s: Sys, now: int)
    requires Reachable(cfg, s) && s.fault == NoFault && Enabled(s, Welcome)
    ensures cfg.master && (!Wedged(s) || Open(cfg, UNDEFINED, s.rq)) <==>
      exists events :: InSession(events) && GetsReady(cfg, s, [Welcome] + events)
    ensures cfg.master && (!Wedged(s) || Open(cfg, UNDEFINED, s.rq)) ==>
      exists events :: InSession(events) && Tame(events, now) && GetsReady(cfg, s, [Welcome] + events)
  {
    JointInvariant(cfg, s);
    if cfg.master && !Wedged(s) {
      var events := CanBecomeReady(cfg, s, now);
      assert GetsReady(cfg, s, [Welcome] + events);
    } else if cfg.master && Open(cfg, UNDEFINED, s.rq) {
      var events := FinishWelcomed(cfg, s, now);
      assert GetsReady(cfg, s, [Welcome] + events);
    }
    if events :| InSession(events) && GetsReady(cfg, s, [Welcome] + events) {
      if !cfg.master {
        RunStuck(cfg, s, [Welcome] + events, BALANCES, GET_BALANCES);
      } else if Wedged(s) {
        WedgedReadyExact(cfg, s, now);
      }
    }
  }

  lemma FinishWelcomed(cfg: Config, s: Sys, now: int) returns (events: seq<Event>)
    requires Inv(cfg, s) && s.fault == NoFault && Enabled(s, Welcome) && Open(cfg, UNDEFINED, s.rq)
    ensures Valid(cfg, s, [Welcome] + events) && InSession(events) && Tame(events, now)
    ensures Run(cfg, s, [Welcome] + events).fault == NoFault && Run(cfg, s, [Welcome] + events).dc.status == READY
  {
    var w := Step(cfg, s, Welcome);
    StepKeeps(cfg, s, Welcome);
    WelcomeEnters(cfg, s);
    ReachesSelf(cfg, w, true, now);
    var t := FinishFrom(cfg, w, w, true, now);
    events := WelcomedRun(cfg, s, t, now);
  }
}
