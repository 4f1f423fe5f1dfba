/** Every event keeps the joint invariant, so it holds in every reachable state. */
module AccountSteps {
  import opened AccountTypes
  import opened Wrappers
  import opened AccountSpec
  import opened AccountInvariant

  predicate SlotsOk(cfg: Config, rest: RestState, rq: Requests) {
    WireOk(rest, rq) && LedgerOk(rest, rq) && MasterOk(cfg, rq)
  }

  // ---- drop-copy stream

  lemma StepAck(cfg: Config, s: Sys, id: State)
    requires s.fault == NoFault
    ensures Step(cfg, s, Ack(Some(id))) == FromAcct(s, Check(cfg, Acct(s.dc, s.rq, s.fault), id))
  {
  }

  lemma StepTimer(cfg: Config, s: Sys, now: int, orders: seq<Key>)
    requires s.fault == NoFault
    ensures Step(cfg, s, Timer(now, orders)) == FromAcct(s, OnTimer(cfg, Acct(s.dc, s.rq, s.fault), now, orders))
  {
  }

  lemma RequestsKeep(cfg: Config, rest: RestState, rq: Requests, rq': Requests)
    requires SlotsOk(cfg, rest, rq) && OnlyRequests(rq, rq')
    ensures SlotsOk(cfg, rest, rq')
  {
  }

  lemma CheckRequests(cfg: Config, a: Acct, s: State)
    ensures OnlyRequests(a.rq, Check(cfg, a, s).rq)
  {
    if s == a.dc.ladder && Active(s) {
      ClimbRequests(cfg, Note(a, [Completed(s)]), Next(s));
    }
  }

  lemma ConsumeKeeps(cfg: Config, rest: RestState, rq: Requests, k: Kind)
    requires SlotsOk(cfg, rest, rq)
    ensures SlotsOk(cfg, rest, rq.Put(k, rq.Get(k).Consume()))
  {
  }

  lemma ScanKeeps(cfg: Config, rest: RestState, rq: Requests, orders: seq<Key>)
    requires SlotsOk(cfg, rest, rq)
    ensures SlotsOk(cfg, rest, rq.Scan(orders))
  {
  }

  lemma CheckRequestQueueKeeps(cfg: Config, rest: RestState, a: Acct, orders: seq<Key>)
    requires SlotsOk(cfg, rest, a.rq) && StreamOk(cfg, a.dc) && a.fault == NoFault
    ensures var b := CheckRequestQueue(cfg, a, orders);
      SlotsOk(cfg, rest, b.rq) && StreamOk(cfg, b.dc) && (b.fault == NoFault || b.fault == UnexpectedStale)
  {
    var s := a.dc.ladder;
    if IsGet(s) && a.rq.Get(KindOf(s)).response {
      var a1 := a.(rq := a.rq.Put(KindOf(s), a.rq.Get(KindOf(s)).Consume()));
      ConsumeKeeps(cfg, rest, a.rq, KindOf(s));
      var a2 := if s == GET_OPEN_ORDERS then a1.(rq := a1.rq.Scan(orders)) else a1;
      ScanKeeps(cfg, rest, a1.rq, orders);
      CheckKeeps(cfg, a2, s);
      CheckRequests(cfg, a2, s);
      RequestsKeep(cfg, rest, a2.rq, Check(cfg, a2, s).rq);
    }
  }

  lemma CheckStaleOrdersKeeps(cfg: Config, rest: RestState, a: Acct, now: int, orders: seq<Key>)
    requires SlotsOk(cfg, rest, a.rq)
    ensures SlotsOk(cfg, rest, CheckStaleOrders(cfg, a, now, orders).rq)
  {
    ScanKeeps(cfg, rest, a.rq, orders);
    if a.dc.nextScan < now && a.rq.New(orders) != {} {
      var rq := a.rq.Scan(orders);
      RequestsKeep(cfg, rest, rq, rq.(staleOrders := rq.staleOrders.Request()));
    }
  }

  lemma RequestPrivateTokenKeeps(cfg: Config, rest: RestState, a: Acct)
    requires SlotsOk(cfg, rest, a.rq)
    ensures SlotsOk(cfg, rest, RequestPrivateToken(a).rq)
  {
  }

  lemma CheckSimulatedExpiryKeeps(cfg: Config, rest: RestState, a: Acct, now: int)
    requires SlotsOk(cfg, rest, a.rq)
    ensures SlotsOk(cfg, rest, CheckSimulatedExpiry(a, now).rq)
  {
  }

  /** The rest of a tick leaves alone what the stream invariant speaks of. */
  predicate SameStream(dc: DropCopyState, dc': DropCopyState) {
    && dc'.ready == dc.ready && dc'.status == dc.status && dc'.ladder == dc.ladder && dc'.welcome == dc.welcome
    && dc'.phase == dc.phase && dc'.logonTimeout == dc.logonTimeout && dc'.created == dc.created && dc'.trace == dc.trace
  }

  lemma PingStream(dc: DropCopyState, now: int)
    ensures SameStream(dc, CheckPing(dc, now))
  {
  }

  lemma ScanStream(cfg: Config, a: Acct, now: int, orders: seq<Key>)
    ensures SameStream(a.dc, CheckStaleOrders(cfg, a, now, orders).dc) && CheckStaleOrders(cfg, a, now, orders).fault == a.fault
  {
  }

  lemma ExpiryStream(a: Acct, now: int)
    ensures SameStream(a.dc, CheckSimulatedExpiry(a, now).dc) && CheckSimulatedExpiry(a, now).fault == a.fault
  {
  }

  lemma WhenReadyStream(cfg: Config, a: Acct, now: int, orders: seq<Key>)
    ensures SameStream(a.dc, WhenReady(cfg, a, now, orders).dc) && WhenReady(cfg, a, now, orders).fault == a.fault
  {
    var a1 := a.(dc := CheckPing(a.dc, now), rq := a.rq.(token := a.rq.token.Consume()));
    PingStream(a.dc, now);
    ScanStream(cfg, a1, now, orders);
    ExpiryStream(CheckStaleOrders(cfg, a1, now, orders), now);
  }

  lemma WhenReadyKeeps(cfg: Config, rest: RestState, a: Acct, now: int, orders: seq<Key>)
    requires SlotsOk(cfg, rest, a.rq)
    ensures SlotsOk(cfg, rest, WhenReady(cfg, a, now, orders).rq)
  {
    var a1 := a.(dc := CheckPing(a.dc, now), rq := a.rq.(token := a.rq.token.Consume()));
    assert SlotsOk(cfg, rest, a1.rq) by { ConsumeKeeps(cfg, rest, a.rq, TOKEN); }
    var a2 := CheckStaleOrders(cfg, a1, now, orders);
    assert SlotsOk(cfg, rest, a2.rq) by { CheckStaleOrdersKeeps(cfg, rest, a1, now, orders); }
    CheckSimulatedExpiryKeeps(cfg, rest, a2, now);
  }

  lemma OnTimerKeeps(cfg: Config, rest: RestState, a: Acct, now: int, orders: seq<Key>)
    requires SlotsOk(cfg, rest, a.rq) && StreamOk(cfg, a.dc) && a.fault == NoFault
    ensures var b := OnTimer(cfg, a, now, orders);
      SlotsOk(cfg, rest, b.rq) && StreamOk(cfg, b.dc) && (b.fault == NoFault || b.fault == UnexpectedStale)
  {
    if a.dc.phase == UPGRADED {
      CheckRequestQueueKeeps(cfg, rest, a, orders);
      var b := CheckRequestQueue(cfg, a, orders);
      if b.fault == NoFault {
        WhenReadyKeeps(cfg, rest, b, now, orders);
        WhenReadyStream(cfg, b, now, orders);
      }
    }
  }

  lemma OnWelcomeKeeps(cfg: Config, a: Acct)
    requires StreamOk(cfg, a.dc) && a.fault == NoFault && a.dc.phase == UPGRADED && !a.dc.welcome
    ensures StreamOk(cfg, OnWelcome(cfg, a).dc) && OnWelcome(cfg, a).fault == NoFault
  {
  }

  lemma OnDisconnectedKeeps(cfg: Config, dc: DropCopyState)
    requires StreamOk(cfg, dc)
    ensures StreamOk(cfg, OnDisconnected(dc))
  {
  }

  // ---- REST stream

  lemma CheckPendingKeeps(cfg: Config, x: Side, k: Kind, grants: set<Kind>)
    requires SlotsOk(cfg, x.rest, x.rq) && k != STALE_ORDERS && (k != TOKEN ==> cfg.master)
    ensures var y := CheckPending(x, k, grants); SlotsOk(cfg, y.rest, y.rq) && y.fault == x.fault
  {
  }

  lemma CheckPendingStaleKeeps(cfg: Config, x: Side, grants: set<Kind>, known: set<Key>)
    requires SlotsOk(cfg, x.rest, x.rq) && cfg.master
    ensures var y := CheckPendingStale(x, grants, known); SlotsOk(cfg, y.rest, y.rq) && y.fault == x.fault
  {
  }

  lemma OnRestTimerKeeps(cfg: Config, x: Side, grants: set<Kind>, known: set<Key>)
    requires SlotsOk(cfg, x.rest, x.rq)
    ensures var y := OnRestTimer(cfg, x, grants, known); SlotsOk(cfg, y.rest, y.rq) && y.fault == x.fault
  {
    if x.rest.status == READY {
      if cfg.master {
        CheckPendingKeeps(cfg, x, BALANCES, grants);
        var x1 := CheckPending(x, BALANCES, grants);
        CheckPendingKeeps(cfg, x1, POSITIONS, grants);
        var x2 := CheckPending(x1, POSITIONS, grants);
        CheckPendingKeeps(cfg, x2, OPEN_ORDERS, grants);
        var x3 := CheckPending(x2, OPEN_ORDERS, grants);
        CheckPendingStaleKeeps(cfg, x3, grants, known);
        var x4 := CheckPendingStale(x3, grants, known);
        CheckPendingKeeps(cfg, x4, TRADES, grants);
      }
      var z := if cfg.master then CheckQueues(x, grants, known) else x;
      CheckPendingKeeps(cfg, z, TOKEN, grants);
    }
  }

  lemma OnAnswerKeeps(cfg: Config, x: Side, k: Kind, response: Response)
    requires SlotsOk(cfg, x.rest, x.rq) && Plain(k) && k in x.rest.outstanding && x.fault == NoFault
    ensures var y := OnAnswer(x, k, response);
      y.fault == Redirected || (y.fault == NoFault && SlotsOk(cfg, y.rest, y.rq))
  {
  }

  lemma CommitStaleKeeps(cfg: Config, x: Side)
    requires SlotsOk(cfg, x.rest, x.rq) && cfg.master && x.rest.counter == 0
    ensures SlotsOk(cfg, Commit(x, STALE_ORDERS).rest, Commit(x, STALE_ORDERS).rq)
  {
  }

  lemma OnOrderAnswerKeeps(cfg: Config, x: Side, key: Key, response: Response)
    requires SlotsOk(cfg, x.rest, x.rq) && key in x.rest.orders && x.fault == NoFault
    ensures var y := OnOrderAnswer(x, key, response);
      y.fault == Redirected || (y.fault == NoFault && SlotsOk(cfg, y.rest, y.rq))
  {
    var orders, answered := x.rest.orders - multiset{key}, x.rest.answered + multiset{key};
    assert |orders| == |x.rest.orders| - 1;
    assert answered + orders == x.rest.answered + x.rest.orders;
    var y := x.(rest := x.rest.(orders := orders, answered := answered, counter := x.rest.counter - 1));
    assert SlotsOk(cfg, y.rest, y.rq);
    if y.rest.counter == 0 {
      CommitStaleKeeps(cfg, y);
    }
  }

  lemma CommitTokenKeeps(cfg: Config, x: Side)
    requires SlotsOk(cfg, x.rest, x.rq)
    ensures SlotsOk(cfg, Commit(x, TOKEN).rest, Commit(x, TOKEN).rq)
  {
  }

  lemma OnTokenAnswerKeeps(cfg: Config, x: Side, response: Response, superseded: bool)
    requires SlotsOk(cfg, x.rest, x.rq) && TOKEN in x.rest.outstanding && x.fault == NoFault
    ensures var y := OnTokenAnswer(x, response, superseded);
      y.fault == Redirected || (y.fault == NoFault && SlotsOk(cfg, y.rest, y.rq))
  {
    // the slot is freed by the commit, so take it out of flight first
    var rq := x.rq.(token := x.rq.token.(inFlight := false));
    var rest := x.rest.(outstanding := x.rest.outstanding - multiset{TOKEN});
    assert SlotsOk(cfg, rest, rq);
    CommitTokenKeeps(cfg, Side(rest, rq, x.fault));
    CommitTokenKeeps(cfg, Side(Processed(rest), rq, x.fault));
  }

  lemma DeliverTokenKeeps(cfg: Config, dc: DropCopyState, token: string)
    requires StreamOk(cfg, dc)
    ensures StreamOk(cfg, DeliverToken(dc, token))
  {
  }

  // ---- the joint system

  lemma StreamStepKeeps(cfg: Config, s: Sys, e: Event)
    requires Inv(cfg, s) && s.fault == NoFault && Enabled(s, e)
    requires Streamed(e)
    ensures Inv(cfg, Step(cfg, s, e))
  {
    var a := Acct(s.dc, s.rq, s.fault);
    match e {
      case Disconnected => OnDisconnectedKeeps(cfg, s.dc);
      case Welcome => WelcomeStepKeeps(cfg, s);
      case Ack(Some(id)) =>
        CheckKeeps(cfg, a, id);
        CheckRequests(cfg, a, id);
        RequestsKeep(cfg, s.rest, s.rq, Check(cfg, a, id).rq);
      case TokenExpired => RequestPrivateTokenKeeps(cfg, s.rest, a);
      case Timer(now, orders) => OnTimerKeeps(cfg, s.rest, a, now, orders);
      case _ =>
    }
  }

  lemma WelcomeStepKeeps(cfg: Config, s: Sys)
    requires Inv(cfg, s) && s.fault == NoFault && Enabled(s, Welcome)
    ensures Inv(cfg, Step(cfg, s, Welcome))
  {
    var a := Acct(s.dc, s.rq, s.fault);
    OnWelcomeKeeps(cfg, a);
    ClimbRequests(cfg, a.(dc := a.dc.(welcome := true)), SUBSCRIBE_BALANCES);
    RequestsKeep(cfg, s.rest, s.rq, OnWelcome(cfg, a).rq);
  }

  lemma TokenStepKeeps(cfg: Config, s: Sys, response: Response, token: string, superseded: bool)
    requires Inv(cfg, s) && s.fault == NoFault && Enabled(s, TokenAnswer(response, token, superseded))
    ensures Inv(cfg, Step(cfg, s, TokenAnswer(response, token, superseded)))
  {
    OnTokenAnswerKeeps(cfg, Side(s.rest, s.rq, s.fault), response, superseded);
    DeliverTokenKeeps(cfg, s.dc, token);
  }

  lemma GetTokenKeeps(cfg: Config, rest: RestState, rq: Requests)
    requires SlotsOk(cfg, rest, rq)
    ensures SlotsOk(cfg, GetPrivateToken(rest), rq)
  {
  }

  lemma StatusKeeps(cfg: Config, rest: RestState, rq: Requests, status: Status, downloading: bool)
    requires SlotsOk(cfg, rest, rq)
    ensures SlotsOk(cfg, rest.(status := status, downloading := downloading), rq)
  {
  }

  lemma OnRestConnectedKeeps(cfg: Config, rest: RestState, rq: Requests, resend: bool)
    requires SlotsOk(cfg, rest, rq)
    ensures SlotsOk(cfg, OnRestConnected(rest, resend), rq)
  {
    GetTokenKeeps(cfg, rest, rq);
    StatusKeeps(cfg, rest, rq, READY, rest.downloading);
    StatusKeeps(cfg, rest, rq, rest.status, true);
    GetTokenKeeps(cfg, rest.(downloading := true), rq);
  }

  lemma ConnectionStepKeeps(cfg: Config, s: Sys, e: Event)
    requires Inv(cfg, s) && s.fault == NoFault && (e.RestConnected? || e.RestDisconnected? || e.RestRetry?)
    ensures Inv(cfg, Step(cfg, s, e))
  {
    if e.RestConnected? {
      OnRestConnectedKeeps(cfg, s.rest, s.rq, e.resend);
    } else if e.RestDisconnected? {
      StatusKeeps(cfg, s.rest, s.rq, DISCONNECTED, s.rest.downloading);
    } else {
      GetTokenKeeps(cfg, s.rest, s.rq);
    }
  }

  lemma RestStepKeeps(cfg: Config, s: Sys, e: Event)
    requires Inv(cfg, s) && s.fault == NoFault && Enabled(s, e)
    requires e.RestConnected? || e.RestDisconnected? || e.RestRetry? || e.RestTimer? || e.TokenAnswer? || e.Answer? || e.OrderAnswer?
    ensures Inv(cfg, Step(cfg, s, e))
  {
    var x := Side(s.rest, s.rq, s.fault);
    if e.RestTimer? {
      OnRestTimerKeeps(cfg, x, e.grants, e.known);
    } else if e.TokenAnswer? {
      TokenStepKeeps(cfg, s, e.response, e.token, e.superseded);
    } else if e.Answer? {
      OnAnswerKeeps(cfg, x, e.kind, e.response);
    } else if e.OrderAnswer? {
      OnOrderAnswerKeeps(cfg, x, e.key, e.response);
    } else {
      ConnectionStepKeeps(cfg, s, e);
    }
  }

  lemma StepKeeps(cfg: Config, s: Sys, e: Event)
    requires Inv(cfg, s) && Enabled(s, e)
    ensures Inv(cfg, Step(cfg, s, e))
  {
    if s.fault == NoFault {
      if Streamed(e) {
        StreamStepKeeps(cfg, s, e);
      } else {
        RestStepKeeps(cfg, s, e);
      }
    }
  }

  lemma {:induction false} RunKeeps(cfg: Config, s: Sys, events: seq<Event>)
    requires Inv(cfg, s) && Valid(cfg, s, events)
    ensures Inv(cfg, Run(cfg, s, events))
    decreases |events|
  {
    if events != [] {
      StepKeeps(cfg, s, events[0]);
      RunKeeps(cfg, Step(cfg, s, events[0]), events[1..]);
    }
  }

  lemma InitHolds(cfg: Config)
    ensures Inv(cfg, INIT)
  {
    assert SkipsOk(cfg, {}) && INIT.dc.trace == Transcript(UNDEFINED, {});
  }

  /** Joint invariant of all reachable states: in particular the counter of stale orders
      equals the number of order-detail requests on the wire, and the fatal branch on an
      unexpected answer is never taken. */
  lemma JointInvariant(cfg: Config, s: Sys)
    requires Reachable(cfg, s)
    ensures Inv(cfg, s)
  {
    InitHolds(cfg);
    var events :| Valid(cfg, INIT, events) && Run(cfg, INIT, events) == s;
    RunKeeps(cfg, INIT, events);
  }
}
