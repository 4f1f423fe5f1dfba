/** What the two timers do, summarised: a REST tick starts at most one request, a
    drop-copy tick starts nothing. */
module AccountEffects {
  import opened AccountTypes
  import opened Wrappers
  import opened AccountSpec
  import opened AccountInvariant
  import opened AccountSteps

  // ---- REST timer

  /** Starting one slot. */
  function Start(x: Side, k: Kind, known: set<Key>): Side {
    if k == STALE_ORDERS
    then DispatchStale(x.(rq := x.rq.(staleOrders := x.rq.staleOrders.Start())), known)
    else x.(rq := x.rq.Put(k, x.rq.Get(k).Start()), rest := Send(x.rest, k))
  }

  /** The first slot, in the order they are offered, that may start. */
  function Chosen(cfg: Config, x: Side, grants: set<Kind>): Option<Kind> {
    if x.rest.status != READY then None
    else if cfg.master && Starts(x.rq, BALANCES, grants) then Some(BALANCES)
    else if cfg.master && Starts(x.rq, POSITIONS, grants) then Some(POSITIONS)
    else if cfg.master && Starts(x.rq, OPEN_ORDERS, grants) then Some(OPEN_ORDERS)
    else if cfg.master && Starts(x.rq, STALE_ORDERS, grants) then Some(STALE_ORDERS)
    else if cfg.master && Starts(x.rq, TRADES, grants) then Some(TRADES)
    else if Starts(x.rq, TOKEN, grants) then Some(TOKEN)
    else None
  }

  /** One tick offers all slots in turn, yet starts at most one request: the first that is
      pending and granted, and none while a slot is in flight. */
  lemma TickStartsOne(cfg: Config, x: Side, grants: set<Kind>, known: set<Key>)
    ensures OnRestTimer(cfg, x, grants, known) ==
            match Chosen(cfg, x, grants)
            case None => x
            case Some(k) => Start(x, k, known)
    ensures Chosen(cfg, x, grants).Some? ==>
      var k := Chosen(cfg, x, grants).value; x.rq.Ready() && x.rq.Get(k).pending && (k != TOKEN ==> cfg.master)
  {
    if x.rest.status == READY && cfg.master {
      var x1 := CheckPending(x, BALANCES, grants);
      var x2 := CheckPending(x1, POSITIONS, grants);
      var x3 := CheckPending(x2, OPEN_ORDERS, grants);
      var x4 := CheckPendingStale(x3, grants, known);
      var x5 := CheckPending(x4, TRADES, grants);
      if Starts(x.rq, BALANCES, grants) {
        Blocked(x1, grants, known);
      } else if Starts(x.rq, POSITIONS, grants) {
        Blocked(x2, grants, known);
      } else if Starts(x.rq, OPEN_ORDERS, grants) {
        Blocked(x3, grants, known);
      } else if Starts(x.rq, STALE_ORDERS, grants) {
        Blocked(x4, grants, known);
      } else if Starts(x.rq, TRADES, grants) {
        Blocked(x5, grants, known);
      }
    }
  }

  lemma Blocked(x: Side, grants: set<Kind>, known: set<Key>)
    requires !x.rq.Ready()
    ensures forall k :: CheckPending(x, k, grants) == x
    ensures CheckPendingStale(x, grants, known) == x
  {
  }

  // ---- drop-copy timer

  predicate SlotTick(x: Slot, y: Slot) {
    y.inFlight == x.inFlight && (y.response ==> x.response) && (x.pending ==> y.pending)
  }

  /** A tick of the drop-copy stream may mark slots pending, consume responses and add
      stale orders. */
  predicate Ticked(rq: Requests, rq': Requests) {
    && SlotTick(rq.token, rq'.token) && SlotTick(rq.balances, rq'.balances) && SlotTick(rq.positions, rq'.positions)
    && SlotTick(rq.openOrders, rq'.openOrders) && SlotTick(rq.staleOrders, rq'.staleOrders) && SlotTick(rq.trades, rq'.trades)
    && rq.details <= rq'.details
  }

  lemma ConsumeTicks(rq: Requests, k: Kind)
    ensures Ticked(rq, rq.Put(k, rq.Get(k).Consume()))
  {
  }

  lemma RequestTicks(rq: Requests, rq': Requests)
    requires OnlyRequests(rq, rq')
    ensures Ticked(rq, rq')
  {
  }

  lemma QueueTicks(cfg: Config, a: Acct, orders: seq<Key>)
    ensures Ticked(a.rq, CheckRequestQueue(cfg, a, orders).rq)
  {
    var s := a.dc.ladder;
    if IsGet(s) && a.rq.Get(KindOf(s)).response {
      var a1 := a.(rq := a.rq.Put(KindOf(s), a.rq.Get(KindOf(s)).Consume()));
      var a2 := if s == GET_OPEN_ORDERS then a1.(rq := a1.rq.Scan(orders)) else a1;
      assert Ticked(a.rq, a1.rq) by { ConsumeTicks(a.rq, KindOf(s)); }
      assert Ticked(a1.rq, a2.rq);
      TickedTrans(a.rq, a1.rq, a2.rq);
      var b := Check(cfg, a2, s);
      assert Ticked(a2.rq, b.rq) by {
        CheckRequests(cfg, a2, s);
        RequestTicks(a2.rq, b.rq);
      }
      TickedTrans(a.rq, a2.rq, b.rq);
    }
  }

  lemma ScanTicks(cfg: Config, a: Acct, now: int, orders: seq<Key>)
    ensures Ticked(a.rq, CheckStaleOrders(cfg, a, now, orders).rq)
  {
  }

  lemma ExpiryTicks(a: Acct, now: int)
    ensures Ticked(a.rq, CheckSimulatedExpiry(a, now).rq)
  {
  }

  lemma ReadyTicks(cfg: Config, a: Acct, now: int, orders: seq<Key>)
    ensures Ticked(a.rq, WhenReady(cfg, a, now, orders).rq)
  {
    var a1 := a.(dc := CheckPing(a.dc, now), rq := a.rq.(token := a.rq.token.Consume()));
    assert Ticked(a.rq, a1.rq) by { ConsumeTicks(a.rq, TOKEN); }
    var a2 := CheckStaleOrders(cfg, a1, now, orders);
    ScanTicks(cfg, a1, now, orders);
    ExpiryTicks(a2, now);
    TickedTrans(a.rq, a1.rq, a2.rq);
    TickedTrans(a.rq, a2.rq, CheckSimulatedExpiry(a2, now).rq);
  }

  lemma TimerTicks(cfg: Config, a: Acct, now: int, orders: seq<Key>)
    ensures Ticked(a.rq, OnTimer(cfg, a, now, orders).rq)
  {
    if a.dc.phase == UPGRADED {
      QueueTicks(cfg, a, orders);
      var b := CheckRequestQueue(cfg, a, orders);
      if b.fault == NoFault && b.dc.status == READY {
        ReadyTicks(cfg, b, now, orders);
        var c := WhenReady(cfg, b, now, orders);
        TickedTrans(a.rq, b.rq, c.rq);
      }
    }
  }

  lemma TickedTrans(p: Requests, q: Requests, r: Requests)
    requires Ticked(p, q) && Ticked(q, r)
    ensures Ticked(p, r)
  {
  }

  /** What such an event leaves behind. */
  predicate Untouched(s: Sys, t: Sys) { t.rest == s.rest && Ticked(s.rq, t.rq) }

  lemma WelcomeTicks(cfg: Config, s: Sys)
    ensures var t := Step(cfg, s, Welcome); Untouched(s, t) && t.rq.details == s.rq.details
  {
    ClimbRequests(cfg, Acct(s.dc.(welcome := true), s.rq, s.fault), SUBSCRIBE_BALANCES);
    RequestTicks(s.rq, OnWelcome(cfg, Acct(s.dc, s.rq, s.fault)).rq);
  }

  lemma AckTicks(cfg: Config, s: Sys, id: State)
    ensures var t := Step(cfg, s, Ack(Some(id))); Untouched(s, t) && t.rq.details == s.rq.details
  {
    var a := Acct(s.dc, s.rq, s.fault);
    if s.fault == NoFault {
      CheckRequests(cfg, a, id);
      RequestTicks(s.rq, Check(cfg, a, id).rq);
      StepAck(cfg, s, id);
    }
  }

  lemma PollTicks(cfg: Config, s: Sys, now: int, orders: seq<Key>)
    ensures Untouched(s, Step(cfg, s, Timer(now, orders)))
  {
    if s.fault == NoFault {
      TimerTicks(cfg, Acct(s.dc, s.rq, s.fault), now, orders);
      StepTimer(cfg, s, now, orders);
    }
  }

  lemma ExpiredTicks(cfg: Config, s: Sys)
    ensures var t := Step(cfg, s, TokenExpired); Untouched(s, t) && t.rq.details == s.rq.details
  {
  }

  lemma SocketTicks(cfg: Config, s: Sys, e: Event)
    requires e.Connected? || e.Upgraded? || e.Disconnected? || (e.Ack? && e.id == None)
    ensures var t := Step(cfg, s, e); t.rest == s.rest && t.rq == s.rq
  {
  }

  lemma StreamTicks(cfg: Config, s: Sys, e: Event)
    requires Streamed(e)
    ensures Step(cfg, s, e).rest == s.rest && Ticked(s.rq, Step(cfg, s, e).rq)
    ensures !e.Timer? ==> Step(cfg, s, e).rq.details == s.rq.details
  {
    if e.Welcome? {
      WelcomeTicks(cfg, s);
    } else if e.Ack? && e.id.Some? {
      AckTicks(cfg, s, e.id.value);
    } else if e.Timer? {
      PollTicks(cfg, s, e.now, e.orders);
    } else if e.TokenExpired? {
      ExpiredTicks(cfg, s);
    } else {
      SocketTicks(cfg, s, e);
    }
  }
}
