/** How often a ready stream looks for stale orders: once per configured period, counted from
    the last look, whatever happens in between. */
module AccountScan {
  import opened AccountTypes
  import opened AccountSpec
  import opened AccountInvariant
  import opened AccountSteps
  import opened AccountLadder
  import opened AccountSession
  import opened AccountToken
  import opened AccountSends

  // ---- one tick

  /** All stale orders are in the set, and if one of them was not, a batch is asked for. */
  ghost predicate Looked(rq: Requests, rq': Requests, orders: seq<Key>) {
    var found := set k | k in orders;
    && rq'.details == rq.details + found
    && rq'.inserted == rq.inserted + multiset(found - rq.details)
    && rq'.staleOrders ==
       Slot(rq.staleOrders.pending || !(found <= rq.details), rq.staleOrders.inFlight, rq.staleOrders.response)
  }

  predicate NotLooked(rq: Requests, rq': Requests) {
    rq'.details == rq.details && rq'.inserted == rq.inserted && rq'.staleOrders == rq.staleOrders
  }

  lemma ScanLooks(cfg: Config, a: Acct, now: int, orders: seq<Key>)
    ensures var b := CheckStaleOrders(cfg, a, now, orders);
      if a.dc.nextScan < now
      then Looked(a.rq, b.rq, orders) && b.dc.nextScan == now + cfg.scanFrequency
      else NotLooked(a.rq, b.rq) && b.dc.nextScan == a.dc.nextScan
  {
    assert a.rq.details + a.rq.New(orders) == a.rq.details + set k | k in orders;
    assert a.rq.New(orders) == {} <==> (set k | k in orders) <= a.rq.details;
  }

  /** The rest of the tick concerns neither. */
  lemma ReadyLooks(cfg: Config, a: Acct, now: int, orders: seq<Key>)
    ensures var b := WhenReady(cfg, a, now, orders);
      if a.dc.nextScan < now
      then Looked(a.rq, b.rq, orders) && b.dc.nextScan == now + cfg.scanFrequency
      else NotLooked(a.rq, b.rq) && b.dc.nextScan == a.dc.nextScan
  {
    var a1 := a.(dc := CheckPing(a.dc, now), rq := a.rq.(token := a.rq.token.Consume()));
    ScanLooks(cfg, a1, now, orders);
    ExpiryScan(CheckStaleOrders(cfg, a1, now, orders), now);
  }

  lemma ExpiryScan(a: Acct, now: int)
    ensures var b := CheckSimulatedExpiry(a, now); NotLooked(a.rq, b.rq) && b.dc.nextScan == a.dc.nextScan
  {
  }

  lemma TickLooks(cfg: Config, s: Sys, now: int, orders: seq<Key>)
    requires Inv(cfg, s) && s.fault == NoFault && s.dc.status == READY
    ensures var t := Step(cfg, s, Timer(now, orders));
      && t.fault == NoFault && t.dc.status == READY
      && if s.dc.nextScan < now
         then Looked(s.rq, t.rq, orders) && t.dc.nextScan == now + cfg.scanFrequency
         else NotLooked(s.rq, t.rq) && t.dc.nextScan == s.dc.nextScan
  {
    var a := Acct(s.dc, s.rq, s.fault);
    ReadyInSession(cfg, s);
    ReadyIsDone(cfg, s);
    DoneTick(cfg, a, now, orders);
    WhenReadyStream(cfg, a, now, orders);
    ReadyLooks(cfg, a, now, orders);
    StepTimer(cfg, s, now, orders);
  }

  // ---- the deadline of the next look

  lemma {:induction false} ClimbScan(cfg: Config, a: Acct, s: State)
    requires s != UNDEFINED
    ensures Climb(cfg, a, s).dc.nextScan == a.dc.nextScan
    decreases 10 - Index(s)
  {
    if s != DONE && Skips(cfg, a.rq, s) {
      ClimbScan(cfg, Note(a.(dc := a.dc.(ladder := s)), [Skipped(s)]), Next(s));
    }
  }

  lemma CheckScan(cfg: Config, a: Acct, id: State)
    ensures Check(cfg, a, id).dc.nextScan == a.dc.nextScan
  {
    if id == a.dc.ladder && Active(id) {
      ClimbScan(cfg, Note(a, [Completed(id)]), Next(id));
    }
  }

  lemma QueueScan(cfg: Config, a: Acct, orders: seq<Key>)
    ensures CheckRequestQueue(cfg, a, orders).dc.nextScan == a.dc.nextScan
  {
    var s := a.dc.ladder;
    if IsGet(s) && a.rq.Get(KindOf(s)).response {
      var a1 := a.(rq := a.rq.Put(KindOf(s), a.rq.Get(KindOf(s)).Consume()));
      CheckScan(cfg, if s == GET_OPEN_ORDERS then a1.(rq := a1.rq.Scan(orders)) else a1, s);
    }
  }

  /** Only a tick behind the deadline moves it. */
  lemma StepScan(cfg: Config, s: Sys, e: Event)
    requires Inv(cfg, s) && s.fault == NoFault && s.dc.created && Enabled(s, e) && (e.Timer? ==> e.now <= s.dc.nextScan)
    ensures Step(cfg, s, e).dc.nextScan == s.dc.nextScan
  {
    var a := Acct(s.dc, s.rq, s.fault);
    if e.Welcome? {
      ClimbScan(cfg, a.(dc := a.dc.(welcome := true)), SUBSCRIBE_BALANCES);
    } else if e.Ack? && e.id.Some? {
      StepAck(cfg, s, e.id.value);
      CheckScan(cfg, a, e.id.value);
    } else if e.Timer? {
      StepTimer(cfg, s, e.now, e.orders);
      QueueScan(cfg, a, e.orders);
      ReadyLooks(cfg, CheckRequestQueue(cfg, a, e.orders), e.now, e.orders);
    } else {
      OtherScan(cfg, s, e);
    }
  }

  lemma OtherScan(cfg: Config, s: Sys, e: Event)
    requires s.dc.created && !e.Welcome? && !e.Timer? && !(e.Ack? && e.id.Some?)
    ensures Step(cfg, s, e).dc.nextScan == s.dc.nextScan
  {
  }

  /** Every tick comes at this time or before. */
  predicate NotAfter(events: seq<Event>, time: int) { forall e | e in events :: e.Timer? ==> e.now <= time }

  lemma {:induction false} RunScan(cfg: Config, s: Sys, events: seq<Event>)
    requires Inv(cfg, s) && s.fault == NoFault && s.dc.created && Valid(cfg, s, events) && NotAfter(events, s.dc.nextScan)
    ensures Run(cfg, s, events).fault == NoFault ==> Run(cfg, s, events).dc.nextScan == s.dc.nextScan
    decreases |events|
  {
    if events != [] {
      var e, t := events[0], Step(cfg, s, events[0]);
      assert e in events && forall x | x in events[1..] :: x in events;
      StepScan(cfg, s, e);
      StepKeeps(cfg, s, e);
      CreatedStays(cfg, s, e);
      if t.fault == NoFault {
        RunScan(cfg, t, events[1..]);
      } else {
        FaultStays(cfg, t, events[1..]);
      }
    }
  }

  /** A ready tick behind the last deadline looks for stale orders. The next look comes with
      the first ready tick that is more than a period later, no matter what happens until
      then, downloads and reconnects included, as long as no tick comes after the period. */
  lemma ScanPeriodExact(cfg: Config, s: Sys, t1: int, orders1: seq<Key>, events: seq<Event>, t2: int, orders2: seq<Key>)
    requires Reachable(cfg, s) && s.fault == NoFault && s.dc.status == READY && s.dc.nextScan < t1
    requires Valid(cfg, s, [Timer(t1, orders1)] + events) && NotAfter(events, t1 + cfg.scanFrequency)
    ensures Looked(s.rq, Step(cfg, s, Timer(t1, orders1)).rq, orders1)
    ensures var u := Run(cfg, s, [Timer(t1, orders1)] + events);
      var t := Step(cfg, u, Timer(t2, orders2));
      u.fault == NoFault && u.dc.status == READY ==>
        if t2 > t1 + cfg.scanFrequency then Looked(u.rq, t.rq, orders2) else NotLooked(u.rq, t.rq)
  {
    JointInvariant(cfg, s);
    ReadyInSession(cfg, s);
    var e := Timer(t1, orders1);
    assert ([e] + events)[0] == e && ([e] + events)[1..] == events;
    TickLooks(cfg, s, t1, orders1);
    StepKeeps(cfg, s, e);
    CreatedStays(cfg, s, e);
    RunScan(cfg, Step(cfg, s, e), events);
    RunKeeps(cfg, Step(cfg, s, e), events);
    var u := Run(cfg, s, [e] + events);
    if u.fault == NoFault && u.dc.status == READY {
      TickLooks(cfg, u, t2, orders2);
    }
  }

  /** Of two ready ticks, the first of which looks, the second looks too exactly when it comes
      more than a period later. */
  lemma TickScansExact(cfg: Config, s: Sys, t1: int, t2: int, orders1: seq<Key>, orders2: seq<Key>)
    requires Reachable(cfg, s) && s.fault == NoFault && s.dc.status == READY && s.dc.nextScan < t1
    ensures var u := Step(cfg, s, Timer(t1, orders1));
      var t := Step(cfg, u, Timer(t2, orders2));
      Looked(s.rq, u.rq, orders1) && if t2 > t1 + cfg.scanFrequency then Looked(u.rq, t.rq, orders2) else NotLooked(u.rq, t.rq)
  {
    JointInvariant(cfg, s);
    TickLooks(cfg, s, t1, orders1);
    StepKeeps(cfg, s, Timer(t1, orders1));
    TickLooks(cfg, Step(cfg, s, Timer(t1, orders1)), t2, orders2);
  }
}
