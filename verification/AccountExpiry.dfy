/** The simulated expiry of the token: once per connection, at the first ready tick that comes
    more than the configured time after the connect. */
module AccountExpiry {
  import opened AccountTypes
  import opened AccountSpec
  import opened AccountInvariant
  import opened AccountSteps
  import opened AccountLadder
  import opened AccountSession
  import opened AccountToken
  import opened AccountSends
  import opened AccountScan

  lemma PollExpiry(cfg: Config, s: Sys, now: int, orders: seq<Key>)
    requires s.fault == NoFault && !Due(s.dc, now)
    ensures var t := Step(cfg, s, Timer(now, orders));
      t.dc.nextSimulated == s.dc.nextSimulated && t.dc.query == s.dc.query && t.rq.token.pending == s.rq.token.pending
  {
    StepTimer(cfg, s, now, orders);
    TimerToken(cfg, Acct(s.dc, s.rq, s.fault), now, orders);
  }

  /** In a session only a tick that finds the expiry due changes when the next is. */
  lemma StepExpiry(cfg: Config, s: Sys, e: Event)
    requires s.fault == NoFault && s.dc.created && !e.Connected? && (e.Timer? ==> !Due(s.dc, e.now))
    ensures Step(cfg, s, e).dc.nextSimulated == s.dc.nextSimulated
  {
    var a := Acct(s.dc, s.rq, s.fault);
    if e.Welcome? {
      ClimbToken(cfg, a.(dc := a.dc.(welcome := true)), SUBSCRIBE_BALANCES);
    } else if e.Ack? && e.id.Some? {
      StepAck(cfg, s, e.id.value);
      CheckToken(cfg, a, e.id.value);
    } else if e.Timer? {
      PollExpiry(cfg, s, e.now, e.orders);
    } else {
      OtherExpiry(cfg, s, e);
    }
  }

  lemma OtherExpiry(cfg: Config, s: Sys, e: Event)
    requires s.dc.created && !e.Connected? && !e.Welcome? && !e.Timer? && !(e.Ack? && e.id.Some?)
    ensures Step(cfg, s, e).dc.nextSimulated == s.dc.nextSimulated
  {
  }

  /** No connect, which sets the time anew. */
  predicate SameConnection(events: seq<Event>) { forall e | e in events :: !e.Connected? }

  lemma {:induction false} RunExpiry(cfg: Config, s: Sys, events: seq<Event>)
    requires Inv(cfg, s) && s.fault == NoFault && s.dc.created && Valid(cfg, s, events) && SameConnection(events)
    requires s.dc.nextSimulated == 0 || NotAfter(events, s.dc.nextSimulated)
    ensures var t := Run(cfg, s, events); t.fault == NoFault ==> t.dc.created && t.dc.nextSimulated == s.dc.nextSimulated
    decreases |events|
  {
    if events != [] {
      var e, t := events[0], Step(cfg, s, events[0]);
      assert e in events && forall x | x in events[1..] :: x in events;
      StepExpiry(cfg, s, e);
      StepKeeps(cfg, s, e);
      CreatedStays(cfg, s, e);
      if t.fault == NoFault {
        RunExpiry(cfg, t, events[1..]);
      } else {
        FaultStays(cfg, t, events[1..]);
      }
    }
  }

  /** A tick that finds the stream ready takes the query away, and asks for a token, exactly
      when the expiry is due; it is not due again after that. */
  lemma ReadyExpiry(cfg: Config, s: Sys, now: int, orders: seq<Key>)
    requires Inv(cfg, s) && s.fault == NoFault && s.dc.status == READY && s.dc.query != ""
    ensures var t := Step(cfg, s, Timer(now, orders));
      if Due(s.dc, now) then t.dc.query == "" && t.rq.token.pending && t.dc.nextSimulated == 0
      else t.dc.query == s.dc.query && t.rq.token.pending == s.rq.token.pending && t.dc.nextSimulated == s.dc.nextSimulated
  {
    var a := Acct(s.dc, s.rq, s.fault);
    ReadyInSession(cfg, s);
    ReadyIsDone(cfg, s);
    StepTimer(cfg, s, now, orders);
    DoneTick(cfg, a, now, orders);
    ReadyToken(cfg, a, now, orders);
  }

  /** As long as no tick came later than the configured time after the connect, a ready tick
      takes the query away if and only if it does; with no time configured none ever does. */
  lemma SimulatedExpiryExact(cfg: Config, s: Sys, now: int, events: seq<Event>, later: int, orders: seq<Key>)
    requires Reachable(cfg, s) && s.fault == NoFault && cfg.simulateExpiry > 0 && now + cfg.simulateExpiry != 0
    requires Valid(cfg, s, [Connected(now)] + events) && SameConnection(events) && NotAfter(events, now + cfg.simulateExpiry)
    ensures var u := Run(cfg, s, [Connected(now)] + events);
      var t := Step(cfg, u, Timer(later, orders));
      u.fault == NoFault && u.dc.status == READY && u.dc.query != "" ==>
        if later > now + cfg.simulateExpiry then t.dc.query == "" && t.rq.token.pending
        else t.dc.query == u.dc.query && t.rq.token.pending == u.rq.token.pending
  {
    JointInvariant(cfg, s);
    var all, c := [Connected(now)] + events, Step(cfg, s, Connected(now));
    assert all[0] == Connected(now) && all[1..] == events;
    StepKeeps(cfg, s, Connected(now));
    RunKeeps(cfg, s, all);
    RunExpiry(cfg, c, events);
    var u := Run(cfg, s, all);
    if u.fault == NoFault && u.dc.status == READY && u.dc.query != "" {
      ReadyExpiry(cfg, u, later, orders);
    }
  }

  /** Once a tick has taken the query away, no other tick of the connection does: a query that
      comes back stays. */
  lemma ExpiresOnce(cfg: Config, s: Sys, now: int, orders: seq<Key>, events: seq<Event>, later: int, more: seq<Key>)
    requires Reachable(cfg, s) && s.fault == NoFault && s.dc.status == READY && s.dc.query != ""
    requires Step(cfg, s, Timer(now, orders)).dc.query == ""
    requires Valid(cfg, s, [Timer(now, orders)] + events) && SameConnection(events)
    ensures var u := Run(cfg, s, [Timer(now, orders)] + events);
      u.fault == NoFault ==> Step(cfg, u, Timer(later, more)).dc.query == u.dc.query
  {
    JointInvariant(cfg, s);
    ReadyInSession(cfg, s);
    var e := Timer(now, orders);
    var all, t := [e] + events, Step(cfg, s, e);
    assert all[0] == e && all[1..] == events;
    ReadyExpiry(cfg, s, now, orders);
    StepKeeps(cfg, s, e);
    CreatedStays(cfg, s, e);
    if t.fault == NoFault {
      RunExpiry(cfg, t, events);
    } else {
      FaultStays(cfg, t, events);
    }
    var u := Run(cfg, s, all);
    if u.fault == NoFault {
      PollExpiry(cfg, u, later, more);
    }
  }

  /** Without a configured time the query is never taken by a tick. */
  lemma NeverExpires(cfg: Config, s: Sys, now: int, orders: seq<Key>)
    requires Reachable(cfg, s) && s.fault == NoFault && cfg.simulateExpiry == 0
    ensures Step(cfg, s, Timer(now, orders)).dc.query == s.dc.query
  {
    var events :| Valid(cfg, INIT, events) && Run(cfg, INIT, events) == s;
    RunNeverDue(cfg, INIT, events);
    PollExpiry(cfg, s, now, orders);
  }

  lemma {:induction false} RunNeverDue(cfg: Config, s: Sys, events: seq<Event>)
    requires cfg.simulateExpiry == 0 && s.dc.nextSimulated == 0
    ensures Run(cfg, s, events).dc.nextSimulated == 0
    decreases |events|
  {
    if events != [] {
      if s.fault == NoFault {
        StepNeverDue(cfg, s, events[0]);
      }
      RunNeverDue(cfg, Step(cfg, s, events[0]), events[1..]);
    }
  }

  lemma StepNeverDue(cfg: Config, s: Sys, e: Event)
    requires cfg.simulateExpiry == 0 && s.dc.nextSimulated == 0 && s.fault == NoFault
    ensures Step(cfg, s, e).dc.nextSimulated == 0
  {
    var a := Acct(s.dc, s.rq, s.fault);
    if e.Welcome? {
      ClimbToken(cfg, a.(dc := a.dc.(welcome := true)), SUBSCRIBE_BALANCES);
    } else if e.Ack? && e.id.Some? {
      StepAck(cfg, s, e.id.value);
      CheckToken(cfg, a, e.id.value);
    } else if e.Timer? {
      PollExpiry(cfg, s, e.now, e.orders);
    }
  }
}
