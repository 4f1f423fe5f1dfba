/** The logon deadline of the drop-copy stream: when exactly a tick gives up on a connection. */
module AccountLogon {
  import opened AccountTypes
  import opened Wrappers
  import opened AccountSpec
  import opened AccountInvariant
  import opened AccountSteps
  import opened AccountLadder

  // ---- what leaves the deadline alone

  predicate SameLogon(dc: DropCopyState, dc': DropCopyState) {
    dc'.phase == dc.phase && dc'.closing == dc.closing && dc'.logonTimeout == dc.logonTimeout
  }

  lemma {:induction false} ClimbLogon(cfg: Config, a: Acct, s: State)
    requires s != UNDEFINED
    ensures SameLogon(a.dc, Climb(cfg, a, s).dc)
    decreases 10 - Index(s)
  {
    if s != DONE && Skips(cfg, a.rq, s) {
      ClimbLogon(cfg, Note(a.(dc := a.dc.(ladder := s)), [Skipped(s)]), Next(s));
    }
  }

  lemma CheckLogon(cfg: Config, a: Acct, id: State)
    ensures SameLogon(a.dc, Check(cfg, a, id).dc)
  {
    if id == a.dc.ladder && Active(id) {
      ClimbLogon(cfg, Note(a, [Completed(id)]), Next(id));
    }
  }

  lemma QueueLogon(cfg: Config, a: Acct, orders: seq<Key>)
    ensures SameLogon(a.dc, CheckRequestQueue(cfg, a, orders).dc)
  {
    var s := a.dc.ladder;
    if IsGet(s) && a.rq.Get(KindOf(s)).response {
      var a1 := a.(rq := a.rq.Put(KindOf(s), a.rq.Get(KindOf(s)).Consume()));
      CheckLogon(cfg, if s == GET_OPEN_ORDERS then a1.(rq := a1.rq.Scan(orders)) else a1, s);
    }
  }

  lemma ReadyLogon(cfg: Config, a: Acct, now: int, orders: seq<Key>)
    ensures SameLogon(a.dc, WhenReady(cfg, a, now, orders).dc)
  {
  }

  // ---- one event

  /** The tick comes after the deadline, which is zero when there is none. */
  predicate GivesUp(e: Event, deadline: int) { e.Timer? && deadline != 0 && deadline < e.now }

  lemma PollLogon(cfg: Config, s: Sys, now: int, orders: seq<Key>)
    requires s.fault == NoFault && (s.dc.welcome ==> s.dc.phase == UPGRADED)
    ensures var dc := Step(cfg, s, Timer(now, orders)).dc;
      && dc.phase == s.dc.phase && dc.logonTimeout == s.dc.logonTimeout
      && dc.closing == (s.dc.closing || (s.dc.phase != UPGRADED && GivesUp(Timer(now, orders), s.dc.logonTimeout)))
  {
    var a := Acct(s.dc, s.rq, s.fault);
    StepTimer(cfg, s, now, orders);
    QueueLogon(cfg, a, orders);
    ReadyLogon(cfg, CheckRequestQueue(cfg, a, orders), now, orders);
  }

  lemma StepLogon(cfg: Config, s: Sys, e: Event)
    requires Inv(cfg, s) && s.fault == NoFault && s.dc.created && Enabled(s, e)
    requires !e.Connected? && !e.Upgraded? && !e.Disconnected?
    ensures var dc := Step(cfg, s, e).dc;
      && dc.phase == s.dc.phase && dc.logonTimeout == s.dc.logonTimeout
      && dc.closing == (s.dc.closing || (s.dc.phase != UPGRADED && GivesUp(e, s.dc.logonTimeout)))
  {
    var a := Acct(s.dc, s.rq, s.fault);
    if e.Welcome? {
      ClimbLogon(cfg, a.(dc := a.dc.(welcome := true)), SUBSCRIBE_BALANCES);
    } else if e.Ack? && e.id.Some? {
      StepAck(cfg, s, e.id.value);
      CheckLogon(cfg, a, e.id.value);
    } else if e.Timer? {
      PollLogon(cfg, s, e.now, e.orders);
    } else {
      OtherLogon(cfg, s, e);
    }
  }

  lemma OtherLogon(cfg: Config, s: Sys, e: Event)
    requires s.dc.created && (e.TokenExpired? || (e.Ack? && e.id == None) || !Streamed(e))
    ensures SameLogon(s.dc, Step(cfg, s, e).dc)
  {
  }

  // ---- a stream that is not connected is not closing

  predicate NotClosing(s: Sys) { s.dc.phase == CLOSED ==> !s.dc.closing }

  lemma StepNotClosing(cfg: Config, s: Sys, e: Event)
    requires Inv(cfg, s) && NotClosing(s) && Enabled(s, e)
    ensures NotClosing(Step(cfg, s, e))
  {
    if s.fault == NoFault && s.dc.created && !e.Connected? && !e.Upgraded? && !e.Disconnected? {
      StepLogon(cfg, s, e);
    }
  }

  lemma {:induction false} RunNotClosing(cfg: Config, s: Sys, events: seq<Event>)
    requires Inv(cfg, s) && NotClosing(s) && Valid(cfg, s, events)
    ensures NotClosing(Run(cfg, s, events))
    decreases |events|
  {
    if events != [] {
      StepNotClosing(cfg, s, events[0]);
      StepKeeps(cfg, s, events[0]);
      RunNotClosing(cfg, Step(cfg, s, events[0]), events[1..]);
    }
  }

  lemma ReachableNotClosing(cfg: Config, s: Sys)
    requires Reachable(cfg, s)
    ensures NotClosing(s)
  {
    var events :| Valid(cfg, INIT, events) && Run(cfg, INIT, events) == s;
    InitHolds(cfg);
    RunNotClosing(cfg, INIT, events);
  }

  // ---- one connection

  /** Some tick of the run comes after the deadline and before the upgrade. */
  ghost predicate Late(events: seq<Event>, deadline: int) {
    exists k :: 0 <= k < |events| && GivesUp(events[k], deadline) && Upgraded !in events[..k]
  }

  lemma LateUnfolds(events: seq<Event>, deadline: int)
    requires events != []
    ensures Late(events, deadline) <==> GivesUp(events[0], deadline) || (events[0] != Upgraded && Late(events[1..], deadline))
  {
    var rest := events[1..];
    if events[0] != Upgraded && Late(rest, deadline) {
      var k :| 0 <= k < |rest| && GivesUp(rest[k], deadline) && Upgraded !in rest[..k];
      assert events[..k + 1] == [events[0]] + rest[..k] && events[k + 1] == rest[k];
    }
    if GivesUp(events[0], deadline) {
      assert events[..0] == [];
    }
    if Late(events, deadline) && !GivesUp(events[0], deadline) {
      var k :| 0 <= k < |events| && GivesUp(events[k], deadline) && Upgraded !in events[..k];
      assert events[..k] == [events[0]] + rest[..k - 1] && events[k] == rest[k - 1];
    }
  }

  lemma {:induction false} RunLogon(cfg: Config, s: Sys, events: seq<Event>)
    requires Inv(cfg, s) && s.fault == NoFault && s.dc.phase != CLOSED && Valid(cfg, s, events) && InSession(events)
    ensures var t := Run(cfg, s, events);
      t.fault == NoFault ==>
        (t.dc.closing <==> s.dc.closing || (s.dc.phase == CONNECTED && Late(events, s.dc.logonTimeout)))
    decreases |events|
  {
    if events != [] {
      var e, t := events[0], Step(cfg, s, events[0]);
      assert e in events && forall x | x in events[1..] :: x in events;
      StepKeeps(cfg, s, e);
      LateUnfolds(events, s.dc.logonTimeout);
      if !e.Upgraded? {
        StepLogon(cfg, s, e);
      }
      if t.fault == NoFault {
        RunLogon(cfg, t, events[1..]);
      } else {
        FaultStays(cfg, t, events[1..]);
      }
    }
  }

  /** A connection is given up exactly by a tick that comes more than the request timeout
      after the connect and before the socket is upgraded; once it is, no tick gives it up,
      even if the welcome never comes. The sum is not zero, which would mean no deadline. */
  lemma LogonDeadlineExact(cfg: Config, s: Sys, now: int, events: seq<Event>)
    requires Reachable(cfg, s) && s.fault == NoFault && Valid(cfg, s, [Connected(now)] + events) && InSession(events)
    requires now + cfg.requestTimeout != 0
    ensures var t := Run(cfg, s, [Connected(now)] + events);
      t.fault == NoFault ==>
        (t.dc.closing <==>
          exists k :: 0 <= k < |events| && events[k].Timer? && events[k].now > now + cfg.requestTimeout && Upgraded !in events[..k])
  {
    JointInvariant(cfg, s);
    ReachableNotClosing(cfg, s);
    var all := [Connected(now)] + events;
    assert all[0] == Connected(now) && all[1..] == events;
    var c := Step(cfg, s, Connected(now));
    StepKeeps(cfg, s, Connected(now));
    RunLogon(cfg, c, events);
    LateExact(events, now + cfg.requestTimeout);
  }

  lemma LateExact(events: seq<Event>, deadline: int)
    requires deadline != 0
    ensures Late(events, deadline) <==>
      exists k :: 0 <= k < |events| && events[k].Timer? && events[k].now > deadline && Upgraded !in events[..k]
  {
    if k :| 0 <= k < |events| && events[k].Timer? && events[k].now > deadline && Upgraded !in events[..k] {
      assert GivesUp(events[k], deadline);
    }
  }
}
