/** The published status of the drop-copy stream told by its ladder and by whether it was ever
    dropped, and its pings by the last one of the session. */
module AccountStatus {
  import opened AccountTypes
  import opened AccountSpec
  import opened AccountInvariant
  import opened AccountSteps
  import opened AccountLadder
  import opened AccountToken
  import opened AccountSends

  // ---- what the ladder publishes

  function Published(ladder: State): Status { if ladder == DONE then READY else DOWNLOADING }

  predicate SamePings(dc: DropCopyState, dc': DropCopyState) {
    dc'.nextPing == dc.nextPing && dc'.pings == dc.pings && dc'.phase == dc.phase
  }

  lemma StopPublishes(cfg: Config, a: Acct, s: State)
    requires s != UNDEFINED && (s == DONE || !Skips(cfg, a.rq, s))
    ensures var dc := Climb(cfg, a, s).dc; dc.ladder == s && dc.status == Published(s) && SamePings(a.dc, dc)
  {
  }

  lemma {:induction false} ClimbPublishes(cfg: Config, a: Acct, s: State)
    requires s != UNDEFINED
    ensures var dc := Climb(cfg, a, s).dc;
      dc.ladder != UNDEFINED && dc.status == Published(dc.ladder) && SamePings(a.dc, dc)
    decreases 10 - Index(s)
  {
    if s != DONE && Skips(cfg, a.rq, s) {
      ClimbPublishes(cfg, Note(a.(dc := a.dc.(ladder := s)), [Skipped(s)]), Next(s));
    } else {
      StopPublishes(cfg, a, s);
    }
  }

  /** The ladder has published what it is at, or nothing happened. */
  predicate Publishes(dc: DropCopyState, dc': DropCopyState) {
    && SamePings(dc, dc')
    && ((dc'.ladder == dc.ladder && dc'.status == dc.status)
        || (dc.ladder != DONE && dc'.ladder != UNDEFINED && dc'.status == Published(dc'.ladder)))
  }

  lemma CheckPublishes(cfg: Config, a: Acct, id: State)
    ensures Publishes(a.dc, Check(cfg, a, id).dc)
  {
    if id == a.dc.ladder && Active(id) {
      ClimbPublishes(cfg, Note(a, [Completed(id)]), Next(id));
    }
  }

  lemma QueuePublishes(cfg: Config, a: Acct, orders: seq<Key>)
    ensures Publishes(a.dc, CheckRequestQueue(cfg, a, orders).dc)
  {
    var s := a.dc.ladder;
    if IsGet(s) && a.rq.Get(KindOf(s)).response {
      var a1 := a.(rq := a.rq.Put(KindOf(s), a.rq.Get(KindOf(s)).Consume()));
      CheckPublishes(cfg, if s == GET_OPEN_ORDERS then a1.(rq := a1.rq.Scan(orders)) else a1, s);
    }
  }

  // ---- the state

  /** A ladder that is going on is DOWNLOADING, one that is done READY; the next ping is due
      150 nanoseconds after the last one of the session, the first one at once. */
  predicate StatusOk(dc: DropCopyState) {
    && (dc.ladder == UNDEFINED ==> dc.status == UNSET || dc.status == DISCONNECTED)
    && (dc.ladder != UNDEFINED ==> dc.status == Published(dc.ladder))
    && dc.nextPing == (if dc.pings == [] then 0 else dc.pings[|dc.pings| - 1] + 150)
    && (dc.phase == CLOSED ==> dc.pings == [])
    && (dc.ladder != DONE ==> dc.pings == [])
  }

  lemma PublishesKeeps(dc: DropCopyState, dc': DropCopyState)
    requires StatusOk(dc) && Publishes(dc, dc')
    ensures StatusOk(dc')
  {
  }

  lemma TimerStatus(cfg: Config, a: Acct, now: int, orders: seq<Key>)
    requires StatusOk(a.dc)
    ensures StatusOk(OnTimer(cfg, a, now, orders).dc)
  {
    if a.dc.phase == UPGRADED {
      var b := CheckRequestQueue(cfg, a, orders);
      QueuePublishes(cfg, a, orders);
      PublishesKeeps(a.dc, b.dc);
      WhenReadyStream(cfg, b, now, orders);
      PingOnly(cfg, b, now, orders);
      if b.dc.status == READY {
        PingKeeps(b.dc, now);
      }
    }
  }

  lemma PingKeeps(dc: DropCopyState, now: int)
    requires StatusOk(dc) && dc.phase != CLOSED && dc.ladder == DONE
    ensures StatusOk(CheckPing(dc, now))
  {
  }

  lemma StepStatus(cfg: Config, s: Sys, e: Event)
    requires Inv(cfg, s) && StatusOk(s.dc) && Enabled(s, e)
    ensures StatusOk(Step(cfg, s, e).dc)
  {
    var a := Acct(s.dc, s.rq, s.fault);
    if s.fault != NoFault {
    } else if e.Welcome? {
      ClimbPublishes(cfg, a.(dc := a.dc.(welcome := true)), SUBSCRIBE_BALANCES);
    } else if e.Ack? && e.id.Some? {
      StepAck(cfg, s, e.id.value);
      CheckPublishes(cfg, a, e.id.value);
      PublishesKeeps(s.dc, Step(cfg, s, e).dc);
    } else if e.Timer? {
      StepTimer(cfg, s, e.now, e.orders);
      TimerStatus(cfg, a, e.now, e.orders);
    } else {
      OtherStatus(cfg, s, e);
    }
  }

  lemma OtherStatus(cfg: Config, s: Sys, e: Event)
    requires StatusOk(s.dc) && !e.Welcome? && !e.Timer? && !(e.Ack? && e.id.Some?)
    ensures StatusOk(Step(cfg, s, e).dc)
  {
  }

  lemma {:induction false} RunStatus(cfg: Config, s: Sys, events: seq<Event>)
    requires Inv(cfg, s) && StatusOk(s.dc) && Valid(cfg, s, events)
    ensures StatusOk(Run(cfg, s, events).dc)
    decreases |events|
  {
    if events != [] {
      StepStatus(cfg, s, events[0]);
      StepKeeps(cfg, s, events[0]);
      RunStatus(cfg, Step(cfg, s, events[0]), events[1..]);
    }
  }

  // ---- DISCONNECTED means dropped

  /** A ladder that has not started is UNSET until the first disconnect. */
  predicate DroppedOk(s: Sys, dropped: bool) {
    && (s.dc.ladder == UNDEFINED ==> s.dc.status == if dropped then DISCONNECTED else UNSET)
    && (!s.dc.created ==> !dropped)
  }

  lemma StepDropped(cfg: Config, s: Sys, e: Event, dropped: bool)
    requires Inv(cfg, s) && s.fault == NoFault && DroppedOk(s, dropped) && Enabled(s, e)
    ensures DroppedOk(Step(cfg, s, e), dropped || e == Disconnected)
  {
    var a := Acct(s.dc, s.rq, s.fault);
    if s.dc.created {
      CreatedStays(cfg, s, e);
    }
    if e.Welcome? {
      ClimbPublishes(cfg, a.(dc := a.dc.(welcome := true)), SUBSCRIBE_BALANCES);
    } else if e.Ack? && e.id.Some? {
      StepAck(cfg, s, e.id.value);
      CheckPublishes(cfg, a, e.id.value);
    } else if e.Timer? {
      StepTimer(cfg, s, e.now, e.orders);
      QueuePublishes(cfg, a, e.orders);
      WhenReadyStream(cfg, CheckRequestQueue(cfg, a, e.orders), e.now, e.orders);
    } else {
      OtherDropped(cfg, s, e, dropped);
    }
  }

  lemma OtherDropped(cfg: Config, s: Sys, e: Event, dropped: bool)
    requires Inv(cfg, s) && s.fault == NoFault && DroppedOk(s, dropped) && Enabled(s, e)
    requires !e.Welcome? && !e.Timer? && !(e.Ack? && e.id.Some?)
    ensures DroppedOk(Step(cfg, s, e), dropped || e == Disconnected)
  {
  }

  lemma {:induction false} RunDropped(cfg: Config, s: Sys, events: seq<Event>, dropped: bool)
    requires Inv(cfg, s) && s.fault == NoFault && DroppedOk(s, dropped) && Valid(cfg, s, events)
    ensures var t := Run(cfg, s, events); t.fault == NoFault ==> DroppedOk(t, dropped || Disconnected in events)
    decreases |events|
  {
    if events != [] {
      var e, t := events[0], Step(cfg, s, events[0]);
      StepDropped(cfg, s, e, dropped);
      StepKeeps(cfg, s, e);
      assert events == [e] + events[1..];
      if t.fault == NoFault {
        RunDropped(cfg, t, events[1..], dropped || e == Disconnected);
      } else {
        FaultStays(cfg, t, events[1..]);
      }
    }
  }

  // ---- results

  /** Over every run the published status is READY exactly if the ladder is done, DOWNLOADING
      exactly if it is going on, and before it starts DISCONNECTED exactly if the stream was
      ever dropped. */
  lemma StatusExact(cfg: Config, events: seq<Event>)
    requires Valid(cfg, INIT, events) && Run(cfg, INIT, events).fault == NoFault
    ensures var dc := Run(cfg, INIT, events).dc;
      dc.status ==
        if dc.ladder == DONE then READY
        else if dc.ladder != UNDEFINED then DOWNLOADING
        else if Disconnected in events then DISCONNECTED
        else UNSET
  {
    InitHolds(cfg);
    RunStatus(cfg, INIT, events);
    RunDropped(cfg, INIT, events, false);
  }

  /** A tick that finds the stream ready pings unless the last ping of the session is at most
      150 nanoseconds back; the first of a session always does, at a positive time. */
  lemma ReadyTickPingsExact(cfg: Config, s: Sys, now: int, orders: seq<Key>)
    requires Reachable(cfg, s) && s.fault == NoFault && s.dc.status == READY && now > 0
    ensures Step(cfg, s, Timer(now, orders)).dc.pings ==
      s.dc.pings + if s.dc.pings != [] && now <= s.dc.pings[|s.dc.pings| - 1] + 150 then [] else [now]
  {
    JointInvariant(cfg, s);
    var events :| Valid(cfg, INIT, events) && Run(cfg, INIT, events) == s;
    InitHolds(cfg);
    RunStatus(cfg, INIT, events);
    ReadyTickPings(cfg, s, now, orders);
  }

  /** Between sessions there are no pings, so each session starts with its first. */
  lemma NoPingsBetween(cfg: Config, s: Sys)
    requires Reachable(cfg, s) && s.dc.phase == CLOSED
    ensures s.dc.pings == []
  {
    var events :| Valid(cfg, INIT, events) && Run(cfg, INIT, events) == s;
    InitHolds(cfg);
    RunStatus(cfg, INIT, events);
  }

  /** The tick in which the ladder gets done already pings: the ready part of a tick comes
      after its poll. */
  lemma FinishingTickPings(cfg: Config, s: Sys, now: int, orders: seq<Key>)
    requires Reachable(cfg, s) && s.fault == NoFault && s.dc.status != READY && now > 0
    ensures var t := Step(cfg, s, Timer(now, orders)); t.fault == NoFault && t.dc.status == READY ==> t.dc.pings == [now]
  {
    JointInvariant(cfg, s);
    var events :| Valid(cfg, INIT, events) && Run(cfg, INIT, events) == s;
    InitHolds(cfg);
    RunStatus(cfg, INIT, events);
    var a := Acct(s.dc, s.rq, s.fault);
    var b := CheckRequestQueue(cfg, a, orders);
    StepTimer(cfg, s, now, orders);
    QueuePublishes(cfg, a, orders);
    WhenReadyStream(cfg, b, now, orders);
    PingOnly(cfg, b, now, orders);
  }
}
