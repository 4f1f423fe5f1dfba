/** When the REST stream sends a download, measured against the acknowledgements of the
    session: a slot that was marked pending in an earlier session is served at once. */
module AccountSends {
  import opened AccountTypes
  import opened Wrappers
  import opened AccountSpec
  import opened AccountInvariant
  import opened AccountSteps
  import opened AccountLadder
  import opened AccountEffects
  import opened AccountStale
  import opened AccountSession
  import opened AccountToken
  import opened AccountScript

  // ---- acknowledged means that the ladder has gone on

  lemma {:induction false} CompletedEarlier(s: State, skips: set<State>, p: State)
    requires s != UNDEFINED && Completed(p) in Before(s, skips)
    ensures Index(p) < Index(s)
    decreases Index(s)
  {
    if s != SUBSCRIBE_BALANCES {
      var q := Prev(s);
      if Completed(p) in Before(q, skips) {
        CompletedEarlier(q, skips, p);
      } else {
        CompletedLast(q, skips, p);
      }
    }
  }

  lemma CompletedLast(q: State, skips: set<State>, p: State)
    requires Completed(p) in if q in skips then [Skipped(q)] else Block(q) + [Completed(q)]
    ensures p == q
  {
  }

  lemma AckedExact(cfg: Config, dc: DropCopyState, k: Kind)
    requires StreamOk(cfg, dc) && Plain(k)
    ensures Completed(SubscriptionOf(k)) in dc.trace <==> Index(dc.ladder) >= Index(GetOf(k))
  {
    var skips: set<State> :| SkipsOk(cfg, skips) && dc.trace == Transcript(dc.ladder, skips);
    var p := SubscriptionOf(k);
    assert Index(GetOf(k)) == Index(p) + 1 && p !in SKIPPABLE;
    if Index(dc.ladder) >= Index(GetOf(k)) {
      TranscriptCompletes(dc.ladder, skips, p);
    } else if Completed(p) in dc.trace {
      assert Completed(p) in Before(dc.ladder, skips);
      CompletedEarlier(dc.ladder, skips, p);
    }
  }

  // ---- one event

  lemma ReadyLeavesSlots(cfg: Config, a: Acct, now: int, orders: seq<Key>, k: Kind)
    requires Plain(k)
    ensures WhenReady(cfg, a, now, orders).rq.Get(k) == a.rq.Get(k)
  {
  }

  /** The ladder does not go down, and it marks a slot pending only when it gets there. */
  predicate Climbed(s: Sys, t: Sys, k: Kind) {
    && Index(t.dc.ladder) >= Index(s.dc.ladder)
    && (Index(t.dc.ladder) < Index(GetOf(k)) && t.rq.Get(k).pending ==> s.rq.Get(k).pending)
  }

  lemma AckClimbs(cfg: Config, s: Sys, id: State, k: Kind)
    requires s.fault == NoFault && Plain(k)
    ensures Climbed(s, Step(cfg, s, Ack(Some(id))), k)
  {
    var a := Acct(s.dc, s.rq, s.fault);
    StepAck(cfg, s, id);
    if id == s.dc.ladder && Active(id) {
      CheckClimbs(cfg, a, id, k);
    }
  }

  lemma MarksWhereItLands(rq: Requests, t: State, k: Kind)
    requires Plain(k)
    ensures IsGet(t) && Index(t) < Index(GetOf(k)) ==> rq.Put(KindOf(t), rq.Get(KindOf(t)).Request()).Get(k) == rq.Get(k)
  {
  }

  lemma PollClimbs(cfg: Config, s: Sys, now: int, orders: seq<Key>, k: Kind)
    requires s.fault == NoFault && Plain(k)
    ensures Climbed(s, Step(cfg, s, Timer(now, orders)), k)
  {
    var a := Acct(s.dc, s.rq, s.fault);
    var b := CheckRequestQueue(cfg, a, orders);
    StepTimer(cfg, s, now, orders);
    QueueClimbs(cfg, a, orders, k);
    WhenReadyStream(cfg, b, now, orders);
    ReadyLeavesSlots(cfg, b, now, orders, k);
  }

  lemma QueueClimbs(cfg: Config, a: Acct, orders: seq<Key>, k: Kind)
    requires Plain(k) && a.fault == NoFault
    ensures var b := CheckRequestQueue(cfg, a, orders);
      && Index(b.dc.ladder) >= Index(a.dc.ladder)
      && (Index(b.dc.ladder) < Index(GetOf(k)) && b.rq.Get(k).pending ==> a.rq.Get(k).pending)
  {
    var s := a.dc.ladder;
    if IsGet(s) && a.rq.Get(KindOf(s)).response {
      var a1 := a.(rq := a.rq.Put(KindOf(s), a.rq.Get(KindOf(s)).Consume()));
      var a2 := if s == GET_OPEN_ORDERS then a1.(rq := a1.rq.Scan(orders)) else a1;
      ConsumedPending(a.rq, KindOf(s), k);
      CheckClimbs(cfg, a2, s, k);
    }
  }

  lemma ConsumedPending(rq: Requests, j: Kind, k: Kind)
    ensures rq.Put(j, rq.Get(j).Consume()).Get(k).pending == rq.Get(k).pending
  {
  }

  lemma CheckClimbs(cfg: Config, a: Acct, s: State, k: Kind)
    requires s == a.dc.ladder && Active(s) && Plain(k)
    ensures var b := Check(cfg, a, s);
      && Index(b.dc.ladder) >= Index(s)
      && (Index(b.dc.ladder) < Index(GetOf(k)) && b.rq.Get(k).pending ==> a.rq.Get(k).pending)
  {
    CheckLands(cfg, a, s);
    MarksWhereItLands(a.rq, Check(cfg, a, s).dc.ladder, k);
  }

  predicate Unsent(s: Sys, t: Sys, k: Kind) { Climbed(s, t, k) && t.rest.sent[k] == s.rest.sent[k] }

  lemma TokenClimbs(cfg: Config, s: Sys, e: Event, k: Kind)
    requires s.fault == NoFault && s.dc.created && Plain(k) && e.TokenAnswer?
    ensures Unsent(s, Step(cfg, s, e), k)
  {
  }

  lemma AnswerClimbs(cfg: Config, s: Sys, e: Event, k: Kind)
    requires s.fault == NoFault && Plain(k) && ((e.Answer? && Plain(e.kind)) || e.OrderAnswer?)
    ensures Unsent(s, Step(cfg, s, e), k)
  {
  }

  lemma ConnectionClimbs(cfg: Config, s: Sys, e: Event, k: Kind)
    requires s.fault == NoFault && Plain(k) && (e.RestConnected? || e.RestDisconnected? || e.RestRetry?)
    ensures Unsent(s, Step(cfg, s, e), k)
  {
  }

  /** A tick sends a plain download only from a pending slot of a master account. */
  lemma TickSends(cfg: Config, s: Sys, grants: set<Kind>, known: set<Key>, k: Kind)
    requires s.fault == NoFault && Plain(k)
    ensures var t := Step(cfg, s, RestTimer(grants, known));
      && Climbed(s, t, k)
      && (!cfg.master || !s.rq.Get(k).pending ==> t.rest.sent[k] == s.rest.sent[k])
  {
    var x := Side(s.rest, s.rq, s.fault);
    TickStartsOne(cfg, x, grants, known);
    match Chosen(cfg, x, grants) {
      case None =>
      case Some(j) => StartSends(x, j, known, k);
    }
  }

  lemma StartSends(x: Side, j: Kind, known: set<Key>, k: Kind)
    requires Plain(k)
    ensures var y := Start(x, j, known);
      && (y.rq.Get(k).pending ==> x.rq.Get(k).pending)
      && y.rest.sent[k] == x.rest.sent[k] + One(j == k)
  {
  }

  lemma StepClimbs(cfg: Config, s: Sys, e: Event, k: Kind)
    requires Inv(cfg, s) && s.fault == NoFault && s.dc.created && Enabled(s, e) && e != Disconnected && Plain(k)
    ensures var t := Step(cfg, s, e);
      && Climbed(s, t, k) && t.dc.created
      && (!cfg.master || !s.rq.Get(k).pending ==> t.rest.sent[k] == s.rest.sent[k])
  {
    CreatedStays(cfg, s, e);
    if e.RestTimer? {
      TickSends(cfg, s, e.grants, e.known, k);
    } else if Streamed(e) {
      StreamTicks(cfg, s, e);
      StreamClimbs(cfg, s, e, k);
    } else if e.TokenAnswer? {
      TokenClimbs(cfg, s, e, k);
    } else if e.Answer? || e.OrderAnswer? {
      AnswerClimbs(cfg, s, e, k);
    } else {
      ConnectionClimbs(cfg, s, e, k);
    }
  }

  lemma StreamClimbs(cfg: Config, s: Sys, e: Event, k: Kind)
    requires Inv(cfg, s) && s.fault == NoFault && Enabled(s, e) && e != Disconnected && Plain(k) && Streamed(e)
    ensures Climbed(s, Step(cfg, s, e), k)
  {
    if e.Welcome? {
      WelcomeEnters(cfg, s);
    } else if e.Ack? && e.id.Some? {
      AckClimbs(cfg, s, e.id.value, k);
    } else if e.Timer? {
      PollClimbs(cfg, s, e.now, e.orders, k);
    } else {
      SocketClimbs(cfg, s, e, k);
    }
  }

  lemma SocketClimbs(cfg: Config, s: Sys, e: Event, k: Kind)
    requires Plain(k) && (e.Connected? || e.Upgraded? || e.TokenExpired? || (e.Ack? && e.id == None))
    ensures Climbed(s, Step(cfg, s, e), k)
  {
  }

  /** The drop-copy stream of an account stays. */
  lemma CreatedStays(cfg: Config, s: Sys, e: Event)
    requires Inv(cfg, s) && s.dc.created && Enabled(s, e)
    ensures Step(cfg, s, e).dc.created
  {
    var a := Acct(s.dc, s.rq, s.fault);
    if e.Welcome? {
      ClimbToken(cfg, a.(dc := a.dc.(welcome := true)), SUBSCRIBE_BALANCES);
    } else if e.Ack? && e.id.Some? {
      CheckToken(cfg, a, e.id.value);
    } else if e.Timer? {
      TimerCreated(cfg, a, e.now, e.orders);
    }
  }

  lemma TimerCreated(cfg: Config, a: Acct, now: int, orders: seq<Key>)
    ensures OnTimer(cfg, a, now, orders).dc.created == a.dc.created
  {
    QueueToken(cfg, a, orders);
    WhenReadyStream(cfg, CheckRequestQueue(cfg, a, orders), now, orders);
  }

  // ---- whole sessions

  lemma {:induction false} RunClimbs(cfg: Config, s: Sys, events: seq<Event>, k: Kind)
    requires Inv(cfg, s) && s.fault == NoFault && s.dc.created && Plain(k)
    requires Valid(cfg, s, events) && InSession(events) && Run(cfg, s, events).fault == NoFault
    ensures Index(Run(cfg, s, events).dc.ladder) >= Index(s.dc.ladder)
    decreases |events|
  {
    if events != [] {
      var t := Step(cfg, s, events[0]);
      assert events[0] in events && forall e | e in events[1..] :: e in events;
      StepKeeps(cfg, s, events[0]);
      FaultStays(cfg, t, events[1..]);
      StepClimbs(cfg, s, events[0], k);
      RunClimbs(cfg, t, events[1..], k);
    }
  }

  /** From a slot that is not pending nothing is sent until the ladder gets there, and
      without a master account nothing is sent at all. */
  lemma {:induction false} RunQuiet(cfg: Config, s: Sys, events: seq<Event>, k: Kind)
    requires Inv(cfg, s) && s.fault == NoFault && s.dc.created && Plain(k)
    requires Valid(cfg, s, events) && InSession(events) && Run(cfg, s, events).fault == NoFault
    requires !cfg.master || !s.rq.Get(k).pending
    requires Index(Run(cfg, s, events).dc.ladder) < Index(GetOf(k))
    ensures Run(cfg, s, events).rest.sent[k] == s.rest.sent[k]
    decreases |events|
  {
    if events != [] {
      var t := Step(cfg, s, events[0]);
      assert events[0] in events && forall e | e in events[1..] :: e in events;
      StepKeeps(cfg, s, events[0]);
      FaultStays(cfg, t, events[1..]);
      StepClimbs(cfg, s, events[0], k);
      RunClimbs(cfg, t, events[1..], k);
      RunQuiet(cfg, t, events[1..], k);
    }
  }

  /** In a session whose welcome does not find the slot of a download pending, that download
      is requested only after its subscription was acknowledged in the session. */
  lemma CleanSessionAsksAfterAck(cfg: Config, s: Sys, events: seq<Event>, k: Kind)
    requires Reachable(cfg, s) && s.fault == NoFault && Plain(k) && Enabled(s, Welcome) && !s.rq.Get(k).pending
    ensures var t := Run(cfg, s, [Welcome] + events);
      Valid(cfg, s, [Welcome] + events) && InSession(events) && t.fault == NoFault && t.rest.sent[k] > s.rest.sent[k] ==>
        Completed(SubscriptionOf(k)) in t.dc.trace
  {
    JointInvariant(cfg, s);
    var all := [Welcome] + events;
    var t := Run(cfg, s, all);
    if Valid(cfg, s, all) && InSession(events) && t.fault == NoFault {
      assert InSession(all);
      RunKeeps(cfg, s, all);
      AckedExact(cfg, t.dc, k);
      if Index(t.dc.ladder) < Index(GetOf(k)) {
        RunQuiet(cfg, s, all, k);
      }
    }
  }

  /** The session goes on from `s` to `t` and a request of this kind goes out, although its
      subscription is not acknowledged yet. */
  ghost predicate AsksEarly(cfg: Config, s: Sys, k: Kind, events: seq<Event>) {
    var t := Run(cfg, s, events);
    && Valid(cfg, s, events) && InSession(events) && t.fault == NoFault
    && Completed(SubscriptionOf(k)) !in t.dc.trace && t.rest.sent[k] > s.rest.sent[k]
  }

  /** As long as the subscription of a download is not acknowledged in the session, a request
      for it can go out before it is if and only if the account is the master, its slot is
      pending already, and no batch of unknown orders blocks it. */
  lemma AsksEarlyExact(cfg: Config, s: Sys, k: Kind, now: int)
    requires Reachable(cfg, s) && s.fault == NoFault && s.dc.created && Plain(k)
    requires Completed(SubscriptionOf(k)) !in s.dc.trace
    ensures (exists events :: AsksEarly(cfg, s, k, events)) <==> cfg.master && s.rq.Get(k).pending && !Wedged(s)
    ensures cfg.master && s.rq.Get(k).pending && !Wedged(s) ==> exists events :: AsksEarly(cfg, s, k, events) && Tame(events, now)
  {
    JointInvariant(cfg, s);
    if cfg.master && s.rq.Get(k).pending && !Wedged(s) {
      var events := EarlyRun(cfg, s, k, now);
    }
    if events :| AsksEarly(cfg, s, k, events) {
      RunKeeps(cfg, s, events);
      AckedExact(cfg, Run(cfg, s, events).dc, k);
      if Wedged(s) {
        WedgedForever(cfg, s, events);
      } else if !cfg.master || !s.rq.Get(k).pending {
        RunQuiet(cfg, s, events, k);
      }
    }
  }

  lemma TokenThere(cfg: Config, s: Sys)
    requires Reachable(cfg, s) && s.dc.created
    ensures s.rest.hasToken && !s.rest.downloading
  {
    ReachableTokenOk(cfg, s);
  }

  /** What is on the wire is answered, the REST stream connects, and the next tick sends. */
  lemma EarlyRun(cfg: Config, s: Sys, k: Kind, now: int) returns (events: seq<Event>)
    requires Reachable(cfg, s) && s.fault == NoFault && s.dc.created && Plain(k)
    requires Completed(SubscriptionOf(k)) !in s.dc.trace && cfg.master && s.rq.Get(k).pending && !Wedged(s)
    ensures AsksEarly(cfg, s, k, events) && Tame(events, now)
  {
    JointInvariant(cfg, s);
    TokenThere(cfg, s);
    ReachesSelf(cfg, s, true, now);
    var u := Settle(cfg, s, s, true, now);
    var v := Connect(cfg, s, u, true, now);
    var t := Step(cfg, v, RestTimer({k}, {}));
    LandedPending(s.rq, k);
    StartsOnly(cfg, v, k, {});
    ReachesStep(cfg, s, v, RestTimer({k}, {}), true, now);
    StartSends(Side(v.rest, v.rq, v.fault), k, {}, k);
    events :| Valid(cfg, s, events) && Tame(events, now) && InSession(events) && Run(cfg, s, events) == t;
  }

  lemma LandedPending(rq: Requests, k: Kind)
    ensures Landed(rq).Get(k).pending == rq.Get(k).pending
  {
  }
}
