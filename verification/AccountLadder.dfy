/** The download ladder over whole runs: what one session of the drop-copy stream does,
    in which order, and that it makes progress. */
module AccountLadder {
  import opened AccountTypes
  import opened Wrappers
  import opened AccountSpec
  import opened AccountInvariant
  import opened AccountSteps

  // ---- order of the steps

  function SubscriptionOf(k: Kind): State {
    match k
    case BALANCES => SUBSCRIBE_BALANCES
    case POSITIONS => SUBSCRIBE_POSITIONS
    case OPEN_ORDERS => SUBSCRIBE_ORDERS
    case TRADES => SUBSCRIBE_TRADES
    case _ => SUBSCRIBE_ORDERS  // stale orders are asked for after the open orders
  }

  function GetOf(k: Kind): State {
    match k
    case BALANCES => GET_BALANCES
    case POSITIONS => GET_POSITIONS
    case OPEN_ORDERS => GET_OPEN_ORDERS
    case STALE_ORDERS => GET_STALE_ORDERS
    case TRADES => GET_TRADES
    case TOKEN => UNDEFINED
  }

  /** Every slot is marked pending after the acknowledged subscription it belongs to. */
  ghost predicate SubscribedFirst(trace: seq<Mark>) {
    forall i | 0 <= i < |trace| && trace[i].Requested? ::
      Completed(SubscriptionOf(trace[i].kind)) in trace[..i]
  }

  ghost predicate PublishedLast(trace: seq<Mark>) {
    |trace| > 0 && trace[|trace| - 1] == PublishedReady && NotPublished(trace[..|trace| - 1])
  }

  ghost predicate NotPublished(trace: seq<Mark>) {
    forall i | 0 <= i < |trace| :: trace[i] != PublishedReady
  }

  lemma BlockOrdered(p: State, head: seq<Mark>)
    requires Active(p) && SubscribedFirst(head) && NotPublished(head)
    requires IsGet(p) ==> Completed(SubscriptionOf(KindOf(p))) in head
    ensures SubscribedFirst(head + Block(p)) && NotPublished(head + Block(p))
    ensures SubscribedFirst(head + (Block(p) + [Completed(p)])) && NotPublished(head + (Block(p) + [Completed(p)]))
    ensures Completed(p) in head + (Block(p) + [Completed(p)])
  {
    AppendOrdered(head, Block(p));
    AppendOrdered(head, Block(p) + [Completed(p)]);
    assert (head + (Block(p) + [Completed(p)]))[|head| + 2] == Completed(p);
  }

  lemma SubscriptionEarlier(p: State)
    requires IsGet(p)
    ensures 0 < Index(SubscriptionOf(KindOf(p))) < Index(p) && SubscriptionOf(KindOf(p)) !in SKIPPABLE
  {
  }

  lemma {:induction false} CompletedBefore(s: State, skips: set<State>, p: State)
    requires s != UNDEFINED && 0 < Index(p) < Index(s) && p !in skips
    ensures Completed(p) in Before(s, skips)
    decreases Index(s)
  {
    var q := Prev(s);
    if p == q {
      assert (Block(q) + [Completed(q)])[2] == Completed(q);
    } else {
      SameIndex(p, q);
      CompletedBefore(q, skips, p);
    }
  }

  lemma SameIndex(p: State, q: State)
    ensures Index(p) == Index(q) ==> p == q
  {
  }

  lemma {:induction false} BeforeOrdered(s: State, skips: set<State>)
    requires s != UNDEFINED && skips <= SKIPPABLE
    ensures SubscribedFirst(Before(s, skips)) && NotPublished(Before(s, skips))
    decreases Index(s)
  {
    if s != SUBSCRIBE_BALANCES {
      var p := Prev(s);
      BeforeOrdered(p, skips);
      if p in skips {
        AppendOrdered(Before(p, skips), [Skipped(p)]);
      } else {
        if IsGet(p) {
          SubscriptionEarlier(p);
          CompletedBefore(p, skips, SubscriptionOf(KindOf(p)));
        }
        BlockOrdered(p, Before(p, skips));
      }
    }
  }

  lemma AppendOrdered(head: seq<Mark>, tail: seq<Mark>)
    requires SubscribedFirst(head)
    requires forall i | 0 <= i < |tail| && tail[i].Requested? :: Completed(SubscriptionOf(tail[i].kind)) in head
    ensures SubscribedFirst(head + tail)
  {
    var t := head + tail;
    forall i | 0 <= i < |t| && t[i].Requested? ensures Completed(SubscriptionOf(t[i].kind)) in t[..i] {
      if i < |head| {
        assert t[..i] == head[..i];
      } else {
        assert t[..i] == head + tail[..i - |head|];
      }
    }
  }

  lemma TranscriptOrdered(s: State, skips: set<State>)
    requires skips <= SKIPPABLE
    ensures SubscribedFirst(Transcript(s, skips))
    ensures s != DONE ==> NotPublished(Transcript(s, skips))
    ensures s == DONE ==> PublishedLast(Transcript(s, skips))
  {
    if s != UNDEFINED {
      var head := Before(s, skips);
      BeforeOrdered(s, skips);
      if s == DONE {
        AppendOrdered(head, [PublishedReady]);
        assert (head + [PublishedReady])[..|head|] == head;
      } else {
        if IsGet(s) {
          SubscriptionEarlier(s);
          CompletedBefore(s, skips, SubscriptionOf(KindOf(s)));
        }
        BlockOrdered(s, head);
      }
    }
  }

  lemma TranscriptCompletes(s: State, skips: set<State>, p: State)
    requires 0 < Index(p) < Index(s) && p !in skips
    ensures Completed(p) in Transcript(s, skips)
  {
    CompletedBefore(s, skips, p);
  }

  /** In every reachable state the flag `ready_` agrees with the published status, the
      session has done exactly the transcript of its ladder state (every earlier state in
      enum order, only the two optional ones passed over, and trades only without a
      configured lookback), each slot was marked pending after its acknowledged
      subscription, and READY was published once, last, when and only when the ladder is
      done. When the requests themselves go out is another matter (`AccountSends`). */
  lemma DownloadTraceSafety(cfg: Config, s: Sys)
    requires Reachable(cfg, s) && s.fault == NoFault
    ensures s.dc.ready <==> s.dc.status == READY
    ensures exists skips: set<State> ::
      && skips <= {GET_STALE_ORDERS, GET_TRADES}
      && (cfg.tradesLookback ==> GET_TRADES !in skips)
      && s.dc.trace == Transcript(s.dc.ladder, skips)
      && forall p | 0 < Index(p) < Index(s.dc.ladder) && p !in skips :: Completed(p) in s.dc.trace
    ensures SubscribedFirst(s.dc.trace)
    ensures s.dc.status != READY ==> NotPublished(s.dc.trace)
    ensures s.dc.status == READY ==> s.dc.ladder == DONE && PublishedLast(s.dc.trace)
  {
    JointInvariant(cfg, s);
    var skips: set<State> :| SkipsOk(cfg, skips) && s.dc.trace == Transcript(s.dc.ladder, skips);
    TranscriptOrdered(s.dc.ladder, skips);
    forall p | 0 < Index(p) < Index(s.dc.ladder) && p !in skips ensures Completed(p) in s.dc.trace {
      TranscriptCompletes(s.dc.ladder, skips, p);
    }
  }

  // ---- where the ladder lands

  /** The first state from `s` on that is not passed over. */
  function Landing(cfg: Config, rq: Requests, s: State): State {
    if s == GET_STALE_ORDERS && rq.details == {} then SUBSCRIBE_TRADES
    else if s == GET_TRADES && !cfg.tradesLookback then DONE
    else s
  }

  lemma {:induction false} ClimbLands(cfg: Config, a: Acct, s: State)
    requires s != UNDEFINED
    ensures var t := Landing(cfg, a.rq, s);
      && Climb(cfg, a, s).dc.ladder == t
      && Climb(cfg, a, s).rq == (if IsGet(t) then a.rq.Put(KindOf(t), a.rq.Get(KindOf(t)).Request()) else a.rq)
      && Index(s) <= Index(t)
    decreases 10 - Index(s)
  {
    if s != DONE && Skips(cfg, a.rq, s) {
      ClimbLands(cfg, Note(a.(dc := a.dc.(ladder := s)), [Skipped(s)]), Next(s));
    }
  }

  // ---- progress

  /** The events that answer what the current ladder state waits for. */
  predicate Matching(s: Sys, e: Event) {
    || (e.Ack? && e.id == Some(s.dc.ladder) && Active(s.dc.ladder))
    || (e.Timer? && s.dc.phase == UPGRADED && IsGet(s.dc.ladder) && s.rq.Get(KindOf(s.dc.ladder)).response)
  }

  /** Within a session a matching answer moves the ladder up, anything else (duplicate or
      foreign acknowledgements included) leaves it where it is. */
  lemma StepProgress(cfg: Config, s: Sys, e: Event)
    requires Inv(cfg, s) && s.fault == NoFault && Enabled(s, e) && s.dc.welcome && e != Disconnected
    ensures var t := Step(cfg, s, e);
      t.fault == NoFault ==>
        && t.dc.welcome
        && (Matching(s, e) ==> Index(t.dc.ladder) > Index(s.dc.ladder))
        && (!Matching(s, e) ==> t.dc.ladder == s.dc.ladder)
  {
    var a := Acct(s.dc, s.rq, s.fault);
    if e.Ack? && e.id.Some? {
      StepAck(cfg, s, e.id.value);
      AckLands(cfg, a, e.id.value);
    } else if e.Timer? {
      StepTimer(cfg, s, e.now, e.orders);
      TimerLands(cfg, a, e.now, e.orders);
    } else {
      LadderStays(cfg, s, e);
    }
  }

  lemma LadderStays(cfg: Config, s: Sys, e: Event)
    requires Inv(cfg, s) && s.fault == NoFault && Enabled(s, e) && s.dc.welcome && e != Disconnected
    requires !e.Timer? && !(e.Ack? && e.id.Some?)
    ensures Step(cfg, s, e).dc.welcome && Step(cfg, s, e).dc.ladder == s.dc.ladder
  {
  }

  lemma AckLands(cfg: Config, a: Acct, id: State)
    requires a.dc.welcome
    ensures Check(cfg, a, id).dc.welcome
    ensures if Active(id) && id == a.dc.ladder
      then Index(Check(cfg, a, id).dc.ladder) > Index(id)
      else Check(cfg, a, id) == a
  {
    if Active(id) {
      ClimbLands(cfg, Note(a, [Completed(id)]), Next(id));
      ClimbShape(cfg, Note(a, [Completed(id)]), Next(id));
    }
  }

  lemma TimerLands(cfg: Config, a: Acct, now: int, orders: seq<Key>)
    requires a.dc.welcome && a.fault == NoFault
    ensures var b := OnTimer(cfg, a, now, orders);
      b.fault == NoFault ==>
        && b.dc.welcome
        && if a.dc.phase == UPGRADED && IsGet(a.dc.ladder) && a.rq.Get(KindOf(a.dc.ladder)).response
           then Index(b.dc.ladder) > Index(a.dc.ladder)
           else b.dc.ladder == a.dc.ladder
  {
    TickLands(cfg, a, orders);
    var b := CheckRequestQueue(cfg, a, orders);
    WhenReadyStream(cfg, b, now, orders);
  }

  /** Polling in a session: where the ladder goes and what happens to the slots. */
  lemma TickLands(cfg: Config, a: Acct, orders: seq<Key>)
    ensures var b := CheckRequestQueue(cfg, a, orders);
      var s := a.dc.ladder;
      if !IsGet(s) || !a.rq.Get(KindOf(s)).response then b == a
      else
        var rq := a.rq.Put(KindOf(s), a.rq.Get(KindOf(s)).Consume());
        var rq1 := if s == GET_OPEN_ORDERS then rq.Scan(orders) else rq;
        if s == GET_STALE_ORDERS && rq.details != {} then b.fault == UnexpectedStale
        else
          var t := Landing(cfg, rq1, Next(s));
          && b.dc.ladder == t && Index(t) > Index(s) && b.dc.welcome == a.dc.welcome
          && b.rq == (if IsGet(t) then rq1.Put(KindOf(t), rq1.Get(KindOf(t)).Request()) else rq1)
  {
    var s := a.dc.ladder;
    if IsGet(s) && a.rq.Get(KindOf(s)).response {
      var a1 := a.(rq := a.rq.Put(KindOf(s), a.rq.Get(KindOf(s)).Consume()));
      var a2 := if s == GET_OPEN_ORDERS then a1.(rq := a1.rq.Scan(orders)) else a1;
      CheckLands(cfg, a2, s);
    }
  }

  lemma CheckLands(cfg: Config, a: Acct, s: State)
    requires s == a.dc.ladder && Active(s)
    ensures var b := Check(cfg, a, s);
      var t := Landing(cfg, a.rq, Next(s));
      && b.dc.ladder == t && Index(t) > Index(s) && b.dc.welcome == a.dc.welcome
      && b.rq == (if IsGet(t) then a.rq.Put(KindOf(t), a.rq.Get(KindOf(t)).Request()) else a.rq)
  {
    ClimbLands(cfg, Note(a, [Completed(s)]), Next(s));
    ClimbShape(cfg, Note(a, [Completed(s)]), Next(s));
  }

  /** Nothing out of the ordinary: every download is answered by a network failure, the
      server raises no error, and every connect and tick comes at the same time. */
  predicate Tame(events: seq<Event>, now: int) { forall e | e in events :: TameEvent(e, now) }

  predicate TameEvent(e: Event, now: int) {
    && (e.Answer? ==> e.response == NetworkFailure) && !e.TokenExpired?
    && (e.Connected? ==> e.now == now) && (e.Timer? ==> e.now == now)
  }

  predicate InSession(events: seq<Event>) { forall e | e in events :: e != Disconnected }

  function Matches(cfg: Config, s: Sys, events: seq<Event>): nat
    decreases |events|
  {
    if events == [] then 0
    else (if Matching(s, events[0]) then 1 else 0) + Matches(cfg, Step(cfg, s, events[0]), events[1..])
  }

  /** A session without disconnect climbs at least one state per matching answer, so it
      sees at most nine of them, and nine always suffice to reach DONE. */
  lemma {:induction false} DownloadProgress(cfg: Config, s: Sys, events: seq<Event>)
    requires Inv(cfg, s) && s.fault == NoFault && s.dc.welcome
    requires Valid(cfg, s, events) && InSession(events) && Run(cfg, s, events).fault == NoFault
    ensures Index(Run(cfg, s, events).dc.ladder) >= Index(s.dc.ladder) + Matches(cfg, s, events)
    ensures Matches(cfg, s, events) <= 10 - Index(s.dc.ladder)
    ensures Matches(cfg, s, events) == 10 - Index(s.dc.ladder) ==> Run(cfg, s, events).dc.ladder == DONE
    decreases |events|
  {
    if events != [] {
      var t := Step(cfg, s, events[0]);
      StepKeeps(cfg, s, events[0]);
      FaultStays(cfg, t, events[1..]);
      assert events[0] in events && forall e | e in events[1..] :: e in events;
      StepProgress(cfg, s, events[0]);
      DownloadProgress(cfg, t, events[1..]);
    }
  }

  lemma {:induction false} FaultStays(cfg: Config, s: Sys, events: seq<Event>)
    ensures s.fault != NoFault ==> Run(cfg, s, events) == s
    decreases |events|
  {
    if events != [] && s.fault != NoFault {
      FaultStays(cfg, s, events[1..]);
    }
  }
}
