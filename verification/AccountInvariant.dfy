/** The joint invariant of the drop-copy stream, the shared slots and the REST stream,
    and its preservation by every event. */
module AccountInvariant {
  import opened AccountTypes
  import opened AccountSpec

  function One(b: bool): nat { if b then 1 else 0 }

  // ---- slots and requests in flight

  function Flying(rq: Requests): nat {
    One(rq.token.inFlight) + One(rq.balances.inFlight) + One(rq.positions.inFlight)
    + One(rq.openOrders.inFlight) + One(rq.staleOrders.inFlight) + One(rq.trades.inFlight)
  }

  predicate Plain(k: Kind) { k != TOKEN && k != STALE_ORDERS }

  /** A plain download is on the wire exactly while its slot is in flight, and every
      request sent was committed or is still on the wire. */
  predicate PlainOk(rest: RestState, k: Kind, slot: Slot) {
    rest.outstanding[k] == One(slot.inFlight) && rest.sent[k] == rest.committed[k] + rest.outstanding[k]
  }

  predicate WireOk(rest: RestState, rq: Requests) {
    && PlainOk(rest, BALANCES, rq.balances)
    && PlainOk(rest, POSITIONS, rq.positions)
    && PlainOk(rest, OPEN_ORDERS, rq.openOrders)
    && PlainOk(rest, TRADES, rq.trades)
    && (rq.token.inFlight ==> rest.outstanding[TOKEN] > 0)
    && rest.counter == |rest.orders|
    && (rest.counter > 0 ==> rq.staleOrders.inFlight)
    && Flying(rq) <= 1
    && (rq.staleOrders.pending ==> rq.details != {})
  }

  predicate LedgerOk(rest: RestState, rq: Requests) {
    && rq.inserted == multiset(rq.details) + rest.dispatched + rest.unknown
    && rest.dispatched == rest.answered + rest.orders
  }

  /** Without a master account only token requests are ever made. */
  predicate MasterOk(cfg: Config, rq: Requests) {
    cfg.master || (Quiet(rq.balances) && Quiet(rq.positions) && Quiet(rq.openOrders) && Quiet(rq.staleOrders) && Quiet(rq.trades))
  }

  predicate Quiet(slot: Slot) { !slot.inFlight && !slot.response }

  // ---- the drop-copy stream

  function Block(s: State): seq<Mark> {
    [Downloading(s), if IsSubscribe(s) then Subscribed(s) else Requested(KindOf(s))]
  }

  function Prev(s: State): State
    requires Index(s) > 1
    ensures Next(Prev(s)) == s && Index(Prev(s)) == Index(s) - 1
  {
    match s
    case GET_BALANCES => SUBSCRIBE_BALANCES
    case SUBSCRIBE_POSITIONS => GET_BALANCES
    case GET_POSITIONS => SUBSCRIBE_POSITIONS
    case SUBSCRIBE_ORDERS => GET_POSITIONS
    case GET_OPEN_ORDERS => SUBSCRIBE_ORDERS
    case GET_STALE_ORDERS => GET_OPEN_ORDERS
    case SUBSCRIBE_TRADES => GET_STALE_ORDERS
    case GET_TRADES => SUBSCRIBE_TRADES
    case DONE => GET_TRADES
  }

  /** What a session has done when it enters `s`: every earlier state entered and
      completed, in enum order, where `skips` says which states were passed over. */
  function Before(s: State, skips: set<State>): seq<Mark>
    requires s != UNDEFINED
    decreases Index(s)
  {
    if s == SUBSCRIBE_BALANCES then []
    else
      var p := Prev(s);
      Before(p, skips) + if p in skips then [Skipped(p)] else Block(p) + [Completed(p)]
  }

  function Transcript(s: State, skips: set<State>): seq<Mark> {
    if s == UNDEFINED then []
    else Before(s, skips) + if s == DONE then [PublishedReady] else Block(s)
  }

  const SKIPPABLE: set<State> := {GET_STALE_ORDERS, GET_TRADES}

  predicate SkipsOk(cfg: Config, skips: set<State>) {
    skips <= SKIPPABLE && (cfg.tradesLookback ==> GET_TRADES !in skips)
  }

  ghost predicate TraceOk(cfg: Config, dc: DropCopyState) {
    exists skips: set<State> :: SkipsOk(cfg, skips) && dc.trace == Transcript(dc.ladder, skips)
  }

  ghost predicate StreamOk(cfg: Config, dc: DropCopyState) {
    && (dc.ready <==> dc.status == READY)
    && (dc.status == READY <==> dc.ladder == DONE)
    && (dc.welcome <==> dc.ladder != UNDEFINED)
    && (dc.welcome ==> dc.phase == UPGRADED)
    && (dc.phase == CLOSED ==> dc.logonTimeout == 0)
    && (dc.phase != CLOSED ==> dc.created)
    && TraceOk(cfg, dc)
  }

  ghost predicate Inv(cfg: Config, s: Sys) {
    && s.fault != UnexpectedAnswer
    && s.fault != AssertFailed
    && (s.fault == NoFault ==>
          WireOk(s.rest, s.rq) && LedgerOk(s.rest, s.rq) && MasterOk(cfg, s.rq) && StreamOk(cfg, s.dc))
  }

  // ---- the ladder keeps the stream invariant

  lemma BeforeFrame(s: State, skips: set<State>, more: set<State>)
    requires s != UNDEFINED
    requires forall p | 0 < Index(p) < Index(s) :: p in skips <==> p in more
    ensures Before(s, skips) == Before(s, more)
    decreases Index(s)
  {
    if s != SUBSCRIBE_BALANCES {
      BeforeFrame(Prev(s), skips, more);
    }
  }

  /** The stream while the ladder is about to enter `s`. */
  ghost predicate Climbing(cfg: Config, dc: DropCopyState, s: State, skips: set<State>) {
    s != UNDEFINED && SkipsOk(cfg, skips) && dc.trace == Before(s, skips)
  }

  lemma {:induction false} ClimbTrace(cfg: Config, a: Acct, s: State, skips: set<State>) returns (more: set<State>)
    requires Climbing(cfg, a.dc, s, skips)
    ensures SkipsOk(cfg, more)
    ensures Climb(cfg, a, s).dc.trace == Transcript(Climb(cfg, a, s).dc.ladder, more)
    decreases 10 - Index(s)
  {
    if s != DONE && Skips(cfg, a.rq, s) {
      var a1 := Note(a.(dc := a.dc.(ladder := s)), [Skipped(s)]);
      var wider := skips + {s};
      BeforeFrame(s, skips, wider);
      BeforeNext(s, wider);
      assert Climb(cfg, a, s) == Climb(cfg, a1, Next(s));
      more := ClimbTrace(cfg, a1, Next(s), wider);
    } else {
      more := skips;
      ClimbStops(cfg, a, s);
    }
  }

  lemma ClimbStops(cfg: Config, a: Acct, s: State)
    requires s != UNDEFINED && (s == DONE || !Skips(cfg, a.rq, s))
    ensures Climb(cfg, a, s).dc.ladder == s
    ensures Climb(cfg, a, s).dc.trace == a.dc.trace + if s == DONE then [PublishedReady] else Block(s)
  {
  }

  lemma BeforeNext(s: State, skips: set<State>)
    requires Active(s)
    ensures Before(Next(s), skips) == Before(s, skips) + if s in skips then [Skipped(s)] else Block(s) + [Completed(s)]
  {
  }

  /** Everything but the trace. */
  lemma {:induction false} ClimbShape(cfg: Config, a: Acct, s: State)
    requires s != UNDEFINED
    ensures var b := Climb(cfg, a, s);
      && b.dc.ladder != UNDEFINED
      && b.dc.welcome == a.dc.welcome && b.dc.phase == a.dc.phase && b.dc.created == a.dc.created
      && b.dc.logonTimeout == a.dc.logonTimeout
      && (!a.dc.ready ==> b.fault == a.fault && (b.dc.ready <==> b.dc.status == READY) && (b.dc.status == READY <==> b.dc.ladder == DONE))
    decreases 10 - Index(s)
  {
    if s != DONE && Skips(cfg, a.rq, s) {
      ClimbShape(cfg, Note(a.(dc := a.dc.(ladder := s)), [Skipped(s)]), Next(s));
    }
  }

  lemma CheckKeeps(cfg: Config, a: Acct, s: State)
    requires StreamOk(cfg, a.dc) && a.fault == NoFault
    ensures StreamOk(cfg, Check(cfg, a, s).dc) && Check(cfg, a, s).fault == NoFault
  {
    if s == a.dc.ladder && Active(s) {
      var skips: set<State> :| SkipsOk(cfg, skips) && a.dc.trace == Transcript(s, skips);
      var less := skips - {s};
      BeforeFrame(s, skips, less);
      BeforeNext(s, less);
      var a1 := Note(a, [Completed(s)]);
      assert a1.dc.trace == Before(s, less) + (Block(s) + [Completed(s)]);
      ClimbShape(cfg, a1, Next(s));
      var more := ClimbTrace(cfg, a1, Next(s), less);
    }
  }

  /** What the ladder may do to the slots: mark pending the slots of the states it enters,
      the stale slot only with a stale order to ask for. */
  predicate OnlyRequests(rq: Requests, rq': Requests) {
    && rq'.details == rq.details && rq'.inserted == rq.inserted
    && Marked(rq.token, rq'.token) && Marked(rq.balances, rq'.balances) && Marked(rq.positions, rq'.positions)
    && Marked(rq.openOrders, rq'.openOrders) && Marked(rq.staleOrders, rq'.staleOrders) && Marked(rq.trades, rq'.trades)
    && (rq'.staleOrders != rq.staleOrders ==> rq.details != {})
  }

  predicate Marked(slot: Slot, slot': Slot) { slot' == slot || slot' == slot.Request() }

  lemma {:induction false} ClimbRequests(cfg: Config, a: Acct, s: State)
    requires s != UNDEFINED
    ensures OnlyRequests(a.rq, Climb(cfg, a, s).rq)
    decreases 10 - Index(s)
  {
    if s != DONE && Skips(cfg, a.rq, s) {
      ClimbRequests(cfg, Note(a.(dc := a.dc.(ladder := s)), [Skipped(s)]), Next(s));
    }
  }
}
