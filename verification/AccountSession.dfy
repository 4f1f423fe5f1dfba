/** Whole sessions of the drop-copy stream: what a session downloads, and which accounts
    can never become ready. */
module AccountSession {
  import opened AccountTypes
  import opened Wrappers
  import opened AccountSpec
  import opened AccountInvariant
  import opened AccountSteps
  import opened AccountLadder
  import opened AccountEffects
  import opened AccountStale

  // ---- a clean session downloads everything exactly once

  /** A mandatory download along a session: not yet asked for, then pending, sent and
      answered while the ladder waits for it, then done. The counts are relative to the
      start of the session. */
  predicate Stage(ladder: State, get: State, slot: Slot, sent: int, committed: int) {
    if Index(ladder) < Index(get) then slot.Idle() && sent == 0 && committed == 0
    else if ladder == get then
      || (slot == Slot(true, false, false) && sent == 0 && committed == 0)
      || (slot == Slot(false, true, false) && sent == 1 && committed == 0)
      || (slot == Slot(false, false, true) && sent == 1 && committed == 1)
    else slot.Idle() && sent == 1 && committed == 1
  }

  predicate StageOf(b: RestState, ladder: State, rest: RestState, rq: Requests, k: Kind, get: State) {
    Stage(ladder, get, rq.Get(k), (rest.sent[k] as int) - (b.sent[k] as int), (rest.committed[k] as int) - (b.committed[k] as int))
  }

  predicate Staged(b: RestState, ladder: State, rest: RestState, rq: Requests) {
    && StageOf(b, ladder, rest, rq, BALANCES, GET_BALANCES)
    && StageOf(b, ladder, rest, rq, POSITIONS, GET_POSITIONS)
    && StageOf(b, ladder, rest, rq, OPEN_ORDERS, GET_OPEN_ORDERS)
  }

  predicate Mandatory(k: Kind) { k == BALANCES || k == POSITIONS || k == OPEN_ORDERS }

  lemma {:induction false} SubscribedIds(s: State, skips: set<State>, id: State)
    requires s != UNDEFINED && Subscribed(id) in Before(s, skips)
    ensures IsSubscribe(id)
    decreases Index(s)
  {
    if s != SUBSCRIBE_BALANCES {
      var p := Prev(s);
      if Subscribed(id) in Before(p, skips) {
        SubscribedIds(p, skips, id);
      } else {
        LastBlock(p, skips, id);
      }
    }
  }

  lemma LastBlock(p: State, skips: set<State>, id: State)
    requires Subscribed(id) in if p in skips then [Skipped(p)] else Block(p) + [Completed(p)]
    ensures IsSubscribe(id)
  {
  }

  /** Acknowledgements that echo sent ids never complete a download state. */
  lemma AckedIds(cfg: Config, dc: DropCopyState, id: State)
    requires StreamOk(cfg, dc) && Subscribed(id) in dc.trace
    ensures IsSubscribe(id)
  {
    var skips: set<State> :| SkipsOk(cfg, skips) && dc.trace == Transcript(dc.ladder, skips);
    if dc.ladder != UNDEFINED && Subscribed(id) in Before(dc.ladder, skips) {
      SubscribedIds(dc.ladder, skips, id);
    }
  }

  lemma AckStaged(cfg: Config, b: RestState, rest: RestState, a: Acct, id: State)
    requires Staged(b, a.dc.ladder, rest, a.rq) && IsSubscribe(id)
    ensures Staged(b, Check(cfg, a, id).dc.ladder, rest, Check(cfg, a, id).rq)
  {
    if id == a.dc.ladder {
      ClimbLands(cfg, Note(a, [Completed(id)]), Next(id));
      match id {
        case SUBSCRIBE_BALANCES =>
        case SUBSCRIBE_POSITIONS =>
        case SUBSCRIBE_ORDERS =>
        case SUBSCRIBE_TRADES =>
      }
    }
  }

  lemma QueueStaged(cfg: Config, b: RestState, rest: RestState, a: Acct, orders: seq<Key>)
    requires Staged(b, a.dc.ladder, rest, a.rq) && a.fault == NoFault
    ensures var c := CheckRequestQueue(cfg, a, orders);
      c.fault == NoFault ==> Staged(b, c.dc.ladder, rest, c.rq)
  {
    if a.dc.ladder == GET_BALANCES || a.dc.ladder == GET_POSITIONS || a.dc.ladder == GET_OPEN_ORDERS {
      MandatoryStaged(cfg, b, rest, a, orders);
    } else if IsGet(a.dc.ladder) {
      LateStaged(cfg, b, rest, a, orders);
    }
  }

  lemma MandatoryStaged(cfg: Config, b: RestState, rest: RestState, a: Acct, orders: seq<Key>)
    requires Staged(b, a.dc.ladder, rest, a.rq)
    requires a.dc.ladder == GET_BALANCES || a.dc.ladder == GET_POSITIONS || a.dc.ladder == GET_OPEN_ORDERS
    ensures var c := CheckRequestQueue(cfg, a, orders); Staged(b, c.dc.ladder, rest, c.rq)
  {
    var c := CheckRequestQueue(cfg, a, orders);
    if a.dc.ladder == GET_BALANCES {
      PollBalances(cfg, a, orders);
      BalancesStaged(b, rest, a.rq, c.dc.ladder, c.rq);
    } else if a.dc.ladder == GET_POSITIONS {
      PollPositions(cfg, a, orders);
      PositionsStaged(b, rest, a.rq, c.dc.ladder, c.rq);
    } else {
      PollOpenOrders(cfg, a, orders);
      OpenOrdersStaged(b, rest, a.rq, c.dc.ladder, c.rq);
    }
  }

  lemma PollBalances(cfg: Config, a: Acct, orders: seq<Key>)
    requires a.dc.ladder == GET_BALANCES
    ensures var c := CheckRequestQueue(cfg, a, orders);
      if a.rq.balances.response then c.dc.ladder == SUBSCRIBE_POSITIONS && c.rq == a.rq.(balances := a.rq.balances.Consume())
      else c.dc.ladder == GET_BALANCES && c.rq == a.rq
  {
    TickLands(cfg, a, orders);
  }

  lemma PollPositions(cfg: Config, a: Acct, orders: seq<Key>)
    requires a.dc.ladder == GET_POSITIONS
    ensures var c := CheckRequestQueue(cfg, a, orders);
      if a.rq.positions.response then c.dc.ladder == SUBSCRIBE_ORDERS && c.rq == a.rq.(positions := a.rq.positions.Consume())
      else c.dc.ladder == GET_POSITIONS && c.rq == a.rq
  {
    TickLands(cfg, a, orders);
  }

  lemma PollOpenOrders(cfg: Config, a: Acct, orders: seq<Key>)
    requires a.dc.ladder == GET_OPEN_ORDERS
    ensures var c := CheckRequestQueue(cfg, a, orders);
      if a.rq.openOrders.response
      then Index(c.dc.ladder) > Index(GET_OPEN_ORDERS) && c.rq.openOrders == a.rq.openOrders.Consume()
           && c.rq.balances == a.rq.balances && c.rq.positions == a.rq.positions
      else c.dc.ladder == GET_OPEN_ORDERS && c.rq == a.rq
  {
    TickLands(cfg, a, orders);
  }

  lemma BalancesStaged(b: RestState, rest: RestState, rq: Requests, ladder: State, rq': Requests)
    requires Staged(b, GET_BALANCES, rest, rq)
    requires if rq.balances.response then ladder == SUBSCRIBE_POSITIONS && rq' == rq.(balances := rq.balances.Consume())
             else ladder == GET_BALANCES && rq' == rq
    ensures Staged(b, ladder, rest, rq')
  {
  }

  lemma PositionsStaged(b: RestState, rest: RestState, rq: Requests, ladder: State, rq': Requests)
    requires Staged(b, GET_POSITIONS, rest, rq)
    requires if rq.positions.response then ladder == SUBSCRIBE_ORDERS && rq' == rq.(positions := rq.positions.Consume())
             else ladder == GET_POSITIONS && rq' == rq
    ensures Staged(b, ladder, rest, rq')
  {
  }

  lemma OpenOrdersStaged(b: RestState, rest: RestState, rq: Requests, ladder: State, rq': Requests)
    requires Staged(b, GET_OPEN_ORDERS, rest, rq)
    requires if rq.openOrders.response
             then Index(ladder) > Index(GET_OPEN_ORDERS) && rq'.openOrders == rq.openOrders.Consume()
                  && rq'.balances == rq.balances && rq'.positions == rq.positions
             else ladder == GET_OPEN_ORDERS && rq' == rq
    ensures Staged(b, ladder, rest, rq')
  {
  }

  lemma LateStaged(cfg: Config, b: RestState, rest: RestState, a: Acct, orders: seq<Key>)
    requires Staged(b, a.dc.ladder, rest, a.rq) && a.fault == NoFault
    requires a.dc.ladder == GET_STALE_ORDERS || a.dc.ladder == GET_TRADES
    ensures var c := CheckRequestQueue(cfg, a, orders);
      c.fault == NoFault ==> Staged(b, c.dc.ladder, rest, c.rq)
  {
    TickLands(cfg, a, orders);
    match a.dc.ladder {
      case GET_STALE_ORDERS =>
      case GET_TRADES =>
    }
  }

  /** The rest of a READY tick concerns the token and the stale orders only. */
  lemma ReadyLeavesDownloads(cfg: Config, a: Acct, now: int, orders: seq<Key>)
    ensures var b := WhenReady(cfg, a, now, orders);
      b.rq.balances == a.rq.balances && b.rq.positions == a.rq.positions && b.rq.openOrders == a.rq.openOrders
  {
  }

  lemma TimerStaged(cfg: Config, b: RestState, rest: RestState, a: Acct, now: int, orders: seq<Key>)
    requires Staged(b, a.dc.ladder, rest, a.rq) && a.fault == NoFault
    ensures var c := OnTimer(cfg, a, now, orders);
      c.fault == NoFault ==> Staged(b, c.dc.ladder, rest, c.rq)
  {
    if a.dc.phase == UPGRADED {
      QueueStaged(cfg, b, rest, a, orders);
      var c := CheckRequestQueue(cfg, a, orders);
      ReadyLeavesDownloads(cfg, c, now, orders);
      WhenReadyStream(cfg, c, now, orders);
    }
  }

  lemma StartStaged(b: RestState, ladder: State, x: Side, k: Kind, known: set<Key>)
    requires Staged(b, ladder, x.rest, x.rq) && x.rq.Get(k).pending && x.rq.Ready()
    ensures Staged(b, ladder, Start(x, k, known).rest, Start(x, k, known).rq)
  {
  }

  lemma AnswerStaged(b: RestState, ladder: State, x: Side, k: Kind, response: Response)
    requires Staged(b, ladder, x.rest, x.rq) && Plain(k) && x.rq.Get(k).inFlight && x.fault == NoFault
    ensures var y := OnAnswer(x, k, response); y.fault == NoFault ==> Staged(b, ladder, y.rest, y.rq)
  {
  }

  /** The events that touch none of the plain downloads. */
  predicate Other(e: Event) {
    || e.RestConnected? || e.RestDisconnected? || e.RestRetry? || e.TokenAnswer? || e.TokenExpired? || e.Connected? || e.Upgraded?
    || e.OrderAnswer? || (e.Ack? && e.id == None)
  }

  predicate SameDownloads(s: Sys, t: Sys) {
    && t.dc.ladder == s.dc.ladder
    && t.rq.balances == s.rq.balances && t.rq.positions == s.rq.positions
    && t.rq.openOrders == s.rq.openOrders && t.rq.trades == s.rq.trades
    && t.rest.sent[BALANCES] == s.rest.sent[BALANCES] && t.rest.committed[BALANCES] == s.rest.committed[BALANCES]
    && t.rest.sent[POSITIONS] == s.rest.sent[POSITIONS] && t.rest.committed[POSITIONS] == s.rest.committed[POSITIONS]
    && t.rest.sent[OPEN_ORDERS] == s.rest.sent[OPEN_ORDERS] && t.rest.committed[OPEN_ORDERS] == s.rest.committed[OPEN_ORDERS]
  }

  lemma OthersSame(cfg: Config, s: Sys, e: Event)
    requires s.fault == NoFault && s.dc.created && Other(e)
    ensures SameDownloads(s, Step(cfg, s, e))
  {
    match e {
      case TokenAnswer(response, token, superseded) => TokenSame(cfg, s, response, token, superseded);
      case OrderAnswer(key, response) => OrderSame(cfg, s, key, response);
      case _ =>
    }
  }

  lemma TokenSame(cfg: Config, s: Sys, response: Response, token: string, superseded: bool)
    requires s.fault == NoFault && s.dc.created
    ensures SameDownloads(s, Step(cfg, s, TokenAnswer(response, token, superseded)))
  {
  }

  lemma OrderSame(cfg: Config, s: Sys, key: Key, response: Response)
    requires s.fault == NoFault
    ensures SameDownloads(s, Step(cfg, s, OrderAnswer(key, response)))
  {
  }

  /** What one event leaves of the stages, unless it stops the process. */
  predicate StagedAfter(cfg: Config, b: RestState, s: Sys, e: Event) {
    var t := Step(cfg, s, e);
    t.fault == NoFault ==> Staged(b, t.dc.ladder, t.rest, t.rq)
  }

  lemma RestTickStaged(cfg: Config, b: RestState, s: Sys, grants: set<Kind>, known: set<Key>)
    requires s.fault == NoFault && Staged(b, s.dc.ladder, s.rest, s.rq)
    ensures StagedAfter(cfg, b, s, RestTimer(grants, known))
  {
    var x := Side(s.rest, s.rq, s.fault);
    TickStartsOne(cfg, x, grants, known);
    match Chosen(cfg, x, grants) {
      case None =>
      case Some(k) => StartStaged(b, s.dc.ladder, x, k, known);
    }
  }

  lemma AckStagedAfter(cfg: Config, b: RestState, s: Sys, id: State)
    requires s.fault == NoFault && IsSubscribe(id) && Staged(b, s.dc.ladder, s.rest, s.rq)
    ensures StagedAfter(cfg, b, s, Ack(Some(id)))
  {
    AckStaged(cfg, b, s.rest, Acct(s.dc, s.rq, s.fault), id);
    StepAck(cfg, s, id);
  }

  lemma TimerStagedAfter(cfg: Config, b: RestState, s: Sys, now: int, orders: seq<Key>)
    requires s.fault == NoFault && Staged(b, s.dc.ladder, s.rest, s.rq)
    ensures StagedAfter(cfg, b, s, Timer(now, orders))
  {
    TimerStaged(cfg, b, s.rest, Acct(s.dc, s.rq, s.fault), now, orders);
    StepTimer(cfg, s, now, orders);
  }

  lemma AnswerStagedAfter(cfg: Config, b: RestState, s: Sys, k: Kind, response: Response)
    requires s.fault == NoFault && Staged(b, s.dc.ladder, s.rest, s.rq)
    requires WireOk(s.rest, s.rq) && Plain(k) && k in s.rest.outstanding
    ensures StagedAfter(cfg, b, s, Answer(k, response))
  {
    InFlightOnWire(s.rest, s.rq, k);
    AnswerStaged(b, s.dc.ladder, Side(s.rest, s.rq, s.fault), k, response);
  }

  lemma StepStaged(cfg: Config, b: RestState, s: Sys, e: Event)
    requires StreamOk(cfg, s.dc) && WireOk(s.rest, s.rq) && s.fault == NoFault && s.dc.welcome
    requires Enabled(s, e) && e != Disconnected && Staged(b, s.dc.ladder, s.rest, s.rq)
    ensures StagedAfter(cfg, b, s, e)
  {
    if e.Ack? && e.id.Some? {
      AckedIds(cfg, s.dc, e.id.value);
      AckStagedAfter(cfg, b, s, e.id.value);
    } else if e.Timer? {
      TimerStagedAfter(cfg, b, s, e.now, e.orders);
    } else if e.RestTimer? {
      RestTickStaged(cfg, b, s, e.grants, e.known);
    } else if e.Answer? {
      AnswerStagedAfter(cfg, b, s, e.kind, e.response);
    } else if Other(e) {
      OtherStagedAfter(cfg, b, s, e);
    }
  }

  lemma OtherStagedAfter(cfg: Config, b: RestState, s: Sys, e: Event)
    requires s.fault == NoFault && s.dc.created && Other(e) && Staged(b, s.dc.ladder, s.rest, s.rq)
    ensures StagedAfter(cfg, b, s, e)
  {
    OthersSame(cfg, s, e);
  }

  lemma {:induction false} RunStaged(cfg: Config, b: RestState, s: Sys, events: seq<Event>)
    requires Inv(cfg, s) && s.fault == NoFault && s.dc.welcome && Valid(cfg, s, events) && InSession(events)
    requires Staged(b, s.dc.ladder, s.rest, s.rq) && Run(cfg, s, events).fault == NoFault
    ensures var t := Run(cfg, s, events); Staged(b, t.dc.ladder, t.rest, t.rq)
    decreases |events|
  {
    if events != [] {
      var t := Step(cfg, s, events[0]);
      assert events[0] in events && forall e | e in events[1..] :: e in events;
      StepKeeps(cfg, s, events[0]);
      FaultStays(cfg, t, events[1..]);
      StepStaged(cfg, b, s, events[0]);
      StepProgress(cfg, s, events[0]);
      RunStaged(cfg, b, t, events[1..]);
    }
  }

  lemma RunDownloadsOnce(cfg: Config, b: RestState, w: Sys, events: seq<Event>, k: Kind)
    requires Inv(cfg, w) && w.fault == NoFault && w.dc.welcome && Valid(cfg, w, events) && InSession(events)
    requires Staged(b, w.dc.ladder, w.rest, w.rq) && Mandatory(k)
    ensures var t := Run(cfg, w, events);
      t.fault == NoFault && t.dc.status == READY ==>
        t.rest.sent[k] == b.sent[k] + 1 && t.rest.committed[k] == b.committed[k] + 1
  {
    if Run(cfg, w, events).fault == NoFault {
      RunKeeps(cfg, w, events);
      RunStaged(cfg, b, w, events);
      ReadyIsDone(cfg, Run(cfg, w, events));
      if Run(cfg, w, events).dc.ladder == DONE {
        StagedDone(b, Run(cfg, w, events).rest, Run(cfg, w, events).rq, k);
      }
    }
  }

  lemma StagedDone(b: RestState, rest: RestState, rq: Requests, k: Kind)
    requires Staged(b, DONE, rest, rq) && Mandatory(k)
    ensures rest.sent[k] == b.sent[k] + 1 && rest.committed[k] == b.committed[k] + 1
  {
  }

  /** A session whose welcome finds the slots of balances, positions and open orders idle
      has, by the time it is READY, sent each of the three downloads exactly once and got
      exactly one answer to each, all within the session. */
  lemma CleanSessionDownloadsOnce(cfg: Config, s: Sys, events: seq<Event>, k: Kind)
    requires Reachable(cfg, s) && s.fault == NoFault && Mandatory(k)
    requires s.rq.balances.Idle() && s.rq.positions.Idle() && s.rq.openOrders.Idle()
    ensures var t := Run(cfg, s, [Welcome] + events);
      Valid(cfg, s, [Welcome] + events) && InSession(events) && t.fault == NoFault && t.dc.status == READY ==>
        t.rest.sent[k] == s.rest.sent[k] + 1 && t.rest.committed[k] == s.rest.committed[k] + 1
  {
    JointInvariant(cfg, s);
    assert ([Welcome] + events)[1..] == events;
    if Valid(cfg, s, [Welcome] + events) && InSession(events) {
      StepKeeps(cfg, s, Welcome);
      WelcomeEnters(cfg, s);
      RunDownloadsOnce(cfg, s.rest, Step(cfg, s, Welcome), events, k);
    }
  }

  lemma ReadyIsDone(cfg: Config, s: Sys)
    requires Inv(cfg, s) && s.fault == NoFault
    ensures s.dc.status == READY <==> s.dc.ladder == DONE
  {
  }

  lemma WelcomeEnters(cfg: Config, s: Sys)
    requires s.fault == NoFault
    ensures var w := Step(cfg, s, Welcome);
      w.dc.ladder == SUBSCRIBE_BALANCES && w.dc.welcome && w.rq == s.rq && w.rest == s.rest && w.fault == NoFault
      && w.dc.phase == s.dc.phase && w.dc.created == s.dc.created
      && w.dc.trace == s.dc.trace + [Downloading(SUBSCRIBE_BALANCES), Subscribed(SUBSCRIBE_BALANCES)]
  {
  }

  // ---- accounts that never become ready

  /** The ladder has not passed the download `get`, and no answer to it can come. */
  predicate StuckAt(s: Sys, k: Kind, get: State) {
    Index(s.dc.ladder) <= Index(get) && !s.rq.Get(k).response && !s.rq.Get(k).inFlight
  }

  lemma StepStuck(cfg: Config, s: Sys, e: Event, k: Kind, get: State)
    requires Inv(cfg, s) && s.fault == NoFault && Enabled(s, e)
    requires Mandatory(k) && IsGet(get) && KindOf(get) == k && StuckAt(s, k, get)
    requires cfg.master ==> Wedged(s)
    ensures var t := Step(cfg, s, e); t.fault == NoFault ==> StuckAt(t, k, get)
  {
    StuckSlot(cfg, s, e, k);
    StuckLadder(cfg, s, e, k, get);
  }

  lemma TickQuiet(cfg: Config, x: Side, grants: set<Kind>, known: set<Key>, k: Kind)
    requires Quiet(x.rq.Get(k)) && (cfg.master ==> x.rq.staleOrders.inFlight) && k != TOKEN
    ensures Quiet(OnRestTimer(cfg, x, grants, known).rq.Get(k))
  {
  }

  lemma StuckSlot(cfg: Config, s: Sys, e: Event, k: Kind)
    requires WireOk(s.rest, s.rq) && s.fault == NoFault && Enabled(s, e) && Mandatory(k)
    requires Quiet(s.rq.Get(k)) && (cfg.master ==> Wedged(s))
    ensures Quiet(Step(cfg, s, e).rq.Get(k))
  {
    var x := Side(s.rest, s.rq, s.fault);
    if Streamed(e) {
      StreamTicks(cfg, s, e);
    } else if e.RestTimer? {
      TickQuiet(cfg, x, e.grants, e.known, k);
    } else if e.Answer? {
      InFlightOnWire(s.rest, s.rq, e.kind);
      OtherSlot(x, e.kind, k, e.response);
    } else {
      CommitsElsewhere(cfg, s, e, k);
    }
  }

  lemma CommitsElsewhere(cfg: Config, s: Sys, e: Event, k: Kind)
    requires s.fault == NoFault && Mandatory(k)
    requires e.OrderAnswer? || e.TokenAnswer? || e.RestConnected? || e.RestDisconnected? || e.RestRetry?
    ensures Step(cfg, s, e).rq.Get(k) == s.rq.Get(k)
  {
  }

  lemma OtherSlot(x: Side, j: Kind, k: Kind, response: Response)
    requires j != k
    ensures OnAnswer(x, j, response).rq.Get(k) == x.rq.Get(k)
  {
  }

  lemma StuckLadder(cfg: Config, s: Sys, e: Event, k: Kind, get: State)
    requires Inv(cfg, s) && s.fault == NoFault && Enabled(s, e)
    requires Mandatory(k) && IsGet(get) && KindOf(get) == k && StuckAt(s, k, get)
    ensures Index(Step(cfg, s, e).dc.ladder) <= Index(get)
  {
    var a := Acct(s.dc, s.rq, s.fault);
    if e == Welcome {
      WelcomeEnters(cfg, s);
    } else if e.Ack? && e.id.Some? {
      AckedIds(cfg, s.dc, e.id.value);
      AckStuck(cfg, a, e.id.value, get);
    } else if e.Timer? {
      TimerStuck(cfg, a, e.now, e.orders, get);
    }
  }

  lemma AckStuck(cfg: Config, a: Acct, id: State, get: State)
    requires IsSubscribe(id) && Index(a.dc.ladder) <= Index(get) && IsGet(get) && Mandatory(KindOf(get))
    ensures Index(Check(cfg, a, id).dc.ladder) <= Index(get)
  {
    if id == a.dc.ladder {
      ClimbLands(cfg, Note(a, [Completed(id)]), Next(id));
    }
  }

  lemma TimerStuck(cfg: Config, a: Acct, now: int, orders: seq<Key>, get: State)
    requires Index(a.dc.ladder) <= Index(get) && IsGet(get) && Mandatory(KindOf(get)) && !a.rq.Get(KindOf(get)).response
    requires StreamOk(cfg, a.dc) && a.fault == NoFault
    ensures Index(OnTimer(cfg, a, now, orders).dc.ladder) <= Index(get)
  {
    TickLands(cfg, a, orders);
    SameIndex(a.dc.ladder, get);
    WhenReadyStream(cfg, CheckRequestQueue(cfg, a, orders), now, orders);
  }

  lemma {:induction false} RunStuck(cfg: Config, s: Sys, events: seq<Event>, k: Kind, get: State)
    requires Inv(cfg, s) && s.fault == NoFault && Valid(cfg, s, events)
    requires Mandatory(k) && IsGet(get) && KindOf(get) == k && StuckAt(s, k, get)
    requires cfg.master ==> Wedged(s)
    ensures var t := Run(cfg, s, events); t.fault == NoFault ==> StuckAt(t, k, get) && t.dc.status != READY
    decreases |events|
  {
    if events != [] {
      var t := Step(cfg, s, events[0]);
      StepKeeps(cfg, s, events[0]);
      if t.fault == NoFault {
        StepStuck(cfg, s, events[0], k, get);
        if cfg.master {
          StepWedged(cfg, s, events[0]);
        }
        RunStuck(cfg, t, events[1..], k, get);
      } else {
        FaultStays(cfg, t, events[1..]);
      }
    }
  }

  /** Only the master account is ever ready: without it no download is ever sent. */
  lemma OnlyMasterBecomesReady(cfg: Config, events: seq<Event>)
    requires !cfg.master && Valid(cfg, INIT, events)
    ensures Run(cfg, INIT, events).fault == NoFault ==> Run(cfg, INIT, events).dc.status != READY
  {
    InitHolds(cfg);
    RunStuck(cfg, INIT, events, BALANCES, GET_BALANCES);
  }

  /** A wedged account whose ladder has not passed a mandatory download, with no unconsumed
      response to it, never becomes ready, reconnects included. */
  lemma WedgedNeverReady(cfg: Config, s: Sys, events: seq<Event>, k: Kind)
    requires Reachable(cfg, s) && Wedged(s) && Valid(cfg, s, events) && Mandatory(k)
    requires Index(s.dc.ladder) <= Index(GetOf(k)) && !s.rq.Get(k).response
    ensures Run(cfg, s, events).fault == NoFault ==> Run(cfg, s, events).dc.status != READY
  {
    JointInvariant(cfg, s);
    RunStuck(cfg, s, events, k, GetOf(k));
  }
}
