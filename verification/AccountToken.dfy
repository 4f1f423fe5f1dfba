/** The token cycle of the drop-copy stream: the window between a token request and the next
    token, one request per window, and how a window never closes. */
module AccountToken {
  import opened AccountTypes
  import opened Wrappers
  import opened AccountSpec
  import opened AccountInvariant
  import opened AccountSteps
  import opened AccountLadder
  import opened AccountEffects
  import opened AccountStale

  // ---- what leaves the token alone

  predicate SameToken(a: Acct, b: Acct) {
    && b.dc.query == a.dc.query && b.dc.suspended == a.dc.suspended && b.dc.created == a.dc.created
    && b.dc.nextSimulated == a.dc.nextSimulated && b.rq.token == a.rq.token
  }

  lemma {:induction false} ClimbToken(cfg: Config, a: Acct, s: State)
    requires s != UNDEFINED
    ensures SameToken(a, Climb(cfg, a, s))
    decreases 10 - Index(s)
  {
    if s != DONE && Skips(cfg, a.rq, s) {
      ClimbToken(cfg, Note(a.(dc := a.dc.(ladder := s)), [Skipped(s)]), Next(s));
    }
  }

  lemma CheckToken(cfg: Config, a: Acct, id: State)
    ensures SameToken(a, Check(cfg, a, id))
  {
    if id == a.dc.ladder && Active(id) {
      ClimbToken(cfg, Note(a, [Completed(id)]), Next(id));
    }
  }

  lemma QueueToken(cfg: Config, a: Acct, orders: seq<Key>)
    ensures SameToken(a, CheckRequestQueue(cfg, a, orders))
  {
    var s := a.dc.ladder;
    if IsGet(s) && a.rq.Get(KindOf(s)).response {
      var a1 := a.(rq := a.rq.Put(KindOf(s), a.rq.Get(KindOf(s)).Consume()));
      CheckToken(cfg, if s == GET_OPEN_ORDERS then a1.(rq := a1.rq.Scan(orders)) else a1, s);
    }
  }

  lemma ScanToken(cfg: Config, a: Acct, now: int, orders: seq<Key>)
    ensures SameToken(a, CheckStaleOrders(cfg, a, now, orders))
  {
  }

  // ---- the tick

  predicate Due(dc: DropCopyState, now: int) { dc.nextSimulated != 0 && dc.nextSimulated < now }

  /** The tick finds, or makes, the stream ready when the simulated expiry is due. */
  predicate Fires(cfg: Config, a: Acct, now: int, orders: seq<Key>) {
    var b := CheckRequestQueue(cfg, a, orders);
    a.dc.phase == UPGRADED && b.fault == NoFault && b.dc.status == READY && Due(a.dc, now)
  }

  /** What a tick does to the token: the simulated expiry opens a window unless one is open. */
  predicate TokenTicked(a: Acct, b: Acct, fires: bool) {
    var opens := fires && a.dc.query != "";
    && b.dc.created == a.dc.created
    && b.dc.nextSimulated == (if fires then 0 else a.dc.nextSimulated)
    && b.dc.query == (if opens then "" else a.dc.query)
    && b.dc.suspended == (a.dc.suspended || opens)
    && b.rq.token.pending == (a.rq.token.pending || opens) && b.rq.token.inFlight == a.rq.token.inFlight
  }

  lemma ExpiryToken(a: Acct, now: int)
    ensures TokenTicked(a, CheckSimulatedExpiry(a, now), Due(a.dc, now))
  {
  }

  lemma ReadyToken(cfg: Config, a: Acct, now: int, orders: seq<Key>)
    ensures TokenTicked(a, WhenReady(cfg, a, now, orders), Due(a.dc, now))
  {
    var a1 := a.(dc := CheckPing(a.dc, now), rq := a.rq.(token := a.rq.token.Consume()));
    ScanToken(cfg, a1, now, orders);
    ExpiryToken(CheckStaleOrders(cfg, a1, now, orders), now);
  }

  lemma TimerToken(cfg: Config, a: Acct, now: int, orders: seq<Key>)
    ensures TokenTicked(a, OnTimer(cfg, a, now, orders), Fires(cfg, a, now, orders))
  {
    QueueToken(cfg, a, orders);
    ReadyToken(cfg, CheckRequestQueue(cfg, a, orders), now, orders);
  }

  // ---- suspended exactly while the query is empty

  /** The connection is suspended exactly while the query is empty. */
  predicate WindowOk(dc: DropCopyState) { dc.created ==> (dc.query == "" <==> dc.suspended) }

  /** The drop-copy stream exists only after a token was processed, and the REST stream
      then asks for no further initial token. */
  predicate TokenOk(s: Sys) {
    && WindowOk(s.dc)
    && (s.dc.created ==> s.rest.hasToken)
    && !(s.rest.hasToken && s.rest.downloading)
  }

  lemma StreamTokenOk(cfg: Config, s: Sys, e: Event)
    requires TokenOk(s) && Streamed(e)
    ensures TokenOk(Step(cfg, s, e))
  {
    var a := Acct(s.dc, s.rq, s.fault);
    StreamTicks(cfg, s, e);
    if s.fault == NoFault {
      if e.Welcome? {
        ClimbToken(cfg, a.(dc := a.dc.(welcome := true)), SUBSCRIBE_BALANCES);
      } else if e.Ack? && e.id.Some? {
        StepAck(cfg, s, e.id.value);
        CheckToken(cfg, a, e.id.value);
      } else if e.Timer? {
        StepTimer(cfg, s, e.now, e.orders);
        TimerToken(cfg, a, e.now, e.orders);
      }
    }
  }

  lemma StepTokenOk(cfg: Config, s: Sys, e: Event)
    requires TokenOk(s) && Enabled(s, e)
    ensures TokenOk(Step(cfg, s, e))
  {
    if Streamed(e) {
      StreamTokenOk(cfg, s, e);
    } else if e.RestTimer? {
      TickStartsOne(cfg, Side(s.rest, s.rq, s.fault), e.grants, e.known);
    }
  }

  lemma {:induction false} RunTokenOk(cfg: Config, s: Sys, events: seq<Event>)
    requires TokenOk(s) && Valid(cfg, s, events)
    ensures TokenOk(Run(cfg, s, events))
    decreases |events|
  {
    if events != [] {
      StepTokenOk(cfg, s, events[0]);
      RunTokenOk(cfg, Step(cfg, s, events[0]), events[1..]);
    }
  }

  lemma ReachableTokenOk(cfg: Config, s: Sys)
    requires Reachable(cfg, s)
    ensures TokenOk(s)
  {
    var events :| Valid(cfg, INIT, events) && Run(cfg, INIT, events) == s;
    RunTokenOk(cfg, INIT, events);
  }

  /** In every reachable state with a drop-copy stream the query is empty exactly while the
      stream waits, suspended, for a token. In that window an expiry reported by the server
      makes no second request, and every delivered token restores the query and resumes the
      connection. Outside it an expiry opens the window with one request. */
  lemma TokenWindow(cfg: Config, s: Sys, token: string)
    requires Reachable(cfg, s) && s.fault == NoFault && s.dc.created
    ensures s.dc.query == "" <==> s.dc.suspended
    ensures s.dc.suspended ==>
      Step(cfg, s, TokenExpired) == s &&
      var dc := DeliverToken(s.dc, token); dc.query == "?token=" + token && !dc.suspended
    ensures !s.dc.suspended ==>
      var t := Step(cfg, s, TokenExpired); t.dc.query == "" && t.dc.suspended && t.rq.token == s.rq.token.Request()
  {
    ReachableTokenOk(cfg, s);
  }

  /** What a tick does about the window: in an open one nothing, otherwise it opens one, with
      one request, exactly when the simulated expiry fires. */
  predicate WindowTicked(s: Sys, t: Sys, fires: bool) {
    var opens := fires && !s.dc.suspended;
    && t.rest == s.rest && t.dc.suspended == (s.dc.suspended || opens)
    && t.dc.query == (if opens then "" else s.dc.query)
    && t.rq.token.pending == (s.rq.token.pending || opens) && t.rq.token.inFlight == s.rq.token.inFlight
  }

  /** In every reachable state neither does a tick make a second request in a window, and
      outside it the simulated expiry opens one with one request. */
  lemma TokenTick(cfg: Config, s: Sys, now: int, orders: seq<Key>)
    requires Reachable(cfg, s) && s.fault == NoFault && s.dc.created
    ensures WindowTicked(s, Step(cfg, s, Timer(now, orders)), Fires(cfg, Acct(s.dc, s.rq, s.fault), now, orders))
  {
    ReachableTokenOk(cfg, s);
    StepTimer(cfg, s, now, orders);
    TimerToken(cfg, Acct(s.dc, s.rq, s.fault), now, orders);
  }

  // ---- one request per window

  /** The stream waits for a token. */
  predicate Window(s: Sys) {
    && s.fault == NoFault && s.dc.created && s.dc.query == "" && s.dc.suspended
    && s.rest.hasToken && !s.rest.downloading
  }

  predicate Delivered(s: Sys, e: Event) { e.TokenAnswer? && Delivers(s.rest, e.response, e.superseded) }

  /** The window stays open, and a token request is sent from the pending slot or not at all. */
  predicate StillOpen(s: Sys, t: Sys) {
    && t.dc.query == "" && (t.fault == NoFault ==> Window(t))
    && t.rest.sent[TOKEN] + One(t.rq.token.pending) == s.rest.sent[TOKEN] + One(s.rq.token.pending)
    && s.rest.sent[TOKEN] <= t.rest.sent[TOKEN]
    && t.rest.outstanding[TOKEN] <= s.rest.outstanding[TOKEN] + t.rest.sent[TOKEN] - s.rest.sent[TOKEN]
  }

  lemma WelcomeWindow(cfg: Config, s: Sys)
    requires Window(s)
    ensures StillOpen(s, Step(cfg, s, Welcome))
  {
    ClimbToken(cfg, Acct(s.dc.(welcome := true), s.rq, s.fault), SUBSCRIBE_BALANCES);
  }

  lemma AckWindow(cfg: Config, s: Sys, id: State)
    requires Window(s)
    ensures StillOpen(s, Step(cfg, s, Ack(Some(id))))
  {
    StepAck(cfg, s, id);
    CheckToken(cfg, Acct(s.dc, s.rq, s.fault), id);
  }

  lemma PollWindow(cfg: Config, s: Sys, now: int, orders: seq<Key>)
    requires Window(s)
    ensures StillOpen(s, Step(cfg, s, Timer(now, orders)))
  {
    StepTimer(cfg, s, now, orders);
    TimerToken(cfg, Acct(s.dc, s.rq, s.fault), now, orders);
  }

  lemma SocketWindow(cfg: Config, s: Sys, e: Event)
    requires Window(s) && (e.Connected? || e.Upgraded? || e.Disconnected? || e.TokenExpired? || (e.Ack? && e.id == None))
    ensures StillOpen(s, Step(cfg, s, e))
  {
  }

  lemma TickWindow(cfg: Config, s: Sys, grants: set<Kind>, known: set<Key>)
    requires Window(s)
    ensures StillOpen(s, Step(cfg, s, RestTimer(grants, known)))
  {
    var x := Side(s.rest, s.rq, s.fault);
    TickStartsOne(cfg, x, grants, known);
    match Chosen(cfg, x, grants) {
      case None =>
      case Some(k) => StartWindow(x, k, known);
    }
  }

  lemma StartWindow(x: Side, k: Kind, known: set<Key>)
    requires x.rq.Get(k).pending
    ensures var y := Start(x, k, known);
      && y.rest.sent[TOKEN] == x.rest.sent[TOKEN] + One(k == TOKEN)
      && y.rest.outstanding[TOKEN] == x.rest.outstanding[TOKEN] + One(k == TOKEN)
      && y.rq.token.pending == (x.rq.token.pending && k != TOKEN)
      && y.rest.hasToken == x.rest.hasToken && y.rest.downloading == x.rest.downloading && y.fault == x.fault
  {
  }

  lemma AnswerWindow(cfg: Config, s: Sys, e: Event)
    requires Window(s) && Enabled(s, e) && (e.Answer? || e.OrderAnswer?)
    ensures StillOpen(s, Step(cfg, s, e))
  {
  }

  lemma RestWindow(cfg: Config, s: Sys, e: Event)
    requires Window(s) && Enabled(s, e) && (e.RestConnected? || e.RestDisconnected? || e.RestRetry?)
    ensures StillOpen(s, Step(cfg, s, e))
  {
  }

  lemma FailedWindow(cfg: Config, s: Sys, e: Event)
    requires Window(s) && e.TokenAnswer? && TOKEN in s.rest.outstanding && !Delivered(s, e)
    ensures StillOpen(s, Step(cfg, s, e))
  {
  }

  lemma StepWindow(cfg: Config, s: Sys, e: Event)
    requires Window(s) && Enabled(s, e) && !Delivered(s, e)
    ensures StillOpen(s, Step(cfg, s, e))
  {
    if e.Welcome? {
      WelcomeWindow(cfg, s);
    } else if e.Ack? && e.id.Some? {
      AckWindow(cfg, s, e.id.value);
    } else if e.Timer? {
      PollWindow(cfg, s, e.now, e.orders);
    } else if Streamed(e) {
      SocketWindow(cfg, s, e);
    } else if e.RestTimer? {
      TickWindow(cfg, s, e.grants, e.known);
    } else if e.TokenAnswer? {
      FailedWindow(cfg, s, e);
    } else if e.Answer? || e.OrderAnswer? {
      AnswerWindow(cfg, s, e);
    } else {
      RestWindow(cfg, s, e);
    }
  }

  /** No token is delivered along the run. */
  predicate Undelivered(cfg: Config, s: Sys, events: seq<Event>)
    decreases |events|
  {
    events == [] || (!Delivered(s, events[0]) && Undelivered(cfg, Step(cfg, s, events[0]), events[1..]))
  }

  /** As long as no token is delivered, the requests that were sent and the one that may be
      pending stay the same number. */
  lemma {:induction false} RunWindow(cfg: Config, s: Sys, events: seq<Event>)
    requires Window(s) && Valid(cfg, s, events) && Undelivered(cfg, s, events)
    ensures var t := Run(cfg, s, events);
      && t.dc.query == ""
      && t.rest.sent[TOKEN] + One(t.rq.token.pending) == s.rest.sent[TOKEN] + One(s.rq.token.pending)
    decreases |events|
  {
    if events != [] {
      var t := Step(cfg, s, events[0]);
      StepWindow(cfg, s, events[0]);
      if t.fault == NoFault {
        RunWindow(cfg, t, events[1..]);
      } else {
        FaultStays(cfg, t, events[1..]);
      }
    }
  }

  /** A window is opened by an event of the stream, which leaves the token's slot pending and
      sends nothing. */
  lemma Opening(cfg: Config, s: Sys, e: Event)
    requires TokenOk(s) && s.fault == NoFault && s.dc.created && !s.dc.suspended && Enabled(s, e)
    requires Step(cfg, s, e).dc.suspended && Step(cfg, s, e).fault == NoFault
    ensures var t := Step(cfg, s, e); Window(t) && t.rq.token.pending && t.rest == s.rest
  {
    StepTokenOk(cfg, s, e);
    if e.Welcome? {
      ClimbToken(cfg, Acct(s.dc.(welcome := true), s.rq, s.fault), SUBSCRIBE_BALANCES);
    } else if e.Ack? && e.id.Some? {
      StepAck(cfg, s, e.id.value);
      CheckToken(cfg, Acct(s.dc, s.rq, s.fault), e.id.value);
    } else if e.Timer? {
      StepTimer(cfg, s, e.now, e.orders);
      TimerToken(cfg, Acct(s.dc, s.rq, s.fault), e.now, e.orders);
    }
  }

  /** From the event that opens a window on, and until the next token is delivered, exactly
      one token request is pending or was sent. */
  lemma OneRequestPerWindow(cfg: Config, s: Sys, e: Event, events: seq<Event>)
    requires Reachable(cfg, s) && s.fault == NoFault && s.dc.created && !s.dc.suspended && Enabled(s, e)
    requires Step(cfg, s, e).dc.suspended && Step(cfg, s, e).fault == NoFault
    requires Valid(cfg, Step(cfg, s, e), events) && Undelivered(cfg, Step(cfg, s, e), events)
    ensures var t := Run(cfg, Step(cfg, s, e), events);
      t.dc.query == "" && t.rest.sent[TOKEN] + One(t.rq.token.pending) == s.rest.sent[TOKEN] + 1
  {
    ReachableTokenOk(cfg, s);
    Opening(cfg, s, e);
    RunWindow(cfg, Step(cfg, s, e), events);
  }

  // ---- a window that never closes

  /** No token request is on the wire, and none can go out. */
  predicate Lost(s: Sys) { Window(s) && TOKEN !in s.rest.outstanding && (!s.rq.token.pending || Wedged(s)) }

  /** The answer to the last token request on the wire loses the token exactly when it does
      not deliver one and no other request is waiting that can go out. */
  lemma FailedAnswerLoses(cfg: Config, s: Sys, response: Response, token: string, superseded: bool)
    requires Reachable(cfg, s) && s.fault == NoFault && s.dc.created && s.dc.suspended
    requires s.rest.outstanding[TOKEN] == 1
    ensures var t := Step(cfg, s, TokenAnswer(response, token, superseded));
      t.fault == NoFault ==>
        (Lost(t) <==>
          && !(Heard(s.rest, response, superseded) && response.body.code == 200_000)
          && (!s.rq.token.pending || Wedged(s)))
  {
    ReachableTokenOk(cfg, s);
  }

  lemma StepLost(cfg: Config, s: Sys, e: Event)
    requires Inv(cfg, s) && Lost(s) && Enabled(s, e)
    ensures var t := Step(cfg, s, e);
      && t.rest.sent[TOKEN] == s.rest.sent[TOKEN] && t.dc.query == "" && (t.fault == NoFault ==> Lost(t))
  {
    StepWindow(cfg, s, e);
    if Wedged(s) {
      StepWedged(cfg, s, e);
    }
  }

  /** Once lost, the token never comes back: through every continuation the query stays
      empty and no token is requested. */
  lemma {:induction false} LostForever(cfg: Config, s: Sys, events: seq<Event>)
    requires Inv(cfg, s) && Lost(s) && Valid(cfg, s, events)
    ensures Run(cfg, s, events).dc.query == "" && Run(cfg, s, events).rest.sent[TOKEN] == s.rest.sent[TOKEN]
    decreases |events|
  {
    if events != [] {
      var t := Step(cfg, s, events[0]);
      StepKeeps(cfg, s, events[0]);
      StepLost(cfg, s, events[0]);
      if t.fault == NoFault {
        LostForever(cfg, t, events[1..]);
      } else {
        FaultStays(cfg, t, events[1..]);
      }
    }
  }

  // ---- pings

  lemma ReadyTickPings(cfg: Config, s: Sys, now: int, orders: seq<Key>)
    requires Inv(cfg, s) && s.fault == NoFault && s.dc.status == READY
    ensures var t := Step(cfg, s, Timer(now, orders));
      && t.fault == NoFault && t.dc.status == READY && t.dc.ladder == DONE
      && t.dc.pings == s.dc.pings + (if s.dc.nextPing < now then [now] else [])
      && t.dc.nextPing == if s.dc.nextPing < now then now + 150 else s.dc.nextPing
  {
    var a := Acct(s.dc, s.rq, s.fault);
    DoneTick(cfg, a, now, orders);
    WhenReadyStream(cfg, a, now, orders);
    PingOnly(cfg, a, now, orders);
    StepTimer(cfg, s, now, orders);
    assert s.dc.pings + [] == s.dc.pings;
  }

  /** The ping interval is 300 nanoseconds, a number without a unit: of two ready ticks of a
      session, the first of which pings, the second pings too exactly when it comes more
      than 150 nanoseconds later. */
  lemma TickPingsExact(cfg: Config, s: Sys, t1: int, t2: int, orders1: seq<Key>, orders2: seq<Key>)
    requires Reachable(cfg, s) && s.fault == NoFault && s.dc.status == READY && s.dc.nextPing < t1
    ensures var t := Step(cfg, Step(cfg, s, Timer(t1, orders1)), Timer(t2, orders2));
      t.dc.pings == s.dc.pings + [t1] + if t2 > t1 + 150 then [t2] else []
  {
    JointInvariant(cfg, s);
    var u := Step(cfg, s, Timer(t1, orders1));
    ReadyTickPings(cfg, s, t1, orders1);
    ReadyInSession(cfg, s);
    StepKeeps(cfg, s, Timer(t1, orders1));
    ReadyTickPings(cfg, u, t2, orders2);
  }

  lemma ReadyInSession(cfg: Config, s: Sys)
    requires Inv(cfg, s) && s.fault == NoFault && s.dc.status == READY
    ensures s.dc.created && s.dc.phase == UPGRADED
  {
  }

  lemma DoneTick(cfg: Config, a: Acct, now: int, orders: seq<Key>)
    requires a.fault == NoFault && a.dc.phase == UPGRADED && a.dc.ladder == DONE && a.dc.status == READY
    ensures OnTimer(cfg, a, now, orders) == WhenReady(cfg, a, now, orders)
  {
  }

  lemma PingOnly(cfg: Config, a: Acct, now: int, orders: seq<Key>)
    ensures var b := WhenReady(cfg, a, now, orders);
      b.dc.pings == CheckPing(a.dc, now).pings && b.dc.nextPing == CheckPing(a.dc, now).nextPing && b.dc.phase == a.dc.phase
  {
    var a1 := a.(dc := CheckPing(a.dc, now), rq := a.rq.(token := a.rq.token.Consume()));
    ScanLeavesPings(cfg, a1, now, orders);
    ExpiryLeavesPings(CheckStaleOrders(cfg, a1, now, orders), now);
  }

  lemma ScanLeavesPings(cfg: Config, a: Acct, now: int, orders: seq<Key>)
    ensures CheckStaleOrders(cfg, a, now, orders).dc == a.dc.(nextScan := CheckStaleOrders(cfg, a, now, orders).dc.nextScan)
  {
  }

  lemma ExpiryLeavesPings(a: Acct, now: int)
    ensures var b := CheckSimulatedExpiry(a, now);
      b.dc.pings == a.dc.pings && b.dc.nextPing == a.dc.nextPing && b.dc.phase == a.dc.phase
  {
  }
}
