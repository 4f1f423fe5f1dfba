/** The account part of the gateway as a step system on values: what one event does
    to the drop-copy stream, the shared slots and the REST order-entry stream. */
module AccountSpec {
  import opened AccountTypes
  import opened Wrappers

  // ---- drop-copy stream (gateway/drop_copy.cpp)

  /** What the ladder of one session did, in order. */
  datatype Mark =
    | Downloading(state: State)  // status DOWNLOADING published with the name of the state
    | Subscribed(state: State)  // subscription sent, its id is the name of the state
    | Requested(kind: Kind)  // slot marked pending; the REST stream sends the request later
    | Completed(state: State)  // the matching answer was counted
    | Skipped(state: State)
    | PublishedReady

  datatype Phase = CLOSED | CONNECTED | UPGRADED

  datatype DropCopyState = DropCopyState(
    created: bool,
    query: string,
    suspended: bool,
    phase: Phase,
    closing: bool,
    welcome: bool,
    ready: bool,
    status: Status,
    ladder: State,
    logonTimeout: int,
    nextPing: int,
    nextScan: int,
    nextSimulated: int,
    pings: seq<int>,
    trace: seq<Mark>)

  const ABSENT := DropCopyState(
    false, "", false, CLOSED, false, false, false, UNSET, UNDEFINED, 0, 0, 0, 0, [], [])

  function Created(query: string): DropCopyState { ABSENT.(created := true, query := query) }

  /** The stream, the slots it writes to, and whether the process stopped. */
  datatype Acct = Acct(dc: DropCopyState, rq: Requests, fault: Fault)

  /** `std::chrono::nanoseconds` built from the bare number 300. */
  const PING_FREQUENCY: int := 300

  function Note(a: Acct, marks: seq<Mark>): Acct { a.(dc := a.dc.(trace := a.dc.trace + marks)) }

  function KindOf(s: State): Kind {
    match s
    case GET_BALANCES => BALANCES
    case GET_POSITIONS => POSITIONS
    case GET_OPEN_ORDERS => OPEN_ORDERS
    case GET_STALE_ORDERS => STALE_ORDERS
    case GET_TRADES => TRADES
    case _ => TOKEN
  }

  predicate IsSubscribe(s: State) {
    s == SUBSCRIBE_BALANCES || s == SUBSCRIBE_POSITIONS || s == SUBSCRIBE_ORDERS || s == SUBSCRIBE_TRADES
  }

  predicate IsGet(s: State) {
    s == GET_BALANCES || s == GET_POSITIONS || s == GET_OPEN_ORDERS || s == GET_STALE_ORDERS || s == GET_TRADES
  }

  predicate Active(s: State) { s != UNDEFINED && s != DONE }

  /** Whether the ladder passes over `s` without doing anything. */
  predicate Skips(cfg: Config, rq: Requests, s: State) {
    (s == GET_STALE_ORDERS && rq.details == {}) || (s == GET_TRADES && !cfg.tradesLookback)
  }

  /** Entering a state that is not skipped. */
  function Enter(a: Acct, s: State): Acct {
    var a1 := a.(dc := a.dc.(status := DOWNLOADING));
    if IsSubscribe(s) then
      Note(a1, [Downloading(s), Subscribed(s)])
    else
      Note(a1, [Downloading(s), Requested(KindOf(s))]).(rq := a.rq.Put(KindOf(s), a.rq.Get(KindOf(s)).Request()))
  }

  function Finish(a: Acct): Acct {
    var a1 := Note(a.(dc := a.dc.(status := READY)), [PublishedReady]);
    if a.dc.ready then a1.(fault := AssertFailed) else a1.(dc := a1.dc.(ready := true))
  }

  /** The library class `core::Download2` (assumed): states are entered in order, a
      state whose function returns 0 is passed over. */
  function Climb(cfg: Config, a: Acct, s: State): Acct
    requires s != UNDEFINED
    decreases 10 - Index(s)
  {
    var a1 := a.(dc := a.dc.(ladder := s));
    if s == DONE then Finish(a1)
    else if Skips(cfg, a.rq, s) then Climb(cfg, Note(a1, [Skipped(s)]), Next(s))
    else Enter(a1, s)
  }

  /** `core::Download2::check`: counts only when the state is the current one. */
  function Check(cfg: Config, a: Acct, s: State): Acct {
    if s == a.dc.ladder && Active(s) then Climb(cfg, Note(a, [Completed(s)]), Next(s)) else a
  }

  function OnPrivateToken(dc: DropCopyState, query: string): DropCopyState {
    if query != "" && dc.query != query then dc.(query := query, suspended := false) else dc
  }

  function OnConnected(cfg: Config, a: Acct, now: int): Acct {
    if a.dc.logonTimeout != 0 then a.(fault := AssertFailed)
    else a.(dc := a.dc.(
                  phase := CONNECTED,
                  logonTimeout := now + cfg.requestTimeout,
                  nextSimulated := if cfg.simulateExpiry != 0 then now + cfg.simulateExpiry else a.dc.nextSimulated))
  }

  function OnDisconnected(dc: DropCopyState): DropCopyState {
    DropCopyState(dc.created, dc.query, dc.suspended, CLOSED, false, false, false, DISCONNECTED, UNDEFINED,
                  0, 0, dc.nextScan, dc.nextSimulated, [], [])
  }

  function OnWelcome(cfg: Config, a: Acct): Acct {
    Climb(cfg, a.(dc := a.dc.(welcome := true)), SUBSCRIBE_BALANCES)
  }

  function OnAck(cfg: Config, a: Acct, id: Option<State>): Acct {
    match id
    case Some(s) => Check(cfg, a, s)
    case None => a
  }

  function RequestPrivateToken(a: Acct): Acct {
    if a.dc.query == "" then a
    else a.(dc := a.dc.(query := "", suspended := true), rq := a.rq.(token := a.rq.token.Request()))
  }

  /** Polling for the answer the current ladder state waits for. */
  function CheckRequestQueue(cfg: Config, a: Acct, orders: seq<Key>): Acct {
    var s := a.dc.ladder;
    if !IsGet(s) || !a.rq.Get(KindOf(s)).response then a
    else
      var a1 := a.(rq := a.rq.Put(KindOf(s), a.rq.Get(KindOf(s)).Consume()));
      if s == GET_OPEN_ORDERS then Check(cfg, a1.(rq := a1.rq.Scan(orders)), s)
      else if s == GET_STALE_ORDERS && a1.rq.details != {} then a1.(fault := UnexpectedStale)
      else Check(cfg, a1, s)
  }

  function CheckStaleOrders(cfg: Config, a: Acct, now: int, orders: seq<Key>): Acct {
    if a.dc.nextScan < now then
      var rq := a.rq.Scan(orders);
      a.(dc := a.dc.(nextScan := now + cfg.scanFrequency),
         rq := if a.rq.New(orders) != {} then rq.(staleOrders := rq.staleOrders.Request()) else rq)
    else a
  }

  function CheckPing(dc: DropCopyState, now: int): DropCopyState {
    if dc.nextPing < now then dc.(nextPing := now + PING_FREQUENCY / 2, pings := dc.pings + [now]) else dc
  }

  function CheckSimulatedExpiry(a: Acct, now: int): Acct {
    if a.dc.nextSimulated != 0 && a.dc.nextSimulated < now
    then RequestPrivateToken(a.(dc := a.dc.(nextSimulated := 0)))
    else a
  }

  /** The part of a tick that runs only when the status is READY. */
  function WhenReady(cfg: Config, a: Acct, now: int, orders: seq<Key>): Acct {
    var a1 := a.(dc := CheckPing(a.dc, now), rq := a.rq.(token := a.rq.token.Consume()));
    CheckSimulatedExpiry(CheckStaleOrders(cfg, a1, now, orders), now)
  }

  function OnTimer(cfg: Config, a: Acct, now: int, orders: seq<Key>): Acct {
    if a.dc.phase == UPGRADED then
      var a1 := CheckRequestQueue(cfg, a, orders);
      if a1.fault == NoFault && a1.dc.status == READY then WhenReady(cfg, a1, now, orders) else a1
    else if a.dc.logonTimeout != 0 && a.dc.logonTimeout < now then
      if a.dc.welcome then a.(fault := AssertFailed) else a.(dc := a.dc.(closing := true))
    else a
  }

  // ---- REST order-entry stream (gateway/order_entry_rest.cpp)

  /** `outstanding` and `orders` are the requests handed to the REST client and not yet
      answered. The last five fields are history. */
  datatype RestState = RestState(
    status: Status,
    downloading: bool,
    hasToken: bool,
    counter: nat,
    outstanding: multiset<Kind>,
    orders: multiset<Key>,
    sent: multiset<Kind>,
    committed: multiset<Kind>,
    dispatched: multiset<Key>,
    unknown: multiset<Key>,
    answered: multiset<Key>)

  /** The stream, the slots it reads and commits, and whether the process stopped. */
  datatype Side = Side(rest: RestState, rq: Requests, fault: Fault)

  function Send(rest: RestState, k: Kind): RestState {
    rest.(outstanding := rest.outstanding + multiset{k}, sent := rest.sent + multiset{k})
  }

  function Commit(x: Side, k: Kind): Side {
    x.(rq := x.rq.Put(k, x.rq.Get(k).Commit()), rest := x.rest.(committed := x.rest.committed + multiset{k}))
  }

  /** `check_pending`: a pending slot starts only if no slot is in flight and the rate
      limiter grants it. */
  predicate Starts(rq: Requests, k: Kind, grants: set<Kind>) {
    rq.Get(k).pending && rq.Ready() && k in grants
  }

  function CheckPending(x: Side, k: Kind, grants: set<Kind>): Side {
    if Starts(x.rq, k, grants)
    then x.(rq := x.rq.Put(k, x.rq.Get(k).Start()), rest := Send(x.rest, k))
    else x
  }

  /** The part of a batch handed over so far: one request per order that is still known. */
  function Dispatched(rest: RestState, done: set<Key>, known: set<Key>): RestState {
    rest.(counter := rest.counter + |done * known|,
          orders := rest.orders + multiset(done * known),
          dispatched := rest.dispatched + multiset(done * known),
          unknown := rest.unknown + multiset(done - known))
  }

  /** Handing a batch of stale orders to the REST client, after which the set is empty. */
  function DispatchStale(x: Side, known: set<Key>): Side {
    x.(rest := Dispatched(x.rest, x.rq.details, known), rq := x.rq.(details := {}))
  }

  function CheckPendingStale(x: Side, grants: set<Kind>, known: set<Key>): Side {
    if Starts(x.rq, STALE_ORDERS, grants)
    then DispatchStale(x.(rq := x.rq.(staleOrders := x.rq.staleOrders.Start())), known)
    else x
  }

  function CheckQueues(x: Side, grants: set<Kind>, known: set<Key>): Side {
    var x1 := CheckPending(x, BALANCES, grants);
    var x2 := CheckPending(x1, POSITIONS, grants);
    var x3 := CheckPending(x2, OPEN_ORDERS, grants);
    var x4 := CheckPendingStale(x3, grants, known);
    CheckPending(x4, TRADES, grants)
  }

  function OnRestTimer(cfg: Config, x: Side, grants: set<Kind>, known: set<Key>): Side {
    if x.rest.status != READY then x
    else CheckPending(if cfg.master then CheckQueues(x, grants, known) else x, TOKEN, grants)
  }

  /** `core::Download2` of this stream has the one state PRIVATE_TOKEN (assumed: the
      library may send the request again while it waits, here `resend`). */
  function GetPrivateToken(rest: RestState): RestState { Send(rest.(status := DOWNLOADING), TOKEN) }

  function OnRestConnected(rest: RestState, resend: bool): RestState {
    if rest.downloading then (if resend then GetPrivateToken(rest) else rest)
    else if rest.hasToken then rest.(status := READY)
    else GetPrivateToken(rest.(downloading := true))
  }

  function OnRestDisconnected(rest: RestState): RestState { rest.(status := DISCONNECTED) }

  /** Answer to one of the four plain downloads: whatever it says, the slot is committed. */
  function OnAnswer(x: Side, k: Kind, response: Response): Side {
    var x1 := x.(rest := x.rest.(outstanding := x.rest.outstanding - multiset{k}));
    if ProcessResponse(response) == Terminated then x1.(fault := Redirected) else Commit(x1, k)
  }

  function OnOrderAnswer(x: Side, key: Key, response: Response): Side {
    var x1 := x.(rest := x.rest.(orders := x.rest.orders - multiset{key},
                                 answered := x.rest.answered + multiset{key}));
    if ProcessResponse(response) == Terminated then x1.(fault := Redirected) else CountDown(x1)
  }

  function CountDown(x: Side): Side {
    if x.rest.counter == 0 then x.(fault := UnexpectedAnswer)
    else
      var y := x.(rest := x.rest.(counter := x.rest.counter - 1));
      if y.rest.counter == 0 then Commit(y, STALE_ORDERS) else y
  }

  /** Whether the answer makes the stream pass a token on, and whether the success
      handler ran to its end. `superseded` is the verdict of `core::Download2::skip`. */
  predicate Ran(rest: RestState, response: Response, superseded: bool) {
    ProcessResponse(response).Handled? && !(rest.downloading && superseded)
  }

  predicate Delivers(rest: RestState, response: Response, superseded: bool) {
    Ran(rest, response, superseded) && ProcessResponse(response).code == SYSTEM_CODE_SUCCESS
  }

  function OnTokenAnswer(x: Side, response: Response, superseded: bool): Side {
    var x1 := x.(rest := x.rest.(outstanding := x.rest.outstanding - multiset{TOKEN}));
    if ProcessResponse(response) == Terminated then x1.(fault := Redirected)
    else if Ran(x1.rest, response, superseded) then
      Commit(x1.(rest := Processed(x1.rest)), TOKEN)
    else Commit(x1, TOKEN)
  }

  /** The success handler of a token answer; a stream that was downloading is done. */
  function Processed(rest: RestState): RestState {
    rest.(hasToken := true, status := if rest.downloading then READY else rest.status, downloading := false)
  }

  /** The controller creates the drop-copy stream with the first token of an account and
      passes later ones on (gateway/controller.cpp). */
  function DeliverToken(dc: DropCopyState, token: string): DropCopyState {
    if dc.created then OnPrivateToken(dc, "?token=" + token) else Created("?token=" + token)
  }

  // ---- the joint system

  datatype Sys = Sys(dc: DropCopyState, rest: RestState, rq: Requests, fault: Fault)

  const INIT := Sys(
    ABSENT,
    RestState(UNSET, false, false, 0, multiset{}, multiset{}, multiset{}, multiset{}, multiset{}, multiset{}, multiset{}),
    Requests(FREE, FREE, FREE, FREE, FREE, FREE, {}, multiset{}),
    NoFault)

  datatype Event =
    | RestConnected(resend: bool)
    | RestDisconnected
    | RestRetry
    | RestTimer(grants: set<Kind>, known: set<Key>)
    | TokenAnswer(response: Response, token: string, superseded: bool)
    | Answer(kind: Kind, response: Response)
    | OrderAnswer(key: Key, response: Response)
    | Connected(now: int)
    | Upgraded
    | Disconnected
    | Welcome
    | Ack(id: Option<State>)
    | TokenExpired
    | Timer(now: int, orders: seq<Key>)

  /** The events of the drop-copy stream; the others are of the REST stream. */
  predicate Streamed(e: Event) {
    e.Connected? || e.Upgraded? || e.Disconnected? || e.Welcome? || e.Ack? || e.TokenExpired? || e.Timer?
  }

  /** What the environment can do: every request sent gets one later answer, the socket
      opens, is upgraded and closes in that order, the server sends one welcome per
      session and acknowledges only ids sent in it. */
  predicate Enabled(s: Sys, e: Event) {
    match e
    case RestConnected(_) => true
    case RestDisconnected => true
    case RestRetry => s.rest.downloading
    case RestTimer(_, _) => true
    case TokenAnswer(_, _, _) => TOKEN in s.rest.outstanding
    case Answer(k, _) => k != TOKEN && k != STALE_ORDERS && k in s.rest.outstanding
    case OrderAnswer(key, _) => key in s.rest.orders
    case Connected(_) => s.dc.created && s.dc.phase == CLOSED
    case Upgraded => s.dc.phase == CONNECTED
    case Disconnected => s.dc.phase != CLOSED
    case Welcome => s.dc.phase == UPGRADED && !s.dc.welcome
    case Ack(id) => s.dc.phase == UPGRADED && (id.Some? ==> Subscribed(id.value) in s.dc.trace)
    case TokenExpired => s.dc.phase == UPGRADED
    case Timer(_, _) => s.dc.created
  }

  function FromAcct(s: Sys, a: Acct): Sys { s.(dc := a.dc, rq := a.rq, fault := a.fault) }

  function FromSide(s: Sys, x: Side): Sys { s.(rest := x.rest, rq := x.rq, fault := x.fault) }

  function Step(cfg: Config, s: Sys, e: Event): Sys {
    var a := Acct(s.dc, s.rq, s.fault);
    var x := Side(s.rest, s.rq, s.fault);
    if s.fault != NoFault then s else
    match e
    case RestConnected(resend) => s.(rest := OnRestConnected(s.rest, resend))
    case RestDisconnected => s.(rest := OnRestDisconnected(s.rest))
    case RestRetry => s.(rest := GetPrivateToken(s.rest))
    case RestTimer(grants, known) => FromSide(s, OnRestTimer(cfg, x, grants, known))
    case TokenAnswer(response, token, superseded) =>
      var s1 := if Delivers(s.rest, response, superseded) then s.(dc := DeliverToken(s.dc, token)) else s;
      FromSide(s1, OnTokenAnswer(x, response, superseded))
    case Answer(k, response) => FromSide(s, OnAnswer(x, k, response))
    case OrderAnswer(key, response) => FromSide(s, OnOrderAnswer(x, key, response))
    case Connected(now) => FromAcct(s, OnConnected(cfg, a, now))
    case Upgraded => s.(dc := s.dc.(phase := UPGRADED))
    case Disconnected => s.(dc := OnDisconnected(s.dc))
    case Welcome => FromAcct(s, OnWelcome(cfg, a))
    case Ack(id) => FromAcct(s, OnAck(cfg, a, id))
    case TokenExpired => FromAcct(s, RequestPrivateToken(a))
    case Timer(now, orders) => FromAcct(s, OnTimer(cfg, a, now, orders))
  }

  function Run(cfg: Config, s: Sys, events: seq<Event>): Sys
    decreases |events|
  {
    if events == [] then s else Run(cfg, Step(cfg, s, events[0]), events[1..])
  }

  predicate Valid(cfg: Config, s: Sys, events: seq<Event>)
    decreases |events|
  {
    events == [] || (Enabled(s, events[0]) && Valid(cfg, Step(cfg, s, events[0]), events[1..]))
  }

  ghost predicate Reachable(cfg: Config, s: Sys) {
    exists events :: Valid(cfg, INIT, events) && Run(cfg, INIT, events) == s
  }
}
