/** The objects of the account part, updated in place as the gateway does, each method
    proved to do what the step system says. */
module AccountGateway {
  import opened AccountTypes
  import opened Wrappers
  import opened AccountSpec

  /** gateway/request.hpp: the slots of one account, shared by its two streams. */
  class Request {
    var token: Slot
    var balances: Slot
    var positions: Slot
    var openOrders: Slot
    var staleOrders: Slot
    var trades: Slot
    var details: set<Key>
    ghost var inserted: multiset<Key>

    ghost function Abs(): Requests
      reads this
    {
      Requests(token, balances, positions, openOrders, staleOrders, trades, details, inserted)
    }

    constructor ()
      ensures Abs() == INIT.rq
    {
      token, balances, positions, openOrders, staleOrders, trades := FREE, FREE, FREE, FREE, FREE, FREE;
      details, inserted := {}, multiset{};
    }

    predicate Ready()
      reads this
    {
      token.Ready() && balances.Ready() && positions.Ready() && openOrders.Ready() && staleOrders.Ready() && trades.Ready()
    }

    method Mark(k: Kind)
      modifies this
      ensures Abs() == old(Abs()).Put(k, old(Abs()).Get(k).Request())
    {
      match k {
        case TOKEN => token := token.Request();
        case BALANCES => balances := balances.Request();
        case POSITIONS => positions := positions.Request();
        case OPEN_ORDERS => openOrders := openOrders.Request();
        case STALE_ORDERS => staleOrders := staleOrders.Request();
        case TRADES => trades := trades.Request();
      }
    }

    /** `has_response` */
    method Take(k: Kind) returns (response: bool)
      modifies this
      ensures response == old(Abs()).Get(k).response
      ensures Abs() == old(Abs()).Put(k, old(Abs()).Get(k).Consume())
    {
      match k {
        case TOKEN => response := token.response; token := token.Consume();
        case BALANCES => response := balances.response; balances := balances.Consume();
        case POSITIONS => response := positions.response; positions := positions.Consume();
        case OPEN_ORDERS => response := openOrders.response; openOrders := openOrders.Consume();
        case STALE_ORDERS => response := staleOrders.response; staleOrders := staleOrders.Consume();
        case TRADES => response := trades.response; trades := trades.Consume();
      }
    }

    method Commit(k: Kind)
      modifies this
      ensures Abs() == old(Abs()).Put(k, old(Abs()).Get(k).Commit())
    {
      match k {
        case TOKEN => token := token.Commit();
        case BALANCES => balances := balances.Commit();
        case POSITIONS => positions := positions.Commit();
        case OPEN_ORDERS => openOrders := openOrders.Commit();
        case STALE_ORDERS => staleOrders := staleOrders.Commit();
        case TRADES => trades := trades.Commit();
      }
    }

    method Insert(key: Key) returns (isNew: bool)
      modifies this
      ensures isNew == (key !in old(details))
      ensures Abs() == Inserted(old(Abs()), key)
    {
      isNew := key !in details;
      if isNew {
        details := details + {key};
        inserted := inserted + multiset{key};
      }
    }

    /** `can_request` is the verdict of the shared rate limiter, here `granted`. */
    predicate MayStart(slot: Slot, granted: bool)
      reads this
    {
      slot.pending && Ready() && granted
    }
  }

  function Inserted(rq: Requests, key: Key): Requests {
    if key in rq.details then rq
    else rq.(details := rq.details + {key}, inserted := rq.inserted + multiset{key})
  }

  /** One more order scanned. */
  lemma ScanOne(rq: Requests, orders: seq<Key>, i: nat)
    requires i < |orders|
    ensures rq.Scan(orders[..i + 1]) == Inserted(rq.Scan(orders[..i]), orders[i])
    ensures |rq.New(orders[..i + 1])| == |rq.New(orders[..i])| + (if orders[i] in rq.Scan(orders[..i]).details then 0 else 1)
  {
    var key, added := orders[i], rq.New(orders[..i]);
    assert orders[..i + 1] == orders[..i] + [key];
    if key in rq.Scan(orders[..i]).details {
      assert rq.New(orders[..i + 1]) == added;
    } else {
      assert rq.New(orders[..i + 1]) == added + {key};
      assert multiset(added + {key}) == multiset(added) + multiset{key};
      assert rq.Scan(orders[..i + 1]).details == rq.Scan(orders[..i]).details + {key};
    }
  }

  /** One more key of a batch handled. */
  lemma OneKnown(done: set<Key>, known: set<Key>, key: Key)
    requires key !in done
    ensures var more := done + {key};
      if key in known
      then multiset(more * known) == multiset(done * known) + multiset{key} && more - known == done - known
           && |more * known| == |done * known| + 1
      else multiset(more - known) == multiset(done - known) + multiset{key} && more * known == done * known
  {
    var more := done + {key};
    if key in known {
      assert more * known == done * known + {key} && more - known == done - known;
    } else {
      assert more * known == done * known && more - known == (done - known) + {key};
    }
  }

  lemma ClimbUnfolds(cfg: Config, a: Acct, s: State)
    requires s != UNDEFINED
    ensures var a1 := a.(dc := a.dc.(ladder := s));
      Climb(cfg, a, s) ==
        if s == DONE then Finish(a1)
        else if Skips(cfg, a.rq, s) then Climb(cfg, Note(a1, [Skipped(s)]), Next(s))
        else Enter(a1, s)
  {
  }

  /** gateway/drop_copy.cpp. */
  class DropCopy {
    const cfg: Config
    const request: Request
    var query: string
    var suspended: bool
    var phase: Phase
    var closing: bool
    var welcome: bool
    var ready: bool
    var status: Status
    var ladder: State
    var logonTimeout: int
    var nextPing: int
    var nextScan: int
    var nextSimulated: int
    var pings: seq<int>
    var fault: Fault
    ghost var trace: seq<Mark>

    ghost function Stream(): DropCopyState
      reads this
    {
      DropCopyState(true, query, suspended, phase, closing, welcome, ready, status, ladder,
                    logonTimeout, nextPing, nextScan, nextSimulated, pings, trace)
    }

    ghost function Abs(): Acct
      reads this, request
    {
      Acct(Stream(), request.Abs(), fault)
    }

    constructor (cfg: Config, request: Request, query: string)
      ensures this.cfg == cfg && this.request == request
      ensures Abs() == Acct(Created(query), request.Abs(), NoFault)
    {
      this.cfg, this.request, this.query := cfg, request, query;
      suspended, phase, closing, welcome, ready := false, CLOSED, false, false, false;
      status, ladder := UNSET, UNDEFINED;
      logonTimeout, nextPing, nextScan, nextSimulated := 0, 0, 0, 0;
      pings, fault, trace := [], NoFault, [];
    }

    method OnPrivateToken(query: string)
      modifies this
      ensures Stream() == AccountSpec.OnPrivateToken(old(Stream()), query) && fault == old(fault)
    {
      if query != "" && this.query != query {
        this.query := query;
        suspended := false;
      }
    }

    method OnConnected(now: int)
      requires fault == NoFault
      modifies this
      ensures Abs() == AccountSpec.OnConnected(cfg, old(Abs()), now)
    {
      if logonTimeout != 0 {
        fault := AssertFailed;
        return;
      }
      phase := CONNECTED;
      logonTimeout := now + cfg.requestTimeout;
      if cfg.simulateExpiry != 0 {
        nextSimulated := now + cfg.simulateExpiry;
      }
    }

    /** The socket may be used from now on. */
    method OnUpgraded()
      modifies `phase
      ensures Stream() == old(Stream()).(phase := UPGRADED)
    {
      phase := UPGRADED;
    }

    method OnDisconnected()
      modifies this
      ensures Stream() == AccountSpec.OnDisconnected(old(Stream())) && fault == old(fault)
    {
      Drop();
      Reset();
      ClearSession();
    }

    method Drop()
      modifies `phase, `closing, `ready, `status
      ensures phase == CLOSED && !closing && !ready && status == DISCONNECTED
    {
      phase, closing := CLOSED, false;
      ready := false;
      status := DISCONNECTED;
    }

    method ClearSession()
      modifies `welcome, `logonTimeout, `nextPing
      ensures !welcome && logonTimeout == 0 && nextPing == 0
    {
      welcome := false;
      logonTimeout := 0;
      nextPing := 0;
    }

    /** `core::Download2::reset`; the histories of the session start afresh. */
    method Reset()
      modifies `ladder, `pings, `trace
      ensures ladder == UNDEFINED && pings == [] && trace == []
    {
      ladder := UNDEFINED;
      pings, trace := [], [];
    }

    method OnWelcome()
      requires fault == NoFault
      modifies this, request
      ensures Abs() == AccountSpec.OnWelcome(cfg, old(Abs()))
    {
      welcome := true;
      Begin(SUBSCRIBE_BALANCES);
    }

    method OnAck(id: Option<State>)
      requires fault == NoFault
      modifies this, request
      ensures Abs() == AccountSpec.OnAck(cfg, old(Abs()), id)
    {
      match id {
        case Some(s) => CheckState(s);
        case None =>
      }
    }

    /** An error with code 401 and the text "token is expired". */
    method OnTokenExpired()
      modifies this, request
      ensures Abs() == RequestPrivateToken(old(Abs()))
    {
      if query == "" {
        return;
      }
      query := "";
      suspended := true;
      request.token := request.token.Request();
    }

    method OnTimer(now: int, orders: seq<Key>)
      requires fault == NoFault
      modifies this, request
      ensures Abs() == AccountSpec.OnTimer(cfg, old(Abs()), now, orders)
    {
      if phase == UPGRADED {
        CheckRequestQueue(orders);
        if fault == NoFault && status == READY {
          WhenReady(now, orders);
        }
      } else if logonTimeout != 0 && logonTimeout < now {
        if welcome {
          fault := AssertFailed;
        } else {
          closing := true;
        }
      }
    }

    method WhenReady(now: int, orders: seq<Key>)
      modifies this, request
      ensures Abs() == AccountSpec.WhenReady(cfg, old(Abs()), now, orders)
    {
      CheckPing(now);
      CheckResponsePrivateToken();
      CheckStaleOrdersTimed(now, orders);
      CheckSimulatedExpiry(now);
    }

    method CheckPing(now: int)
      modifies `nextPing, `pings
      ensures Stream() == AccountSpec.CheckPing(old(Stream()), now)
    {
      if nextPing < now {
        nextPing := now + PING_FREQUENCY / 2;
        pings := pings + [now];
      }
    }

    method CheckResponsePrivateToken()
      modifies request`token
      ensures request.Abs() == old(request.Abs()).(token := old(request.Abs()).token.Consume())
    {
      request.token := request.token.Consume();
    }

    method CheckSimulatedExpiry(now: int)
      modifies this, request
      ensures Abs() == AccountSpec.CheckSimulatedExpiry(old(Abs()), now)
    {
      if nextSimulated != 0 && nextSimulated < now {
        nextSimulated := 0;
        OnTokenExpired();
      }
    }

    // core::Download2 (assumed) and the function it calls

    /** Number of answers the state waits for; 0 means it is passed over (or done). */
    method Download(s: State) returns (n: int)
      requires fault == NoFault && s != UNDEFINED && ladder == s
      modifies this, request
      ensures n == if s == DONE || Skips(cfg, old(request.Abs()), s) then 0 else 1
      ensures Abs() == (if s == DONE then Finish(old(Abs()))
                        else if Skips(cfg, old(request.Abs()), s) then old(Abs())
                        else Enter(old(Abs()), s))
    {
      match s {
        case SUBSCRIBE_BALANCES | SUBSCRIBE_POSITIONS | SUBSCRIBE_ORDERS | SUBSCRIBE_TRADES =>
          Subscribe(s);
        case GET_BALANCES =>
          Ask(s, BALANCES);
        case GET_POSITIONS =>
          Ask(s, POSITIONS);
        case GET_OPEN_ORDERS =>
          Ask(s, OPEN_ORDERS);
        case GET_STALE_ORDERS =>
          if request.details == {} {
            return 0;
          }
          Ask(s, STALE_ORDERS);
        case GET_TRADES =>
          if !cfg.tradesLookback {
            return 0;
          }
          Ask(s, TRADES);
        case DONE =>
          Ready();
          return 0;
      }
      return 1;
    }

    method Subscribe(s: State)
      requires IsSubscribe(s)
      modifies this
      ensures Abs() == Enter(old(Abs()), s)
    {
      status := DOWNLOADING;
      trace := trace + [Downloading(s), Subscribed(s)];
    }

    method Ask(s: State, k: Kind)
      requires IsGet(s) && k == KindOf(s)
      modifies this, request
      ensures Abs() == Enter(old(Abs()), s)
    {
      status := DOWNLOADING;
      request.Mark(k);
      trace := trace + [Downloading(s), Requested(k)];
    }

    method Ready()
      requires fault == NoFault
      modifies this
      ensures Abs() == Finish(old(Abs()))
    {
      status := READY;
      trace := trace + [PublishedReady];
      if ready {
        fault := AssertFailed;
      } else {
        ready := true;
      }
    }

    /** Enter states in order until one waits for an answer. */
    method Begin(s: State)
      requires fault == NoFault && s != UNDEFINED
      modifies this, request
      ensures Abs() == Climb(cfg, old(Abs()), s)
      decreases 10 - Index(s)
    {
      ClimbUnfolds(cfg, Abs(), s);
      ladder := s;
      var n := Download(s);
      if n == 0 && s != DONE {
        Mark(Skipped(s));
        Begin(Next(s));
      }
    }

    method Mark(mark: Mark)
      modifies `trace
      ensures Abs() == Note(old(Abs()), [mark])
    {
      trace := trace + [mark];
    }

    method CheckState(s: State)
      requires fault == NoFault
      modifies this, request
      ensures Abs() == Check(cfg, old(Abs()), s)
    {
      if s == ladder && Active(s) {
        Mark(Completed(s));
        Begin(Next(s));
      }
    }

    // helpers

    method CheckRequestQueue(orders: seq<Key>)
      requires fault == NoFault
      modifies this, request
      ensures Abs() == AccountSpec.CheckRequestQueue(cfg, old(Abs()), orders)
    {
      match ladder {
        case GET_BALANCES =>
          Poll(GET_BALANCES, BALANCES);
        case GET_POSITIONS =>
          Poll(GET_POSITIONS, POSITIONS);
        case GET_OPEN_ORDERS =>
          var answered := request.Take(OPEN_ORDERS);
          if answered {
            var found := CheckStaleOrders(orders);  // before the ladder moves on
            CheckState(GET_OPEN_ORDERS);
          }
        case GET_STALE_ORDERS =>
          PollStaleOrders();
        case GET_TRADES =>
          Poll(GET_TRADES, TRADES);
        case _ =>
      }
    }

    /** The batch of this session must not find new keys behind it. */
    method PollStaleOrders()
      requires fault == NoFault && ladder == GET_STALE_ORDERS
      modifies this, request
      ensures Abs() == AccountSpec.CheckRequestQueue(cfg, old(Abs()), [])
    {
      var answered := request.Take(STALE_ORDERS);
      if answered {
        if request.details != {} {
          fault := UnexpectedStale;
          return;
        }
        CheckState(GET_STALE_ORDERS);
      }
    }

    method Poll(s: State, k: Kind)
      requires fault == NoFault
      modifies this, request
      ensures Abs() == if old(request.Abs()).Get(k).response
                       then Check(cfg, old(Abs()).(rq := old(request.Abs()).Put(k, old(request.Abs()).Get(k).Consume())), s)
                       else old(Abs())
    {
      var answered := request.Take(k);
      if answered {
        CheckState(s);
      }
    }

    /** Insert the stale orders the dispatcher reports, one by one; tell whether one was new. */
    method CheckStaleOrders(orders: seq<Key>) returns (found: bool)
      modifies request
      ensures request.Abs() == old(request.Abs()).Scan(orders)
      ensures found <==> old(request.Abs()).New(orders) != {}
    {
      ghost var rq := request.Abs();
      var counter := 0;
      for i := 0 to |orders|
        invariant request.Abs() == rq.Scan(orders[..i])
        invariant counter == |rq.New(orders[..i])|
      {
        ScanOne(rq, orders, i);
        var isNew := request.Insert(orders[i]);
        if isNew {
          counter := counter + 1;
        }
      }
      assert orders[..|orders|] == orders;
      found := counter > 0;
    }

    method CheckStaleOrdersTimed(now: int, orders: seq<Key>)
      modifies this, request
      ensures Abs() == AccountSpec.CheckStaleOrders(cfg, old(Abs()), now, orders)
      ensures nextScan == if old(nextScan) < now then now + cfg.scanFrequency else old(nextScan)
    {
      if nextScan < now {
        nextScan := now + cfg.scanFrequency;
        var found := CheckStaleOrders(orders);
        if found {
          request.staleOrders := request.staleOrders.Request();
        }
      }
    }
  }

  lemma DeliversExact(rest: RestState, response: Response, superseded: bool)
    ensures Delivers(rest, response, superseded) <==>
      && response.Http? && response.category in {SUCCESS, CLIENT_ERROR} && response.body == Decoded(200_000)
      && !(rest.downloading && superseded)
  {
  }

  /** gateway/order_entry_rest.cpp. `outstanding` and `orders` stand for the requests the
      REST client holds. */
  class OrderEntryREST {
    const cfg: Config
    const request: Request
    var status: Status
    var downloading: bool
    var hasToken: bool
    var counter: nat
    var outstanding: multiset<Kind>
    var orders: multiset<Key>
    var fault: Fault
    ghost var sent: multiset<Kind>
    ghost var committed: multiset<Kind>
    ghost var dispatched: multiset<Key>
    ghost var unknown: multiset<Key>
    ghost var answered: multiset<Key>

    ghost function Stream(): RestState
      reads this
    {
      RestState(status, downloading, hasToken, counter, outstanding, orders, sent, committed, dispatched, unknown, answered)
    }

    ghost function Abs(): Side
      reads this, request
    {
      Side(Stream(), request.Abs(), fault)
    }

    constructor (cfg: Config, request: Request)
      ensures this.cfg == cfg && this.request == request
      ensures Abs() == Side(INIT.rest, request.Abs(), NoFault)
    {
      this.cfg, this.request := cfg, request;
      status, downloading, hasToken, counter := UNSET, false, false, 0;
      outstanding, orders, fault := multiset{}, multiset{}, NoFault;
      sent, committed, dispatched, unknown, answered := multiset{}, multiset{}, multiset{}, multiset{}, multiset{};
    }

    method OnTimer(grants: set<Kind>, known: set<Key>)
      modifies this, request
      ensures Abs() == OnRestTimer(cfg, old(Abs()), grants, known)
    {
      if status == READY {
        if cfg.master {
          CheckRequestQueue(grants, known);
        }
        if request.MayStart(request.token, TOKEN in grants) {
          request.token := request.token.Start();
          SendRequest(TOKEN);
        }
      }
    }

    method SendRequest(k: Kind)
      modifies this
      ensures Stream() == Send(old(Stream()), k) && fault == old(fault)
    {
      outstanding, sent := outstanding + multiset{k}, sent + multiset{k};
    }

    method CheckRequestQueue(grants: set<Kind>, known: set<Key>)
      modifies this, request
      ensures Abs() == CheckQueues(old(Abs()), grants, known)
    {
      if request.MayStart(request.balances, BALANCES in grants) {
        request.balances := request.balances.Start();
        SendRequest(BALANCES);
      }
      assert Abs() == CheckPending(old(Abs()), BALANCES, grants);
      label L1:
      if request.MayStart(request.positions, POSITIONS in grants) {
        request.positions := request.positions.Start();
        SendRequest(POSITIONS);
      }
      assert Abs() == CheckPending(old@L1(Abs()), POSITIONS, grants);
      label L2:
      if request.MayStart(request.openOrders, OPEN_ORDERS in grants) {
        request.openOrders := request.openOrders.Start();
        SendRequest(OPEN_ORDERS);
      }
      assert Abs() == CheckPending(old@L2(Abs()), OPEN_ORDERS, grants);
      label L3:
      if request.MayStart(request.staleOrders, STALE_ORDERS in grants) {
        request.staleOrders := request.staleOrders.Start();
        DispatchBatch(known);
      }
      assert Abs() == CheckPendingStale(old@L3(Abs()), grants, known);
      label L4:
      if request.MayStart(request.trades, TRADES in grants) {
        request.trades := request.trades.Start();
        SendRequest(TRADES);
      }
      assert Abs() == CheckPending(old@L4(Abs()), TRADES, grants);
    }

    /** One detail request per order the dispatcher still knows; then the set is emptied. */
    method DispatchBatch(known: set<Key>)
      modifies this, request
      ensures Abs() == DispatchStale(old(Abs()), known)
    {
      HandOverAll(request.details, known);
      request.details := {};
    }

    /** The order of the keys is that of a hash table. An order the dispatcher finds gets its
        detail request, for any other a warning is logged. */
    method HandOverAll(keys: set<Key>, known: set<Key>)
      modifies `orders, `dispatched, `counter, `unknown
      ensures HandedOver(old(Stream()), keys, known)
    {
      ghost var rest := Stream();
      ghost var done: set<Key> := {};
      assert {} * known == {} && {} - known == {};
      var todo := keys;
      while todo != {}
        invariant done !! todo && done + todo == keys && HandedOver(rest, done, known)
        decreases todo
      {
        var key :| key in todo;
        HandOver(key, known, rest, done);
        todo, done := todo - {key}, done + {key};
      }
      assert done == keys;
    }

    /** The keys in `done` are handled, starting from `rest`. */
    ghost predicate HandedOver(rest: RestState, done: set<Key>, known: set<Key>)
      reads this
    {
      && counter == rest.counter + |done * known|
      && orders == rest.orders + multiset(done * known)
      && dispatched == rest.dispatched + multiset(done * known)
      && unknown == rest.unknown + multiset(done - known)
    }

    method HandOver(key: Key, known: set<Key>, ghost rest: RestState, ghost done: set<Key>)
      requires key !in done && HandedOver(rest, done, known)
      modifies `orders, `dispatched, `counter, `unknown
      ensures HandedOver(rest, done + {key}, known)
    {
      OneKnown(done, known, key);
      if key in known {
        orders, dispatched := orders + multiset{key}, dispatched + multiset{key};
        counter := counter + 1;
      } else {
        unknown := unknown + multiset{key};
      }
    }

    // connection and the initial token

    method OnConnected(resend: bool)
      modifies this
      ensures Stream() == OnRestConnected(old(Stream()), resend) && fault == old(fault)
    {
      if downloading {
        if resend {
          GetPrivateToken();
        }
      } else if hasToken {
        status := READY;
      } else {
        downloading := true;
        GetPrivateToken();
      }
    }

    method GetPrivateToken()
      modifies this
      ensures Stream() == AccountSpec.GetPrivateToken(old(Stream())) && fault == old(fault)
    {
      status := DOWNLOADING;
      SendRequest(TOKEN);
    }

    method OnDisconnected()
      modifies this
      ensures Stream() == OnRestDisconnected(old(Stream())) && fault == old(fault)
      ensures status == DISCONNECTED && downloading == old(downloading) && outstanding == old(outstanding)
    {
      status := DISCONNECTED;
    }

    // answers

    /** The answer to a token request; `delivered` is what the controller is handed. */
    method GetPrivateTokenAck(response: Response, token: string, superseded: bool) returns (delivered: Option<string>)
      requires fault == NoFault
      modifies this, request
      ensures Abs() == OnTokenAnswer(old(Abs()), response, superseded)
      ensures delivered == if Delivers(old(Stream()), response, superseded) then Some("?token=" + token) else None
      ensures delivered.Some? <==>
        && response.Http? && response.category in {SUCCESS, CLIENT_ERROR} && response.body == Decoded(200_000)
        && !(old(downloading) && superseded)
    {
      DeliversExact(Stream(), response, superseded);
      Received(TOKEN);
      if ProcessResponse(response) == Terminated {
        Redirect();
        return None;
      }
      delivered := HandleToken(response, token, superseded);
      CommitSlot(TOKEN);
    }

    method HandleToken(response: Response, token: string, superseded: bool) returns (delivered: Option<string>)
      modifies this
      ensures Stream() == (if Ran(old(Stream()), response, superseded) then Processed(old(Stream())) else old(Stream()))
      ensures delivered == if Delivers(old(Stream()), response, superseded) then Some("?token=" + token) else None
      ensures fault == old(fault)
    {
      delivered := None;
      var handling := ProcessResponse(response);
      if handling.Handled? && !(downloading && superseded) {
        if handling.code == SYSTEM_CODE_SUCCESS {
          delivered := Some("?token=" + token);
        }
        Process();
      }
    }

    method Process()
      modifies this
      ensures Stream() == Processed(old(Stream())) && fault == old(fault)
    {
      if downloading {
        downloading := false;
        status := READY;
      }
      hasToken := true;
    }

    method CommitSlot(k: Kind)
      modifies this, request
      ensures Abs() == Commit(old(Abs()), k)
    {
      request.Commit(k);
      committed := committed + multiset{k};
    }

    /** What the four handlers of plain downloads have in common: their success handlers only
        pass on what they decoded. */
    method Answered(k: Kind, response: Response)
      requires fault == NoFault
      modifies this, request
      ensures Abs() == OnAnswer(old(Abs()), k, response)
    {
      Received(k);
      if ProcessResponse(response) == Terminated {
        Redirect();
      } else {
        CommitSlot(k);
      }
    }

    method Redirect()
      modifies `fault
      ensures Abs() == old(Abs()).(fault := Redirected)
    {
      fault := Redirected;
    }

    method Received(k: Kind)
      modifies `outstanding
      ensures Stream() == old(Stream()).(outstanding := old(outstanding) - multiset{k})
    {
      outstanding := outstanding - multiset{k};
    }

    method GetAccountAck(response: Response)
      requires fault == NoFault
      modifies this, request
      ensures Abs() == OnAnswer(old(Abs()), BALANCES, response)
    {
      Answered(BALANCES, response);
    }

    method GetPositionAck(response: Response)
      requires fault == NoFault
      modifies this, request
      ensures Abs() == OnAnswer(old(Abs()), POSITIONS, response)
    {
      Answered(POSITIONS, response);
    }

    method GetOrdersAck(response: Response)
      requires fault == NoFault
      modifies this, request
      ensures Abs() == OnAnswer(old(Abs()), OPEN_ORDERS, response)
    {
      Answered(OPEN_ORDERS, response);
    }

    method GetExecutionAck(response: Response)
      requires fault == NoFault
      modifies this, request
      ensures Abs() == OnAnswer(old(Abs()), TRADES, response)
    {
      Answered(TRADES, response);
    }

    method GetOrderAck(key: Key, response: Response)
      requires fault == NoFault
      modifies this, request
      ensures Abs() == OnOrderAnswer(old(Abs()), key, response)
    {
      TakeAnswer(key);
      if ProcessResponse(response) == Terminated {
        Redirect();
        return;
      }
      CountDown();
    }

    method TakeAnswer(key: Key)
      modifies `orders, `answered
      ensures Stream() ==
        old(Stream()).(orders := old(orders) - multiset{key}, answered := old(answered) + multiset{key})
    {
      orders, answered := orders - multiset{key}, answered + multiset{key};
    }

    method CountDown()
      requires fault == NoFault
      modifies this, request
      ensures Abs() == AccountSpec.CountDown(old(Abs()))
    {
      if counter > 0 {
        counter := counter - 1;
      } else {
        fault := UnexpectedAnswer;
        return;
      }
      if counter == 0 {
        CommitSlot(STALE_ORDERS);
      }
    }
  }

  /** What an event of the drop-copy stream does to that stream and the slots. */
  function StreamEffect(cfg: Config, a: Acct, e: Event): Acct
    requires Streamed(e)
  {
    match e
    case Connected(now) => OnConnected(cfg, a, now)
    case Upgraded => a.(dc := a.dc.(phase := UPGRADED))
    case Disconnected => a.(dc := OnDisconnected(a.dc))
    case Welcome => OnWelcome(cfg, a)
    case Ack(id) => OnAck(cfg, a, id)
    case TokenExpired => RequestPrivateToken(a)
    case Timer(now, orders) => OnTimer(cfg, a, now, orders)
  }

  /** What an event of the REST stream does to that stream and the slots. */
  function RestEffect(cfg: Config, x: Side, e: Event): Side
    requires !Streamed(e)
  {
    match e
    case RestConnected(resend) => x.(rest := OnRestConnected(x.rest, resend))
    case RestDisconnected => x.(rest := OnRestDisconnected(x.rest))
    case RestRetry => x.(rest := GetPrivateToken(x.rest))
    case RestTimer(grants, known) => OnRestTimer(cfg, x, grants, known)
    case TokenAnswer(response, token, superseded) => OnTokenAnswer(x, response, superseded)
    case Answer(k, response) => OnAnswer(x, k, response)
    case OrderAnswer(key, response) => OnOrderAnswer(x, key, response)
  }

  /** An event is the business of one stream, but for a token that is handed on. */
  lemma StepSplits(cfg: Config, s: Sys, e: Event)
    requires s.fault == NoFault
    ensures Streamed(e) ==> Step(cfg, s, e) == FromAcct(s, StreamEffect(cfg, Acct(s.dc, s.rq, s.fault), e))
    ensures !Streamed(e) ==>
      var delivered := e.TokenAnswer? && Delivers(s.rest, e.response, e.superseded);
      Step(cfg, s, e) == FromSide(s.(dc := if delivered then DeliverToken(s.dc, e.token) else s.dc),
                                  RestEffect(cfg, Side(s.rest, s.rq, s.fault), e))
  {
  }

  /** One account: its two streams on the slots they share, from the first token on both.
      Each event reaches the stream it is for, and all three objects together do what the
      step of the joint system says. */
  class Account {
    const cfg: Config
    const request: Request
    const rest: OrderEntryREST
    var dropCopy: DropCopy?

    ghost predicate Valid()
      reads this
    {
      && rest.cfg == cfg && rest.request == request
      && (dropCopy != null ==> dropCopy.cfg == cfg && dropCopy.request == request)
    }

    ghost function Parts(): set<object>
      reads this
    {
      {this, request, rest} + if dropCopy == null then {} else {dropCopy}
    }

    /** Either stream can stop the process. */
    function Stopped(): Fault
      reads this, rest, dropCopy
    {
      if rest.fault != NoFault || dropCopy == null then rest.fault else dropCopy.fault
    }

    ghost function Stream(): DropCopyState
      reads this, dropCopy
    {
      if dropCopy == null then ABSENT else dropCopy.Stream()
    }

    ghost function Abs(): Sys
      reads this, request, rest, dropCopy
    {
      Sys(Stream(), rest.Stream(), request.Abs(), Stopped())
    }

    constructor (cfg: Config)
      ensures Valid() && this.cfg == cfg && Abs() == INIT && fresh(Parts())
    {
      this.cfg, dropCopy := cfg, null;
      var slots := new Request();
      request := slots;
      rest := new OrderEntryREST(cfg, slots);
    }

    method Deliver(query: string)
      requires Valid() && Stopped() == NoFault
      modifies this, dropCopy
      ensures Valid() && fresh(Parts() - old(Parts())) && Stopped() == NoFault
      ensures Stream() == if old(Stream()).created then OnPrivateToken(old(Stream()), query) else Created(query)
    {
      if dropCopy == null {
        dropCopy := new DropCopy(cfg, request, query);
      } else {
        dropCopy.OnPrivateToken(query);
      }
    }

    method Answer(k: Kind, response: Response)
      requires Valid() && rest.fault == NoFault && k != TOKEN && k != STALE_ORDERS
      modifies rest, request
      ensures rest.Abs() == OnAnswer(old(rest.Abs()), k, response)
    {
      match k {
        case BALANCES => rest.GetAccountAck(response);
        case POSITIONS => rest.GetPositionAck(response);
        case OPEN_ORDERS => rest.GetOrdersAck(response);
        case TRADES => rest.GetExecutionAck(response);
      }
    }

    method OnRest(e: Event) returns (delivered: Option<string>)
      requires Valid() && rest.fault == NoFault && !Streamed(e) && (e.Answer? ==> e.kind != TOKEN && e.kind != STALE_ORDERS)
      modifies rest, request
      ensures rest.Abs() == RestEffect(cfg, old(rest.Abs()), e)
      ensures delivered ==
        if e.TokenAnswer? && Delivers(old(rest.Stream()), e.response, e.superseded) then Some("?token=" + e.token) else None
    {
      delivered := None;
      match e {
        case RestConnected(resend) => rest.OnConnected(resend);
        case RestDisconnected => rest.OnDisconnected();
        case RestRetry => rest.GetPrivateToken();
        case RestTimer(grants, known) => rest.OnTimer(grants, known);
        case TokenAnswer(response, token, superseded) => delivered := rest.GetPrivateTokenAck(response, token, superseded);
        case Answer(k, response) => Answer(k, response);
        case OrderAnswer(key, response) => rest.GetOrderAck(key, response);
      }
    }

    method OnStream(e: Event)
      requires Valid() && dropCopy != null && dropCopy.fault == NoFault && Streamed(e)
      modifies dropCopy, request
      ensures dropCopy.Abs() == StreamEffect(cfg, old(dropCopy.Abs()), e)
    {
      match e {
        case Connected(now) => dropCopy.OnConnected(now);
        case Upgraded => dropCopy.OnUpgraded();
        case Disconnected => dropCopy.OnDisconnected();
        case Welcome => dropCopy.OnWelcome();
        case Ack(id) => dropCopy.OnAck(id);
        case TokenExpired => dropCopy.OnTokenExpired();
        case Timer(now, orders) => dropCopy.OnTimer(now, orders);
      }
    }

    method HandleStream(e: Event)
      requires Valid() && Stopped() == NoFault && dropCopy != null && Streamed(e)
      modifies dropCopy, request
      ensures Abs() == Step(cfg, old(Abs()), e)
    {
      StepSplits(cfg, Abs(), e);
      OnStream(e);
    }

    method HandleRest(e: Event)
      requires Valid() && Stopped() == NoFault && !Streamed(e) && Enabled(Abs(), e)
      modifies Parts()
      ensures Valid() && fresh(Parts() - old(Parts())) && Abs() == Step(cfg, old(Abs()), e)
    {
      StepSplits(cfg, Abs(), e);
      var delivered := OnRest(e);
      if delivered.Some? {
        Deliver(delivered.value);
      }
    }

    /** One event; a stopped process does nothing any more. */
    method Handle(e: Event)
      requires Valid() && Enabled(Abs(), e)
      modifies Parts()
      ensures Valid() && fresh(Parts() - old(Parts())) && Abs() == Step(cfg, old(Abs()), e)
    {
      if Stopped() != NoFault {
        return;
      }
      if Streamed(e) {
        assert dropCopy != null;  // nothing of a stream that is not there is enabled
        HandleStream(e);
      } else {
        HandleRest(e);
      }
    }

    /** A whole run. */
    method HandleAll(events: seq<Event>)
      requires Valid() && AccountSpec.Valid(cfg, Abs(), events)
      modifies Parts()
      ensures Valid() && fresh(Parts() - old(Parts())) && Abs() == Run(cfg, old(Abs()), events)
    {
      for i := 0 to |events|
        invariant Valid() && fresh(Parts() - old(Parts()))
        invariant AccountSpec.Valid(cfg, Abs(), events[i..])
        invariant Run(cfg, Abs(), events[i..]) == Run(cfg, old(Abs()), events)
      {
        assert events[i..][0] == events[i] && events[i..][1..] == events[i + 1..];
        Handle(events[i]);
      }
    }
  }

  /** The drop-copy part of gateway/controller.cpp: the map holds at most one stream per
      account. */
  class TokenRouter {
    const cfg: Config
    const requests: map<string, Request>
    var dropCopies: map<string, DropCopy>

    /** Different accounts have different streams, each on the slots of its account. */
    ghost predicate Valid()
      reads this, dropCopies.Values
    {
      && dropCopies.Keys <= requests.Keys
      && (forall account | account in dropCopies :: dropCopies[account].request == requests[account])
      && (forall p, q | p in dropCopies && q in dropCopies && p != q :: dropCopies[p] != dropCopies[q])
    }

    constructor (cfg: Config, requests: map<string, Request>)
      ensures this.cfg == cfg && this.requests == requests && dropCopies == map[] && Valid()
    {
      this.cfg, this.requests, dropCopies := cfg, requests, map[];
    }

    /** The first token of an account creates its stream, later ones go to that stream;
        no other account is touched. */
    method OnPrivateToken(account: string, token: string)
      requires Valid() && account in requests
      modifies this, dropCopies.Values
      ensures Valid() && dropCopies.Keys == old(dropCopies.Keys) + {account}
      ensures account !in old(dropCopies) ==> fresh(dropCopies[account])
      ensures dropCopies[account].Stream() ==
        DeliverToken(if account in old(dropCopies) then old(dropCopies[account].Stream()) else ABSENT, token)
      ensures forall other | other in old(dropCopies) :: dropCopies[other] == old(dropCopies[other])
      ensures forall other | other in old(dropCopies) && other != account ::
        dropCopies[other].Stream() == old(dropCopies[other].Stream())
    {
      if account !in dropCopies {
        var dropCopy := new DropCopy(cfg, requests[account], "?token=" + token);
        dropCopies := dropCopies[account := dropCopy];
      } else {
        assert dropCopies[account] in dropCopies.Values;
        dropCopies[account].OnPrivateToken("?token=" + token);
      }
    }
  }
}
