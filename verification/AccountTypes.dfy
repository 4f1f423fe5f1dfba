/** Values shared by the account part of the gateway: the download ladder, the
    request slots an account shares between its two streams, and the answers of
    the REST client. */
module AccountTypes {

  /** The download ladder of the drop-copy stream, in enum order. */
  datatype State =
    | UNDEFINED
    | SUBSCRIBE_BALANCES
    | GET_BALANCES
    | SUBSCRIBE_POSITIONS
    | GET_POSITIONS
    | SUBSCRIBE_ORDERS
    | GET_OPEN_ORDERS
    | GET_STALE_ORDERS
    | SUBSCRIBE_TRADES
    | GET_TRADES
    | DONE

  function Index(s: State): nat {
    match s
    case UNDEFINED => 0
    case SUBSCRIBE_BALANCES => 1
    case GET_BALANCES => 2
    case SUBSCRIBE_POSITIONS => 3
    case GET_POSITIONS => 4
    case SUBSCRIBE_ORDERS => 5
    case GET_OPEN_ORDERS => 6
    case GET_STALE_ORDERS => 7
    case SUBSCRIBE_TRADES => 8
    case GET_TRADES => 9
    case DONE => 10
  }

  function Next(s: State): State {
    match s
    case UNDEFINED => SUBSCRIBE_BALANCES
    case SUBSCRIBE_BALANCES => GET_BALANCES
    case GET_BALANCES => SUBSCRIBE_POSITIONS
    case SUBSCRIBE_POSITIONS => GET_POSITIONS
    case GET_POSITIONS => SUBSCRIBE_ORDERS
    case SUBSCRIBE_ORDERS => GET_OPEN_ORDERS
    case GET_OPEN_ORDERS => GET_STALE_ORDERS
    case GET_STALE_ORDERS => SUBSCRIBE_TRADES
    case SUBSCRIBE_TRADES => GET_TRADES
    case GET_TRADES => DONE
    case DONE => DONE
  }

  datatype Status = UNSET | DISCONNECTED | DOWNLOADING | READY

  /** The six request kinds of an account, one slot each. */
  datatype Kind = TOKEN | BALANCES | POSITIONS | OPEN_ORDERS | STALE_ORDERS | TRADES

  /** A slot of the library class `core::limit::Request` (assumed, from its call
      sites): `request` marks it pending, a start puts it in flight, `commit`
      frees it and records a response, `has_response` consumes that response. */
  datatype Slot = Slot(pending: bool, inFlight: bool, response: bool) {
    predicate Ready() { !inFlight }
    predicate Idle() { !pending && !inFlight && !response }
    function Request(): Slot { this.(pending := true) }
    function Start(): Slot { this.(pending := false, inFlight := true) }
    function Commit(): Slot { this.(inFlight := false, response := true) }
    function Consume(): Slot { this.(response := false) }
  }

  const FREE := Slot(false, false, false)

  datatype Key = Key(userId: nat, orderId: nat)

  /** The slots and the set of stale orders (gateway/request.hpp). `inserted` is
      history: every key ever added to `details`. */
  datatype Requests = Requests(
    token: Slot,
    balances: Slot,
    positions: Slot,
    openOrders: Slot,
    staleOrders: Slot,
    trades: Slot,
    details: set<Key>,
    inserted: multiset<Key>)
  {
    predicate Ready() {
      token.Ready() && balances.Ready() && positions.Ready() && openOrders.Ready() && staleOrders.Ready() && trades.Ready()
    }

    function Get(k: Kind): Slot {
      match k
      case TOKEN => token
      case BALANCES => balances
      case POSITIONS => positions
      case OPEN_ORDERS => openOrders
      case STALE_ORDERS => staleOrders
      case TRADES => trades
    }

    function Put(k: Kind, slot: Slot): Requests {
      match k
      case TOKEN => this.(token := slot)
      case BALANCES => this.(balances := slot)
      case POSITIONS => this.(positions := slot)
      case OPEN_ORDERS => this.(openOrders := slot)
      case STALE_ORDERS => this.(staleOrders := slot)
      case TRADES => this.(trades := slot)
    }

    /** The keys a scan of `orders` adds. */
    function New(orders: seq<Key>): set<Key> { (set k | k in orders) - details }

    function Scan(orders: seq<Key>): Requests {
      this.(details := details + New(orders), inserted := inserted + multiset(New(orders)))
    }
  }

  /** What can stop the process: a failed `assert` or one of the `log::fatal` lines. */
  datatype Fault = NoFault | AssertFailed | UnexpectedAnswer | UnexpectedStale | Redirected

  // answers of the REST client

  datatype Category = UNKNOWN | INFORMATIONAL_RESPONSE | SUCCESS | REDIRECTION | CLIENT_ERROR | SERVER_ERROR

  datatype Body = Malformed | Decoded(code: int)

  datatype Response = NetworkFailure | Http(category: Category, body: Body)

  const SYSTEM_CODE_SUCCESS := 200_000

  /** Where `process_response` ends up: in `log::fatal`, in the success handler with
      a decoded body, or in the error handler. */
  datatype Handling = Terminated | Handled(code: int) | Failed

  function ProcessResponse(response: Response): Handling {
    match response
    case NetworkFailure => Failed
    case Http(UNKNOWN, _) => Failed  // expect() throws
    case Http(INFORMATIONAL_RESPONSE, _) => Failed  // expect() throws
    case Http(REDIRECTION, _) => Terminated
    case Http(SERVER_ERROR, _) => Failed
    case Http(_, Malformed) => Failed  // the decoder throws
    case Http(_, Decoded(code)) => Handled(code)
  }

  datatype Config = Config(
    master: bool,
    tradesLookback: bool,
    requestTimeout: nat,
    scanFrequency: nat,
    simulateExpiry: nat)
}
