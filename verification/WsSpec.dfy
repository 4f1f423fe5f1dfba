/** The order session over websocket as a step system on values: dispatch of the server's
    messages, logon, pings and the replies given to the order manager. It is the build
    without asserts: where one would fail the session goes on (order_entry_ws.cpp:198, 267,
    376, 392), unlike in `AccountSpec`, where a failed assert stops the process. */
module WsSpec {

  // ---- messages and their dispatch (protocol/json/ws_parser.cpp)

  /** UNDEFINED: the message has no `op`; UNKNOWN: it has one the schema does not list. */
  datatype Op = UNDEFINED | UNKNOWN | PONG | ADD_ORDER_ACK | CANCEL_ORDER_ACK

  /** The fields some handler uses; `pingInterval` is in milliseconds. */
  datatype Message = Message(
    sessionId: string,
    op: Op,
    code: int,
    pingInterval: int,
    id: string,
    msg: string,
    orderId: string,
    clientOid: string)

  const CODE_SUCCESS := 200000

  /** The handler a message is given to; UNEXPECTED is fatal. */
  datatype Handler = AUTH | WELCOME | ERROR | PONGED | ADD_ACK | CANCEL_ACK | UNEXPECTED

  function Dispatch(m: Message): Handler {
    if m.sessionId == "" then
      match m.op
      case UNDEFINED => ERROR
      case UNKNOWN => UNEXPECTED
      case PONG => PONGED
      case ADD_ORDER_ACK => if m.code != CODE_SUCCESS then ERROR else ADD_ACK
      case CANCEL_ORDER_ACK => if m.code != CODE_SUCCESS then ERROR else CANCEL_ACK
    else if m.pingInterval != 0 then WELCOME
    else AUTH
  }

  // ---- what goes to the order manager

  datatype RequestType = CREATE_ORDER | CANCEL_ORDER

  datatype RequestStatus = ACCEPTED | REJECTED

  datatype Error = NONE | UNKNOWN_ERROR

  /** The origin is always the exchange. */
  datatype Response = Response(
    requestType: RequestType,
    status: RequestStatus,
    error: Error,
    text: string,
    requestId: string,
    externalOrderId: string,
    clientOrderId: string)

  // ---- the session (gateway/order_entry_ws.cpp)

  datatype Status = UNSET | DISCONNECTED | LOGIN_SENT | READY

  /** `requestTimeout` in nanoseconds. */
  datatype Settings = Settings(requestTimeout: nat, retryLogon: bool)

  datatype Greeting = Auth | Welcome(interval: int)

  datatype Ping = Ping(time: int, freq: int)

  /** Times in nanoseconds, zero when not set. From `connected` on the fields are history:
      whether a connect came after the last disconnect; the greetings, the ticks while
      ready and the pings since the last disconnect; all responses, auth replies and
      closes; whether the process has stopped. */
  datatype Session = Session(
    status: Status,
    welcome: bool,
    pingFreq: int,
    logonTimeout: int,
    nextPing: int,
    connected: bool,
    greetings: seq<Greeting>,
    ticks: seq<int>,
    pings: seq<Ping>,
    responses: seq<Response>,
    authReplies: nat,
    closes: nat,
    fatal: bool)

  const INIT := Session(UNSET, false, 0, 0, 0, false, [], [], [], [], 0, 0, false)

  const MILLISECOND := 1_000_000

  /** C++ division by two. */
  function Half(x: int): int { if x >= 0 then x / 2 else -((-x) / 2) }

  function OnConnected(cfg: Settings, s: Session, now: int): Session {
    s.(logonTimeout := now + cfg.requestTimeout, connected := true)
  }

  function OnDisconnected(s: Session): Session {
    s.(status := DISCONNECTED, welcome := false, pingFreq := 0, logonTimeout := 0, nextPing := 0,
       connected := false, greetings := [], ticks := [], pings := [])
  }

  function OnAuth(s: Session): Session {
    s.(status := LOGIN_SENT, authReplies := s.authReplies + 1, greetings := s.greetings + [Auth])
  }

  /** The logon deadline is not cleared. */
  function OnWelcome(s: Session, m: Message): Session {
    s.(status := READY, welcome := true, pingFreq := m.pingInterval * MILLISECOND,
       greetings := s.greetings + [Welcome(m.pingInterval)])
  }

  function Respond(s: Session, response: Response): Session { s.(responses := s.responses + [response]) }

  predicate IsAuthError(code: int) { 400001 <= code <= 400006 }

  function Reject(requestType: RequestType, m: Message): Response {
    Response(requestType, REJECTED, UNKNOWN_ERROR, m.msg, m.id, "", "")
  }

  function OnError(cfg: Settings, s: Session, m: Message): Session {
    match m.op
    case UNDEFINED =>
      if !IsAuthError(m.code) then s
      else if cfg.retryLogon then s.(closes := s.closes + 1)
      else s.(fatal := true)
    case ADD_ORDER_ACK => Respond(s, Reject(CREATE_ORDER, m))
    case CANCEL_ORDER_ACK => Respond(s, Reject(CANCEL_ORDER, m))
    case _ => s
  }

  function OnAddOrderAck(s: Session, m: Message): Session {
    Respond(s, Response(CREATE_ORDER, ACCEPTED, NONE, "", m.id, m.orderId, m.clientOid))
  }

  function OnCancelOrderAck(s: Session, m: Message): Session {
    Respond(s, Response(CANCEL_ORDER, ACCEPTED, NONE, "", m.id, "", m.clientOid))
  }

  function OnText(cfg: Settings, s: Session, m: Message): Session {
    match Dispatch(m)
    case AUTH => OnAuth(s)
    case WELCOME => OnWelcome(s, m)
    case ERROR => OnError(cfg, s, m)
    case PONGED => s
    case ADD_ACK => OnAddOrderAck(s, m)
    case CANCEL_ACK => OnCancelOrderAck(s, m)
    case UNEXPECTED => s.(fatal := true)
  }

  function SendPing(s: Session, now: int): Session {
    var ticked := s.(ticks := s.ticks + [now]);
    if now < s.nextPing then ticked
    else ticked.(nextPing := now + Half(s.pingFreq), pings := s.pings + [Ping(now, s.pingFreq)])
  }

  predicate LogonExpired(s: Session, now: int) { s.logonTimeout != 0 && s.logonTimeout < now }

  /** Past the deadline an assert says that the session is not welcomed;
      `WsTheorems.LogonAssertionExact` says when it fails. */
  function CheckLogonTimeout(s: Session, now: int): Session {
    if LogonExpired(s, now) then s.(closes := s.closes + 1) else s
  }

  /** `up`: the connection says that it may be used. */
  function OnTimer(s: Session, now: int, up: bool): Session {
    if !up then s else if s.status == READY then SendPing(s, now) else CheckLogonTimeout(s, now)
  }

  /** `Binary` frames are fatal, and so is a text that cannot be decoded (`Garbled`). */
  datatype Event =
    | Connected(now: int)
    | Disconnected
    | Text(message: Message)
    | Binary
    | Garbled
    | Timer(now: int, up: bool)

  function Step(cfg: Settings, s: Session, e: Event): Session {
    if s.fatal then s
    else match e
      case Connected(now) => OnConnected(cfg, s, now)
      case Disconnected => OnDisconnected(s)
      case Text(m) => OnText(cfg, s, m)
      case Binary => s.(fatal := true)
      case Garbled => s.(fatal := true)
      case Timer(now, up) => OnTimer(s, now, up)
  }

  function Run(cfg: Settings, s: Session, events: seq<Event>): Session
    decreases |events|
  {
    if events == [] then s else Run(cfg, Step(cfg, s, events[0]), events[1..])
  }

  ghost predicate Reachable(cfg: Settings, s: Session) {
    exists events :: Run(cfg, INIT, events) == s
  }
}
