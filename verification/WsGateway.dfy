/** The order session as the class it is written in, each handler proved to do what its step
    function in `WsSpec` says. */
module WsGateway {
  import opened WsSpec

  class OrderEntryWS {
    const cfg: Settings
    var status: Status
    var welcome: bool
    var pingFreq: int
    var logonTimeout: int
    var nextPing: int
    // what leaves the object
    var responses: seq<Response>
    var authReplies: nat
    var closes: nat
    var fatal: bool
    // history of the connection
    ghost var connected: bool
    ghost var greetings: seq<Greeting>
    ghost var ticks: seq<int>
    ghost var pings: seq<Ping>

    ghost function Abs(): Session
      reads this
    {
      Session(status, welcome, pingFreq, logonTimeout, nextPing, connected, greetings, ticks, pings,
              responses, authReplies, closes, fatal)
    }

    constructor (cfg: Settings)
      ensures this.cfg == cfg && Abs() == INIT
    {
      this.cfg := cfg;
      status, welcome, pingFreq, logonTimeout, nextPing := UNSET, false, 0, 0, 0;
      responses, authReplies, closes, fatal := [], 0, 0, false;
      connected, greetings, ticks, pings := false, [], [], [];
    }

    method Connected(now: int)
      modifies this
      ensures Abs() == OnConnected(cfg, old(Abs()), now)
    {
      logonTimeout := now + cfg.requestTimeout;
      connected := true;
    }

    method Disconnected()
      modifies this
      ensures Abs() == OnDisconnected(old(Abs()))
    {
      status := DISCONNECTED;
      welcome := false;
      ClearTimes();
      Forget();
    }

    method ClearTimes()
      modifies `pingFreq, `logonTimeout, `nextPing
      ensures pingFreq == logonTimeout == nextPing == 0
    {
      pingFreq := 0;
      logonTimeout := 0;
      nextPing := 0;
    }

    ghost method Forget()
      modifies `connected, `greetings, `ticks, `pings
      ensures !connected && greetings == [] && ticks == [] && pings == []
    {
      connected, greetings, ticks, pings := false, [], [], [];
    }

    method Auth()
      modifies this
      ensures Abs() == OnAuth(old(Abs()))
    {
      authReplies := authReplies + 1;
      status := LOGIN_SENT;
      greetings := greetings + [Greeting.Auth];
    }

    method Welcome(m: Message)
      requires m.pingInterval != 0
      modifies this
      ensures Abs() == OnWelcome(old(Abs()), m)
    {
      welcome := true;
      pingFreq := m.pingInterval * MILLISECOND;
      status := READY;
      greetings := greetings + [Greeting.Welcome(m.pingInterval)];
    }

    method Send(response: Response)
      modifies `responses
      ensures responses == old(responses) + [response]
    {
      responses := responses + [response];
    }

    method Error(m: Message)
      modifies this
      ensures Abs() == OnError(cfg, old(Abs()), m)
    {
      match m.op {
        case UNDEFINED =>
          if 400001 <= m.code <= 400006 {
            if cfg.retryLogon {
              closes := closes + 1;
            } else {
              fatal := true;
            }
          }
        case UNKNOWN =>
        case PONG =>
        case ADD_ORDER_ACK => Send(Response(CREATE_ORDER, REJECTED, UNKNOWN_ERROR, m.msg, m.id, "", ""));
        case CANCEL_ORDER_ACK => Send(Response(CANCEL_ORDER, REJECTED, UNKNOWN_ERROR, m.msg, m.id, "", ""));
      }
    }

    method AddOrderAck(m: Message)
      modifies this
      ensures Abs() == OnAddOrderAck(old(Abs()), m)
    {
      Send(Response(CREATE_ORDER, ACCEPTED, NONE, "", m.id, m.orderId, m.clientOid));
    }

    method CancelOrderAck(m: Message)
      modifies this
      ensures Abs() == OnCancelOrderAck(old(Abs()), m)
    {
      Send(Response(CANCEL_ORDER, ACCEPTED, NONE, "", m.id, "", m.clientOid));
    }

    /** The parser calls one handler, or stops the process. A welcome always carries a ping
        interval. */
    method Text(m: Message)
      modifies this
      ensures Abs() == OnText(cfg, old(Abs()), m)
    {
      match Dispatch(m) {
        case AUTH => Auth();
        case WELCOME => Welcome(m);
        case ERROR => Error(m);
        case PONGED =>
        case ADD_ACK => AddOrderAck(m);
        case CANCEL_ACK => CancelOrderAck(m);
        case UNEXPECTED => fatal := true;
      }
    }

    method SendPingAt(now: int) returns (sent: bool)
      modifies `nextPing, `ticks, `pings
      ensures Abs() == SendPing(old(Abs()), now) && sent == (now >= old(nextPing))
    {
      ticks := ticks + [now];
      if now < nextPing {
        return false;
      }
      nextPing := now + Half(pingFreq);
      pings := pings + [Ping(now, pingFreq)];
      return true;
    }

    method CheckLogonTimeoutAt(now: int)
      modifies `closes
      ensures Abs() == CheckLogonTimeout(old(Abs()), now)
    {
      if logonTimeout != 0 && logonTimeout < now {
        closes := closes + 1;
      }
    }

    method Timer(now: int, up: bool)
      modifies this
      ensures Abs() == OnTimer(old(Abs()), now, up)
    {
      if up {
        if status == READY {
          var sent := SendPingAt(now);
        } else {
          CheckLogonTimeoutAt(now);
        }
      }
    }

    /** One event; a stopped process does nothing any more. */
    method Handle(e: Event)
      modifies this
      ensures Abs() == Step(cfg, old(Abs()), e)
    {
      if fatal {
        return;
      }
      match e {
        case Connected(now) => Connected(now);
        case Disconnected => Disconnected();
        case Text(m) => Text(m);
        case Binary => fatal := true;
        case Garbled => fatal := true;
        case Timer(now, up) => Timer(now, up);
      }
    }

    /** A whole run. */
    method HandleAll(events: seq<Event>)
      modifies this
      ensures Abs() == Run(cfg, old(Abs()), events)
    {
      for i := 0 to |events|
        invariant Run(cfg, Abs(), events[i..]) == Run(cfg, old(Abs()), events)
      {
        assert events[i..][0] == events[i] && events[i..][1..] == events[i + 1..];
        Handle(events[i]);
      }
    }
  }
}
