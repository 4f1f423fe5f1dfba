/** What every run of the order session keeps. */
module WsTheorems {
  import opened Wrappers
  import opened WsSpec
  import Json
  import EncoderSpec
  import EncoderTheorems

  // ---- the invariant

  /** The interval of the last welcome. */
  function LastInterval(greetings: seq<Greeting>): int
    decreases |greetings|
  {
    if greetings == [] then 0
    else
      var last := greetings[|greetings| - 1];
      if last.Welcome? then last.interval else LastInterval(greetings[..|greetings| - 1])
  }

  predicate Welcomed(greetings: seq<Greeting>) { exists i | 0 <= i < |greetings| :: greetings[i].Welcome? }

  /** The state is what the greetings of the session say. */
  ghost predicate GreetingsOk(s: Session) {
    && (s.status == READY <==> s.greetings != [] && s.greetings[|s.greetings| - 1].Welcome?)
    && (s.status == LOGIN_SENT <==> s.greetings != [] && s.greetings[|s.greetings| - 1].Auth?)
    && (s.welcome <==> Welcomed(s.greetings))
    && s.pingFreq == LastInterval(s.greetings) * MILLISECOND
    && (forall i | 0 <= i < |s.greetings| && s.greetings[i].Welcome? :: s.greetings[i].interval != 0)
  }

  /** Every ping but the first waited for the time the one before it set, which lies half a
      ping interval ahead; every tick after the last ping came before that time. */
  ghost predicate PingsOk(s: Session) {
    && (forall i | 0 < i < |s.pings| :: s.pings[i].time >= s.pings[i - 1].time + Half(s.pings[i - 1].freq))
    && (s.pings == [] ==> s.nextPing == 0)
    && (s.pings != [] ==>
          var last := s.pings[|s.pings| - 1];
          s.nextPing == last.time + Half(last.freq))
  }

  ghost predicate Inv(s: Session) { GreetingsOk(s) && PingsOk(s) && (!s.connected ==> s.logonTimeout == 0) }

  lemma GreetingAppends(greetings: seq<Greeting>, g: Greeting)
    ensures LastInterval(greetings + [g]) == if g.Welcome? then g.interval else LastInterval(greetings)
    ensures Welcomed(greetings + [g]) <==> Welcomed(greetings) || g.Welcome?
  {
  }

  lemma AuthKeeps(s: Session)
    requires GreetingsOk(s)
    ensures GreetingsOk(OnAuth(s))
  {
    GreetingAppends(s.greetings, Auth);
  }

  lemma WelcomeKeeps(s: Session, m: Message)
    requires GreetingsOk(s) && m.pingInterval != 0
    ensures GreetingsOk(OnWelcome(s, m))
  {
  }

  /** No message touches pings, ticks or deadlines, and only greetings touch the rest. */
  lemma TextFrame(cfg: Settings, s: Session, m: Message)
    ensures var t := OnText(cfg, s, m);
      && t.pings == s.pings && t.ticks == s.ticks && t.nextPing == s.nextPing
      && t.connected == s.connected && t.logonTimeout == s.logonTimeout
      && (Dispatch(m) != AUTH && Dispatch(m) != WELCOME ==>
            t.status == s.status && t.welcome == s.welcome && t.pingFreq == s.pingFreq && t.greetings == s.greetings)
      && t.pingFreq == if Dispatch(m) == WELCOME then m.pingInterval * MILLISECOND else s.pingFreq
  {
  }

  lemma TextKeeps(cfg: Settings, s: Session, m: Message)
    requires Inv(s)
    ensures Inv(OnText(cfg, s, m))
  {
    TextFrame(cfg, s, m);
    if Dispatch(m) == AUTH {
      AuthKeeps(s);
    } else if Dispatch(m) == WELCOME {
      WelcomeKeeps(s, m);
    } else {
      GreetingsSame(s, OnText(cfg, s, m));
    }
  }

  lemma GreetingsSame(s: Session, t: Session)
    requires GreetingsOk(s)
    requires t.status == s.status && t.welcome == s.welcome && t.pingFreq == s.pingFreq && t.greetings == s.greetings
    ensures GreetingsOk(t)
  {
  }

  lemma TimerKeeps(s: Session, now: int, up: bool)
    requires Inv(s)
    ensures Inv(OnTimer(s, now, up))
  {
  }

  lemma StepKeeps(cfg: Settings, s: Session, e: Event)
    requires Inv(s)
    ensures Inv(Step(cfg, s, e))
  {
    if e.Text? {
      TextKeeps(cfg, s, e.message);
    } else if e.Timer? {
      TimerKeeps(s, e.now, e.up);
    }
  }

  lemma {:induction false} RunKeeps(cfg: Settings, s: Session, events: seq<Event>)
    requires Inv(s)
    ensures Inv(Run(cfg, s, events))
    decreases |events|
  {
    if events != [] {
      StepKeeps(cfg, s, events[0]);
      RunKeeps(cfg, Step(cfg, s, events[0]), events[1..]);
    }
  }

  lemma Holds(cfg: Settings, s: Session)
    requires Reachable(cfg, s)
    ensures Inv(s)
  {
    var events :| Run(cfg, INIT, events) == s;
    RunKeeps(cfg, INIT, events);
  }

  lemma {:induction false} RunAppends(cfg: Settings, s: Session, events: seq<Event>, e: Event)
    ensures Run(cfg, s, events + [e]) == Step(cfg, Run(cfg, s, events), e)
    decreases |events|
  {
    if events == [] {
      assert [] + [e] == [e] && [e][1..] == [];
      assert Run(cfg, Step(cfg, s, e), []) == Step(cfg, s, e);
    } else {
      assert (events + [e])[0] == events[0] && (events + [e])[1..] == events[1..] + [e];
      RunAppends(cfg, Step(cfg, s, events[0]), events[1..], e);
    }
  }

  // ---- logon

  lemma LastIntervalSign(greetings: seq<Greeting>)
    requires Welcomed(greetings)
    ensures exists i | 0 <= i < |greetings| :: greetings[i].Welcome? && greetings[i].interval == LastInterval(greetings)
    decreases |greetings|
  {
    var n := |greetings| - 1;
    if !greetings[n].Welcome? {
      assert greetings == greetings[..n] + [greetings[n]];
      GreetingAppends(greetings[..n], greetings[n]);
      LastIntervalSign(greetings[..n]);
      var i :| 0 <= i < n && greetings[..n][i].Welcome? && greetings[..n][i].interval == LastInterval(greetings[..n]);
      assert greetings[i].Welcome? && greetings[i].interval == LastInterval(greetings);
    }
  }

  /** A ready session was welcomed, and if the server's intervals are not negative its ping
      interval is positive, so that the assertion before a ping holds. */
  lemma ReadyMeansWelcomed(cfg: Settings, s: Session)
    requires Reachable(cfg, s) && s.status == READY
    requires forall i | 0 <= i < |s.greetings| && s.greetings[i].Welcome? :: s.greetings[i].interval >= 0
    ensures s.welcome && s.pingFreq > 0
  {
    Holds(cfg, s);
    LastIntervalSign(s.greetings);
  }

  /** The assertion of the logon check fails at a tick if and only if the deadline has
      passed and the last greeting of a welcomed session is an auth. */
  lemma LogonAssertionExact(cfg: Settings, s: Session, now: int)
    requires Reachable(cfg, s) && s.status != READY && LogonExpired(s, now)
    ensures s.welcome <==> Welcomed(s.greetings) && s.greetings[|s.greetings| - 1].Auth?
  {
    Holds(cfg, s);
  }

  /** The welcome leaves the deadline set: an auth that follows it makes the first usable
      tick past the deadline close a session that had been ready. So it is in a build without
      asserts; with them that tick stops the process instead (`LogonAssertionExact`). */
  lemma LateAuthCloses(cfg: Settings, s: Session, m: Message, now: int)
    requires Reachable(cfg, s) && !s.fatal && s.status == READY && s.connected && Dispatch(m) == AUTH
    requires LogonExpired(s, now)
    ensures var t := Step(cfg, s, Text(m));
      && t.status == LOGIN_SENT && t.welcome && LogonExpired(t, now)
      && Step(cfg, t, Timer(now, true)).closes == s.closes + 1
  {
    Holds(cfg, s);
  }

  /** Such a session exists: connect, welcome, auth, and time passes. */
  lemma LateAuthExample(cfg: Settings) returns (s: Session, now: int)
    requires cfg.requestTimeout > 0
    ensures Reachable(cfg, s) && !s.fatal && s.status == LOGIN_SENT && s.welcome && LogonExpired(s, now)
  {
    var welcome := Message("S", Op.UNDEFINED, 0, 18000, "", "", "", "");
    var events := [Connected(0), Text(welcome), Text(welcome.(pingInterval := 0))];
    assert events == [] + [events[0]] + [events[1]] + [events[2]];
    RunAppends(cfg, INIT, [], events[0]);
    RunAppends(cfg, INIT, [] + [events[0]], events[1]);
    RunAppends(cfg, INIT, [] + [events[0]] + [events[1]], events[2]);
    s, now := Run(cfg, INIT, events), cfg.requestTimeout + 1;
  }

  /** The assertion of the connect handler holds if connects and disconnects alternate. */
  lemma ConnectAssertion(cfg: Settings, s: Session)
    requires Reachable(cfg, s) && !s.connected
    ensures s.logonTimeout == 0
  {
    Holds(cfg, s);
  }

  // ---- pings

  /** Successive pings of a session are at least half a ping interval apart. */
  lemma PingsApart(cfg: Settings, s: Session, i: nat)
    requires Reachable(cfg, s) && 0 < i < |s.pings|
    ensures s.pings[i].time - s.pings[i - 1].time >= Half(s.pings[i - 1].freq)
    ensures 2 * (s.pings[i].time - s.pings[i - 1].time) >= s.pings[i - 1].freq - 1
  {
    Holds(cfg, s);
  }

  /** Ticks while ready are at most `d` apart. */
  ghost predicate Regular(ticks: seq<int>, d: nat) {
    forall i | 0 < i < |ticks| :: ticks[i] - ticks[i - 1] <= d
  }

  /** The gaps so far are short, and the last tick either sent the last ping or came before
      the next one was due. */
  ghost predicate Prompt(s: Session, d: nat) {
    && (forall i | 0 < i < |s.pings| :: s.pings[i].time - s.pings[i - 1].time <= Half(s.pings[i - 1].freq) + d)
    && (forall i | 0 <= i < |s.pings| :: s.pings[i].freq >= 0)
    && (s.pings != [] ==>
          && s.ticks != []
          && var tick := s.ticks[|s.ticks| - 1];
             tick == s.pings[|s.pings| - 1].time || tick < s.nextPing)
  }

  ghost predicate Positive(events: seq<Event>) {
    forall i | 0 <= i < |events| && events[i].Text? :: events[i].message.pingInterval >= 0
  }

  lemma RegularPrefix(ticks: seq<int>, now: int, d: nat)
    requires Regular(ticks + [now], d)
    ensures Regular(ticks, d) && (ticks != [] ==> now - ticks[|ticks| - 1] <= d)
  {
    var all := ticks + [now];
    forall i | 0 < i < |ticks| ensures ticks[i] - ticks[i - 1] <= d {
      assert all[i] - all[i - 1] <= d;
    }
    if ticks != [] {
      assert all[|ticks|] - all[|ticks| - 1] <= d;
    }
  }

  lemma SendPingPrompt(s: Session, now: int, d: nat)
    requires PingsOk(s) && Prompt(s, d) && s.pingFreq >= 0
    requires s.ticks != [] ==> now - s.ticks[|s.ticks| - 1] <= d
    ensures Prompt(SendPing(s, now), d)
  {
  }

  lemma {:induction false} RunPrompt(cfg: Settings, events: seq<Event>, d: nat)
    requires Positive(events)
    ensures var s := Run(cfg, INIT, events); (Regular(s.ticks, d) ==> Prompt(s, d)) && s.pingFreq >= 0
    decreases |events|
  {
    if events != [] {
      var n := |events| - 1;
      var before, e := Run(cfg, INIT, events[..n]), events[n];
      RunPrompt(cfg, events[..n], d);
      assert events[..n] + [e] == events;
      RunAppends(cfg, INIT, events[..n], e);
      RunKeeps(cfg, INIT, events[..n]);
      PromptStep(cfg, before, e, d);
    }
  }

  lemma PromptStep(cfg: Settings, s: Session, e: Event, d: nat)
    requires Inv(s) && s.pingFreq >= 0 && (Regular(s.ticks, d) ==> Prompt(s, d))
    requires e.Text? ==> e.message.pingInterval >= 0
    ensures var t := Step(cfg, s, e); (Regular(t.ticks, d) ==> Prompt(t, d)) && t.pingFreq >= 0
  {
    if s.fatal {
    } else if e.Text? {
      TextFrame(cfg, s, e.message);
      PromptSame(s, OnText(cfg, s, e.message), d);
    } else if e.Timer? {
      TimerPrompt(s, e.now, e.up, d);
    } else if e.Disconnected? {
    } else {
      PromptSame(s, Step(cfg, s, e), d);
    }
  }

  lemma PromptSame(s: Session, t: Session, d: nat)
    requires t.pings == s.pings && t.ticks == s.ticks && t.nextPing == s.nextPing
    ensures Prompt(s, d) <==> Prompt(t, d)
  {
  }

  lemma TimerPrompt(s: Session, now: int, up: bool, d: nat)
    requires PingsOk(s) && s.pingFreq >= 0 && (Regular(s.ticks, d) ==> Prompt(s, d))
    ensures var t := OnTimer(s, now, up); (Regular(t.ticks, d) ==> Prompt(t, d)) && t.pingFreq >= 0
  {
    if up && s.status == READY {
      if Regular(SendPing(s, now).ticks, d) {
        RegularPrefix(s.ticks, now, d);
        SendPingPrompt(s, now, d);
      }
    } else {
      PromptSame(s, OnTimer(s, now, up), d);
    }
  }

  /** If ticks while ready come at most `d` apart, successive pings of the session are at
      most half a ping interval plus `d` apart. */
  lemma PingsPrompt(cfg: Settings, events: seq<Event>, d: nat, i: nat)
    requires Positive(events) && Regular(Run(cfg, INIT, events).ticks, d)
    requires 0 < i < |Run(cfg, INIT, events).pings|
    ensures var pings := Run(cfg, INIT, events).pings;
      && Half(pings[i - 1].freq) <= pings[i].time - pings[i - 1].time <= Half(pings[i - 1].freq) + d
      && pings[i - 1].freq - 1 <= 2 * (pings[i].time - pings[i - 1].time) <= pings[i - 1].freq + 2 * d
  {
    RunPrompt(cfg, events, d);
    RunKeeps(cfg, INIT, events);
  }

  // ---- replies

  /** The reply to one server message: only by empty session id, op and code. */
  function Reply(m: Message): seq<Response> {
    if m.sessionId != "" || (m.op != ADD_ORDER_ACK && m.op != CANCEL_ORDER_ACK) then []
    else
      var requestType := if m.op == ADD_ORDER_ACK then CREATE_ORDER else CANCEL_ORDER;
      if m.code == 200000 then
        [Response(requestType, ACCEPTED, NONE, "", m.id, if m.op == ADD_ORDER_ACK then m.orderId else "", m.clientOid)]
      else [Response(requestType, REJECTED, UNKNOWN_ERROR, m.msg, m.id, "", "")]
  }

  function Replies(events: seq<Event>): seq<Response>
    decreases |events|
  {
    if events == [] then []
    else
      var e := events[|events| - 1];
      Replies(events[..|events| - 1]) + if e.Text? then Reply(e.message) else []
  }

  /** Stops the process: an undecodable or binary frame, an op nobody knows, or a refused
      logon that is not to be retried. */
  predicate Fatal(cfg: Settings, e: Event) {
    e.Binary? || e.Garbled? ||
    (e.Text? && e.message.sessionId == "" &&
      (e.message.op == UNKNOWN || (e.message.op == UNDEFINED && IsAuthError(e.message.code) && !cfg.retryLogon)))
  }

  lemma StepReplies(cfg: Settings, s: Session, e: Event)
    requires !s.fatal
    ensures Step(cfg, s, e).fatal <==> Fatal(cfg, e)
    ensures Step(cfg, s, e).responses == s.responses + if e.Text? then Reply(e.message) else []
  {
  }

  /** The process stops exactly at the first fatal event. */
  lemma {:induction false} FatalExact(cfg: Settings, events: seq<Event>)
    ensures Run(cfg, INIT, events).fatal <==> exists i | 0 <= i < |events| :: Fatal(cfg, events[i])
    decreases |events|
  {
    if events != [] {
      var n := |events| - 1;
      FatalExact(cfg, events[..n]);
      assert events[..n] + [events[n]] == events;
      RunAppends(cfg, INIT, events[..n], events[n]);
      if exists i | 0 <= i < |events[..n]| :: Fatal(cfg, events[..n][i]) {
        var i :| 0 <= i < |events[..n]| && Fatal(cfg, events[..n][i]);
        assert Fatal(cfg, events[i]);
      } else {
        StepReplies(cfg, Run(cfg, INIT, events[..n]), events[n]);
      }
    }
  }

  /** For every sequence of events, connects, drops and ticks included, the responses given
      to the order manager are, in order, exactly the replies to the server's messages, as
      long as the process runs. */
  lemma {:induction false} ReplyRouting(cfg: Settings, events: seq<Event>)
    requires forall i | 0 <= i < |events| :: !Fatal(cfg, events[i])
    ensures Run(cfg, INIT, events).responses == Replies(events)
    decreases |events|
  {
    if events != [] {
      var n := |events| - 1;
      ReplyRouting(cfg, events[..n]);
      FatalExact(cfg, events[..n]);
      assert events[..n] + [events[n]] == events;
      RunAppends(cfg, INIT, events[..n], events[n]);
      StepReplies(cfg, Run(cfg, INIT, events[..n]), events[n]);
    }
  }

  // ---- a request and its reply

  function OpOf(text: string): Op {
    if text == "pong" then PONG
    else if text == "uta.order" then ADD_ORDER_ACK
    else if text == "uta.cancel" then CANCEL_ORDER_ACK
    else UNKNOWN
  }

  /** The server reads a request and answers it: same id, same op, no session id. */
  ghost predicate Answers(request: string, m: Message) {
    && m.sessionId == ""
    && match Json.Read(request)
       case Some(Object(ms)) =>
         EncoderSpec.TextOf(ms, "id") == Some(m.id) &&
         EncoderSpec.TextOf(ms, "op").Some? && m.op == OpOf(EncoderSpec.TextOf(ms, "op").value)
       case _ => false
  }

  /** The answer to an order is routed back to the request id the order was sent with. */
  lemma OrderAnswered(unset: string, id: string, o: EncoderSpec.CreateOrder, m: Message)
    requires Json.PlainText(unset) && Json.PlainText(id) && Json.PlainText(o.symbol) && o.orderType != EncoderSpec.OrderType.UNDEFINED
    requires Answers(EncoderTheorems.WsText(id, "uta.order", EncoderSpec.OrderMembers(unset, id, o)), m)
    ensures |Reply(m)| == 1 && Reply(m)[0].requestId == id && Reply(m)[0].requestType == CREATE_ORDER
    ensures Reply(m)[0].status == ACCEPTED <==> m.code == 200000
  {
    EncoderTheorems.WsOrderExact(unset, id, o);
    EncoderTheorems.WsFields(id, "uta.order", EncoderSpec.OrderMembers(unset, id, o));
    OrderOp();
  }

  lemma OrderOp()
    ensures OpOf("uta.order") == ADD_ORDER_ACK && OpOf("uta.cancel") == CANCEL_ORDER_ACK
  {
  }

  lemma CancelAnswered(id: string, order: EncoderSpec.Order, m: Message)
    requires Json.PlainText(id) && Json.PlainText(order.symbol)
    requires Json.PlainText(EncoderTheorems.IdUsed(order))
    requires Answers(EncoderTheorems.WsText(id, "uta.cancel", EncoderSpec.CancelMembers(order)), m)
    ensures |Reply(m)| == 1 && Reply(m)[0].requestId == id && Reply(m)[0].requestType == CANCEL_ORDER
    ensures Reply(m)[0].status == ACCEPTED <==> m.code == 200000
  {
    EncoderTheorems.WsCancelExact(id, order);
    EncoderTheorems.WsFields(id, "uta.cancel", EncoderSpec.CancelMembers(order));
    OrderOp();
  }
}
