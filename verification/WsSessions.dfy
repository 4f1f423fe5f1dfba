/** The order session told by its events alone: its greetings, status and ping interval, the
    auth replies, and when it gives a connection up. */
module WsSessions {
  import opened Wrappers
  import opened WsSpec
  import opened WsTheorems

  // ---- what the server said since the last disconnect

  /** A message with a session id greets: with a ping interval it is a welcome, without one
      it asks for the logon. */
  function Greetings(events: seq<Event>): seq<Greeting>
    decreases |events|
  {
    if events == [] then []
    else
      var before := Greetings(events[..|events| - 1]);
      match events[|events| - 1]
      case Disconnected => []
      case Text(m) =>
        if m.sessionId == "" then before
        else before + [if m.pingInterval != 0 then Greeting.Welcome(m.pingInterval) else Greeting.Auth]
      case _ => before
  }

  ghost predicate NoneFatal(cfg: Settings, events: seq<Event>) {
    forall i | 0 <= i < |events| :: !Fatal(cfg, events[i])
  }

  lemma StepGreets(cfg: Settings, s: Session, e: Event)
    requires !s.fatal && !Fatal(cfg, e)
    ensures Step(cfg, s, e).greetings ==
      match e
      case Disconnected => []
      case Text(m) =>
        if m.sessionId == "" then s.greetings
        else s.greetings + [if m.pingInterval != 0 then Greeting.Welcome(m.pingInterval) else Greeting.Auth]
      case _ => s.greetings
  {
  }

  lemma Last(cfg: Settings, events: seq<Event>)
    requires events != [] && NoneFatal(cfg, events)
    ensures var n := |events| - 1;
      && NoneFatal(cfg, events[..n]) && !Run(cfg, INIT, events[..n]).fatal
      && Run(cfg, INIT, events) == Step(cfg, Run(cfg, INIT, events[..n]), events[n])
  {
    var n := |events| - 1;
    FatalExact(cfg, events[..n]);
    assert events[..n] + [events[n]] == events;
    RunAppends(cfg, INIT, events[..n], events[n]);
  }

  lemma {:induction false} RunGreets(cfg: Settings, events: seq<Event>)
    requires NoneFatal(cfg, events)
    ensures Run(cfg, INIT, events).greetings == Greetings(events)
    decreases |events|
  {
    if events != [] {
      Last(cfg, events);
      RunGreets(cfg, events[..|events| - 1]);
      StepGreets(cfg, Run(cfg, INIT, events[..|events| - 1]), events[|events| - 1]);
    }
  }

  lemma {:induction false} RunDropped(cfg: Settings, events: seq<Event>)
    requires NoneFatal(cfg, events) && Greetings(events) == []
    ensures Run(cfg, INIT, events).status == if Disconnected in events then DISCONNECTED else UNSET
    decreases |events|
  {
    if events != [] {
      var n := |events| - 1;
      Last(cfg, events);
      assert Disconnected in events <==> Disconnected in events[..n] || events[n] == Disconnected by {
        assert events == events[..n] + [events[n]];
      }
      if events[n] != Disconnected {
        RunDropped(cfg, events[..n]);
      }
    }
  }

  /** The session is what the server's greetings since the last disconnect make it: READY if
      the last one was a welcome, LOGIN_SENT if it was an auth; a welcome is remembered, and
      the ping interval is that of the last welcome, in milliseconds. */
  lemma SessionExact(cfg: Settings, events: seq<Event>)
    requires NoneFatal(cfg, events)
    ensures var s, greetings := Run(cfg, INIT, events), Greetings(events);
      && s.status == (if greetings == [] then (if Disconnected in events then DISCONNECTED else UNSET)
                      else if greetings[|greetings| - 1].Welcome? then READY else LOGIN_SENT)
      && (s.welcome <==> exists i | 0 <= i < |greetings| :: greetings[i].Welcome?)
      && s.pingFreq == LastInterval(greetings) * 1_000_000
  {
    RunGreets(cfg, events);
    Holds(cfg, Run(cfg, INIT, events));
    if Greetings(events) == [] {
      RunDropped(cfg, events);
    }
  }

  // ---- auth replies and closes

  /** The server asks for the logon. */
  predicate AsksLogon(e: Event) { e.Text? && e.message.sessionId != "" && e.message.pingInterval == 0 }

  lemma StepReplies(cfg: Settings, s: Session, e: Event)
    requires !s.fatal && !Fatal(cfg, e)
    ensures Step(cfg, s, e).authReplies == s.authReplies + if AsksLogon(e) then 1 else 0
  {
  }

  /** Every auth is replied to, once. */
  lemma {:induction false} AuthReplied(cfg: Settings, events: seq<Event>)
    requires NoneFatal(cfg, events)
    ensures Run(cfg, INIT, events).authReplies == |set i | 0 <= i < |events| && AsksLogon(events[i])|
    decreases |events|
  {
    if events != [] {
      var n := |events| - 1;
      Last(cfg, events);
      AuthReplied(cfg, events[..n]);
      StepReplies(cfg, Run(cfg, INIT, events[..n]), events[n]);
      AsksNext(events);
    }
  }

  lemma AsksNext(events: seq<Event>)
    requires events != []
    ensures var n := |events| - 1;
      |set i | 0 <= i < |events| && AsksLogon(events[i])|
      == |set i | 0 <= i < n && AsksLogon(events[..n][i])| + if AsksLogon(events[n]) then 1 else 0
  {
    var n := |events| - 1;
    var before, all := set i | 0 <= i < n && AsksLogon(events[..n][i]), set i | 0 <= i < |events| && AsksLogon(events[i]);
    assert all == before + if AsksLogon(events[n]) then {n} else {};
  }

  /** The time of the connect, if the connection still stands. */
  function ConnectedAt(events: seq<Event>): Option<int>
    decreases |events|
  {
    if events == [] then None
    else
      match events[|events| - 1]
      case Connected(now) => Some(now)
      case Disconnected => None
      case _ => ConnectedAt(events[..|events| - 1])
  }

  lemma StepDeadline(cfg: Settings, s: Session, e: Event)
    requires !s.fatal
    ensures Step(cfg, s, e).logonTimeout ==
      match e
      case Connected(now) => now + cfg.requestTimeout
      case Disconnected => 0
      case _ => s.logonTimeout
  {
  }

  lemma {:induction false} RunDeadline(cfg: Settings, events: seq<Event>)
    requires NoneFatal(cfg, events)
    ensures Run(cfg, INIT, events).logonTimeout ==
      match ConnectedAt(events)
      case Some(time) => time + cfg.requestTimeout
      case None => 0
    decreases |events|
  {
    if events != [] {
      Last(cfg, events);
      RunDeadline(cfg, events[..|events| - 1]);
      StepDeadline(cfg, Run(cfg, INIT, events[..|events| - 1]), events[|events| - 1]);
    }
  }

  /** The logon is refused. */
  predicate Refused(m: Message) { m.sessionId == "" && m.op == UNDEFINED && 400001 <= m.code <= 400006 }

  /** A refused logon that is to be retried, or a usable tick that finds the session not ready
      more than the request timeout after the connect. */
  predicate GivesUp(cfg: Settings, events: seq<Event>, i: nat)
    requires i < |events|
  {
    match events[i]
    case Text(m) => Refused(m) && cfg.retryLogon
    case Timer(now, up) =>
      && up && Run(cfg, INIT, events[..i]).status != READY && ConnectedAt(events[..i]).Some?
      && var deadline := ConnectedAt(events[..i]).value + cfg.requestTimeout; deadline != 0 && deadline < now
    case _ => false
  }

  lemma StepCloses(cfg: Settings, events: seq<Event>)
    requires events != [] && NoneFatal(cfg, events)
    ensures var n := |events| - 1;
      Run(cfg, INIT, events).closes == Run(cfg, INIT, events[..n]).closes + if GivesUp(cfg, events, n) then 1 else 0
  {
    var n := |events| - 1;
    Last(cfg, events);
    RunDeadline(cfg, events[..n]);
  }

  /** The connection is closed exactly as often as that. */
  lemma {:induction false} ClosesExact(cfg: Settings, events: seq<Event>)
    requires NoneFatal(cfg, events)
    ensures Run(cfg, INIT, events).closes == |set i: nat | i < |events| && GivesUp(cfg, events, i)|
    decreases |events|
  {
    if events != [] {
      var n := |events| - 1;
      Last(cfg, events);
      StepCloses(cfg, events);
      ClosesExact(cfg, events[..n]);
      GivesUpNext(cfg, events);
    }
  }

  lemma GivesUpBefore(cfg: Settings, events: seq<Event>, i: nat)
    requires i < |events| - 1
    ensures GivesUp(cfg, events[..|events| - 1], i) <==> GivesUp(cfg, events, i)
  {
    assert events[..|events| - 1][..i] == events[..i];
  }

  lemma GivesUpNext(cfg: Settings, events: seq<Event>)
    requires events != []
    ensures var n := |events| - 1;
      |set i: nat | i < |events| && GivesUp(cfg, events, i)|
      == |set i: nat | i < n && GivesUp(cfg, events[..n], i)| + if GivesUp(cfg, events, n) then 1 else 0
  {
    var n := |events| - 1;
    var before, all := set i: nat | i < n && GivesUp(cfg, events[..n], i), set i: nat | i < |events| && GivesUp(cfg, events, i);
    forall i: nat | i < n ensures i in before <==> i in all {
      GivesUpBefore(cfg, events, i);
    }
    assert all == before + if GivesUp(cfg, events, n) then {n} else {};
  }

  // ---- ready ticks and pings

  /** The usable ticks since the last disconnect that found the session ready. */
  function ReadyTicks(cfg: Settings, events: seq<Event>): seq<int>
    decreases |events|
  {
    if events == [] then []
    else
      var n := |events| - 1;
      var before := ReadyTicks(cfg, events[..n]);
      match events[n]
      case Disconnected => []
      case Timer(now, up) => if up && Run(cfg, INIT, events[..n]).status == READY then before + [now] else before
      case _ => before
  }

  lemma {:induction false} TicksExact(cfg: Settings, events: seq<Event>)
    requires NoneFatal(cfg, events)
    ensures Run(cfg, INIT, events).ticks == ReadyTicks(cfg, events)
    decreases |events|
  {
    if events != [] {
      var n := |events| - 1;
      Last(cfg, events);
      TicksExact(cfg, events[..n]);
      if events[n].Text? {
        TextFrame(cfg, Run(cfg, INIT, events[..n]), events[n].message);
      }
    }
  }

  /** A usable tick that finds the session ready pings, unless the last ping of the session is
      less than half the interval back that held when it was sent. */
  lemma TickPingsExact(cfg: Settings, s: Session, now: int)
    requires Reachable(cfg, s) && !s.fatal && s.status == READY && now >= 0
    ensures var t := Step(cfg, s, Timer(now, true));
      t.pings == s.pings +
        if s.pings != [] && now < s.pings[|s.pings| - 1].time + Half(s.pings[|s.pings| - 1].freq) then [] else [Ping(now, s.pingFreq)]
  {
    Holds(cfg, s);
  }
}
