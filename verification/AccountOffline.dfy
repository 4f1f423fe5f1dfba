/** A REST stream that has lost its connection sends nothing, while what it sent before can
    still be answered. */
module AccountOffline {
  import opened AccountTypes
  import opened AccountSpec
  import opened AccountInvariant
  import opened AccountSteps
  import opened AccountEffects
  import opened AccountStale

  /** No request of any kind goes out between `s` and `t`, and no batch is handed over. */
  predicate Silent(s: Sys, t: Sys) {
    t.rest.sent == s.rest.sent && t.rest.dispatched == s.rest.dispatched && t.rest.unknown == s.rest.unknown
  }

  predicate Offline(s: Sys) { s.rest.status == DISCONNECTED && !s.rest.downloading }

  predicate NoConnect(events: seq<Event>) { forall e | e in events :: !e.RestConnected? }

  lemma AnswerOffline(cfg: Config, s: Sys, e: Event)
    requires Offline(s) && (e.TokenAnswer? || e.Answer? || e.OrderAnswer? || e.RestDisconnected?)
    ensures Silent(s, Step(cfg, s, e)) && Offline(Step(cfg, s, e))
  {
  }

  lemma TickOffline(cfg: Config, s: Sys, grants: set<Kind>, known: set<Key>)
    requires Offline(s)
    ensures Step(cfg, s, RestTimer(grants, known)) == s
  {
  }

  lemma StepOffline(cfg: Config, s: Sys, e: Event)
    requires Offline(s) && Enabled(s, e) && !e.RestConnected?
    ensures Silent(s, Step(cfg, s, e)) && Offline(Step(cfg, s, e))
  {
    if Streamed(e) {
      StreamTicks(cfg, s, e);
    } else if e.RestTimer? {
      TickOffline(cfg, s, e.grants, e.known);
    } else {
      AnswerOffline(cfg, s, e);
    }
  }

  lemma {:induction false} RunOffline(cfg: Config, s: Sys, events: seq<Event>)
    requires Offline(s) && Valid(cfg, s, events) && NoConnect(events)
    ensures Silent(s, Run(cfg, s, events)) && Offline(Run(cfg, s, events))
    decreases |events|
  {
    if events != [] {
      assert events[0] in events && forall e | e in events[1..] :: e in events;
      StepOffline(cfg, s, events[0]);
      RunOffline(cfg, Step(cfg, s, events[0]), events[1..]);
    }
  }

  /** What is in flight has its answer still to come: the token and each plain download, and
      of a batch that is not stuck some order. */
  predicate Answerable(s: Sys) {
    && (s.rq.token.inFlight ==> TOKEN in s.rest.outstanding)
    && (forall k | Plain(k) :: s.rq.Get(k).inFlight <==> k in s.rest.outstanding)
    && (s.rq.staleOrders.inFlight ==> Wedged(s) || s.rest.orders != multiset{})
  }

  /** Each plain download in flight is answered in between or still in flight. */
  predicate Kept(s: Sys, t: Sys, k: Kind) {
    t.rest.committed[k] + One(t.rq.Get(k).inFlight) == s.rest.committed[k] + One(s.rq.Get(k).inFlight)
  }

  lemma OutgoingKept(cfg: Config, s: Sys, t: Sys, k: Kind)
    requires Inv(cfg, s) && Inv(cfg, t) && s.fault == NoFault && t.fault == NoFault && Silent(s, t) && Plain(k)
    ensures Kept(s, t, k)
  {
  }

  lemma InvAnswerable(cfg: Config, s: Sys)
    requires Inv(cfg, s) && s.fault == NoFault
    ensures Answerable(s)
  {
    assert s.rest.orders == multiset{} ==> |s.rest.orders| == 0;
  }

  /** After the REST stream lost its connection, and until it connects again, it is not ready
      and sends nothing, whatever is pending and granted; what was in flight stays in flight
      until its answer comes. */
  lemma OfflineSilent(cfg: Config, s: Sys, events: seq<Event>)
    requires Reachable(cfg, s) && s.fault == NoFault && !s.rest.downloading
    requires Valid(cfg, s, [RestDisconnected] + events) && NoConnect(events)
    ensures var t := Run(cfg, s, [RestDisconnected] + events);
      && Silent(s, t) && t.rest.status == DISCONNECTED
      && (t.fault == NoFault ==> Answerable(t) && forall k | Plain(k) :: Kept(s, t, k))
  {
    JointInvariant(cfg, s);
    var all := [RestDisconnected] + events;
    assert all[0] == RestDisconnected && all[1..] == events;
    RunKeeps(cfg, s, all);
    RunOffline(cfg, Step(cfg, s, RestDisconnected), events);
    var t := Run(cfg, s, all);
    if t.fault == NoFault {
      InvAnswerable(cfg, t);
      forall k | Plain(k) ensures Kept(s, t, k) {
        OutgoingKept(cfg, s, t, k);
      }
    }
  }

  /** That is so exactly when the connection is not lost during the initial token download,
      whose library goes on asking for the token. */
  lemma OfflineSilentExact(cfg: Config, s: Sys)
    requires Reachable(cfg, s) && s.fault == NoFault
    ensures !s.rest.downloading <==>
      forall events | Valid(cfg, s, [RestDisconnected] + events) && NoConnect(events) ::
        Silent(s, Run(cfg, s, [RestDisconnected] + events))
  {
    if s.rest.downloading {
      Retries(cfg, s);
    } else {
      forall events | Valid(cfg, s, [RestDisconnected] + events) && NoConnect(events)
        ensures Silent(s, Run(cfg, s, [RestDisconnected] + events))
      {
        OfflineSilent(cfg, s, events);
      }
    }
  }

  lemma Retries(cfg: Config, s: Sys)
    requires s.fault == NoFault && s.rest.downloading
    ensures exists events ::
      Valid(cfg, s, [RestDisconnected] + events) && NoConnect(events) && !Silent(s, Run(cfg, s, [RestDisconnected] + events))
  {
    var events, d := [RestRetry], Step(cfg, s, RestDisconnected);
    var all := [RestDisconnected] + events;
    assert all[0] == RestDisconnected && all[1..] == events;
    RunOne(cfg, d, RestRetry);
    assert Run(cfg, s, all).rest.sent[TOKEN] == s.rest.sent[TOKEN] + 1;
    assert Valid(cfg, s, all) && NoConnect(events) && !Silent(s, Run(cfg, s, all));
  }

  // ---- the status and the initial download

  /** The status told by the initial download: before it UNSET or DISCONNECTED with no token
      asked for, while it goes on DOWNLOADING or DISCONNECTED, and READY only after it. */
  predicate RestStatusOk(rest: RestState) {
    && (rest.downloading ==> !rest.hasToken && rest.status in {DOWNLOADING, DISCONNECTED})
    && (!rest.downloading && !rest.hasToken ==> rest.status in {UNSET, DISCONNECTED} && TOKEN !in rest.outstanding)
    && (rest.hasToken ==> rest.status in {READY, DISCONNECTED})
  }

  lemma TickStatus(cfg: Config, s: Sys, grants: set<Kind>, known: set<Key>)
    requires RestStatusOk(s.rest)
    ensures RestStatusOk(Step(cfg, s, RestTimer(grants, known)).rest)
  {
    TickStartsOne(cfg, Side(s.rest, s.rq, s.fault), grants, known);
  }

  lemma OtherRestStatus(cfg: Config, s: Sys, e: Event)
    requires RestStatusOk(s.rest) && Enabled(s, e) && !Streamed(e) && !e.RestTimer?
    ensures RestStatusOk(Step(cfg, s, e).rest)
  {
  }

  lemma {:induction false} RunRestStatus(cfg: Config, s: Sys, events: seq<Event>)
    requires RestStatusOk(s.rest) && Valid(cfg, s, events)
    ensures RestStatusOk(Run(cfg, s, events).rest)
    decreases |events|
  {
    if events != [] {
      var e := events[0];
      if Streamed(e) {
        StreamTicks(cfg, s, e);
      } else if e.RestTimer? {
        TickStatus(cfg, s, e.grants, e.known);
      } else {
        OtherRestStatus(cfg, s, e);
      }
      RunRestStatus(cfg, Step(cfg, s, e), events[1..]);
    }
  }

  lemma RestStatusExact(cfg: Config, s: Sys)
    requires Reachable(cfg, s)
    ensures RestStatusOk(s.rest)
  {
    var events :| Valid(cfg, INIT, events) && Run(cfg, INIT, events) == s;
    RunRestStatus(cfg, INIT, events);
  }

  /** The token is asked for and the download published. */
  function Asked(rest: RestState): RestState {
    rest.(status := DOWNLOADING, sent := rest.sent + multiset{TOKEN}, outstanding := rest.outstanding + multiset{TOKEN})
  }

  /** A connect makes a stream that has its token ready, and starts the initial download of
      one that has none and is not at it yet. One that is at it stays so; the token is asked
      for once more only if the library repeats the request. */
  lemma ConnectExact(cfg: Config, s: Sys, resend: bool)
    requires Reachable(cfg, s) && s.fault == NoFault
    ensures Step(cfg, s, RestConnected(resend)) == s.(rest :=
      if s.rest.hasToken then s.rest.(status := READY)
      else if !s.rest.downloading then Asked(s.rest).(downloading := true)
      else if resend then Asked(s.rest)
      else s.rest)
  {
    RestStatusExact(cfg, s);
  }
}
