/** Runs from the start of the gateway, with every assumption about the environment met, that
    end where the code does not want to be. */
module AccountExamples {
  import opened AccountTypes
  import opened Wrappers
  import opened AccountSpec
  import opened AccountInvariant
  import opened AccountSteps
  import opened AccountStale
  import opened AccountScript

  // ---- start and reconnect

  /** The gateway starts and gets its token. */
  lemma FirstToken(cfg: Config, now: int) returns (s: Sys)
    ensures Reaches(cfg, INIT, s, false, now) && s.fault == NoFault && s.dc == Created("?token=" + "t")
    ensures s.rq == INIT.rq.(token := Slot(false, false, true)) && s.rest.orders == multiset{} && s.rest.counter == 0
    ensures s.rest.status == READY && s.rest.hasToken && !s.rest.downloading && s.rest.outstanding == multiset{}
  {
    ReachesSelf(cfg, INIT, false, now);
    var e1 := RestConnected(false);
    var s1 := Step(cfg, INIT, e1);
    ReachesStep(cfg, INIT, INIT, e1, false, now);
    var e2 := TokenAnswer(Http(SUCCESS, Decoded(SYSTEM_CODE_SUCCESS)), "t", false);
    s := Step(cfg, s1, e2);
    ReachesStep(cfg, INIT, s1, e2, false, now);
  }

  /** Then it opens the drop-copy stream. */
  lemma Startup(cfg: Config, now: int) returns (s: Sys)
    ensures Reaches(cfg, INIT, s, false, now) && Poised(s.(dc := s.dc.(welcome := true))) && !s.dc.welcome
    ensures s.rq == INIT.rq.(token := Slot(false, false, true)) && s.rest.orders == multiset{} && s.rest.counter == 0
    ensures s.rest.hasToken && !s.rest.downloading && s.rest.outstanding == multiset{}
    ensures s.dc.query == "?token=" + "t" && s.dc.nextSimulated == if cfg.simulateExpiry != 0 then now + cfg.simulateExpiry else 0
  {
    var s2 := FirstToken(cfg, now);
    var e3 := Connected(now);
    var s3 := Step(cfg, s2, e3);
    ReachesStep(cfg, INIT, s2, e3, false, now);
    s := Step(cfg, s3, Upgraded);
    ReachesStep(cfg, INIT, s3, Upgraded, false, now);
  }

  /** The socket drops and is opened again. */
  lemma Reopen(cfg: Config, r: Sys, s: Sys, now: int) returns (t: Sys)
    requires Reaches(cfg, r, s, false, now) && s.fault == NoFault && s.dc.phase == UPGRADED && s.dc.created
    ensures Reaches(cfg, r, t, false, now) && t.fault == NoFault && t.rest == s.rest && t.rq == s.rq
    ensures t.dc.phase == UPGRADED && t.dc.created && !t.dc.welcome && !t.dc.ready
  {
    var s1 := Step(cfg, s, Disconnected);
    ReachesStep(cfg, r, s, Disconnected, false, now);
    var s2 := Step(cfg, s1, Connected(now));
    ReachesStep(cfg, r, s1, Connected(now), false, now);
    t := Step(cfg, s2, Upgraded);
    ReachesStep(cfg, r, s2, Upgraded, false, now);
  }

  /** Welcome and the acknowledgement of the first subscription. */
  lemma FirstAck(cfg: Config, r: Sys, s: Sys, now: int) returns (t: Sys)
    requires Reaches(cfg, r, s, false, now) && Upright(s.(dc := s.dc.(welcome := true))) && !s.dc.welcome
    ensures Reaches(cfg, r, t, false, now) && Upright(t) && t.dc.ladder == GET_BALANCES && t.rest == s.rest
    ensures t.rq == s.rq.(balances := s.rq.balances.Request())
  {
    var u := Step(cfg, s, Welcome);
    WelcomeRung(cfg, s);
    ReachesStep(cfg, r, s, Welcome, false, now);
    t := Step(cfg, u, Ack(Some(SUBSCRIBE_BALANCES)));
    AckEnters(cfg, u, BALANCES);
    ReachesStep(cfg, r, u, Ack(Some(SUBSCRIBE_BALANCES)), false, now);
  }

  // ---- a request before its subscription

  /** The next tick requests balances although their subscription is not acknowledged. */
  ghost predicate EarlyRequest(cfg: Config, s: Sys, now: int) {
    var t := Step(cfg, s, RestTimer({BALANCES}, {}));
    && Reaches(cfg, INIT, s, false, now) && t.fault == NoFault
    && s.dc.ladder == SUBSCRIBE_BALANCES && Completed(SUBSCRIBE_BALANCES) !in t.dc.trace
    && t.rest.sent[BALANCES] == s.rest.sent[BALANCES] + 1
  }

  /** A slot stays pending through a reconnect: in the new session balances are requested
      although their subscription is not acknowledged yet. */
  lemma EarlyRequestExample(cfg: Config, now: int)
    requires cfg.master
    ensures exists s :: EarlyRequest(cfg, s, now)
  {
    var s := EarlyRequestRun(cfg, now);
  }

  lemma EarlyRequestRun(cfg: Config, now: int) returns (s: Sys)
    requires cfg.master
    ensures EarlyRequest(cfg, s, now)
  {
    var s0 := Startup(cfg, now);
    var s1 := FirstAck(cfg, INIT, s0, now);
    var s2 := Reopen(cfg, INIT, s1, now);
    s := Step(cfg, s2, Welcome);
    WelcomeRung(cfg, s2);
    ReachesStep(cfg, INIT, s2, Welcome, false, now);
    StartsOnly(cfg, s, BALANCES, {});
    JointInvariant(cfg, s);
    NothingCompleted(cfg, s.dc);
  }

  lemma NothingCompleted(cfg: Config, dc: DropCopyState)
    requires StreamOk(cfg, dc) && dc.ladder == SUBSCRIBE_BALANCES
    ensures forall p :: Completed(p) !in dc.trace
  {
    var skips: set<State> :| SkipsOk(cfg, skips) && dc.trace == Transcript(dc.ladder, skips);
  }

  // ---- a download completed by an earlier session

  /** In the session that the welcome in `b` opens, balances wait for an answer with the slot
      pending and answered at once, nothing having been requested; the next poll completes
      the download all the same. */
  ghost predicate Leftover(cfg: Config, b: Sys, s: Sys, now: int) {
    var t := Step(cfg, s, Timer(now, []));
    && Reaches(cfg, INIT, b, false, now) && b.fault == NoFault && Enabled(b, Welcome) && Reaches(cfg, Step(cfg, b, Welcome), s, true, now)
    && s.fault == NoFault && s.dc.ladder == GET_BALANCES && s.rq.balances == Slot(true, false, true)
    && t.dc.ladder == SUBSCRIBE_POSITIONS && t.rest.sent[BALANCES] == b.rest.sent[BALANCES]
  }

  /** At a welcome the request of the session before is still on the wire, and its answer
      comes when the new session waits for its own. */
  lemma LeftoverExample(cfg: Config, now: int)
    requires cfg.master
    ensures exists b, s :: Leftover(cfg, b, s, now)
  {
    var b, s := LeftoverRun(cfg, now);
  }

  lemma LeftoverRun(cfg: Config, now: int) returns (b: Sys, s: Sys)
    requires cfg.master
    ensures Leftover(cfg, b, s, now)
  {
    var s0 := Startup(cfg, now);
    var s1 := FirstAck(cfg, INIT, s0, now);
    var s2 := Step(cfg, s1, RestTimer({BALANCES}, {}));
    StartsOnly(cfg, s1, BALANCES, {});
    ReachesStep(cfg, INIT, s1, RestTimer({BALANCES}, {}), false, now);
    b := Reopen(cfg, INIT, s2, now);
    s := LateAnswer(cfg, b, now);
    TickCompletes(cfg, s, BALANCES, [], now);
  }

  /** Welcome, acknowledgement, and the answer to a request that was on the wire before. */
  lemma LateAnswer(cfg: Config, b: Sys, now: int) returns (s: Sys)
    requires Upright(b.(dc := b.dc.(welcome := true))) && !b.dc.welcome
    requires BALANCES in b.rest.outstanding && b.rq.balances == Slot(false, true, false)
    ensures Reaches(cfg, Step(cfg, b, Welcome), s, true, now) && s.fault == NoFault && s.dc.phase == UPGRADED
    ensures s.dc.ladder == GET_BALANCES && s.rq.balances == Slot(true, false, true) && s.rest.sent == b.rest.sent
  {
    var w := Step(cfg, b, Welcome);
    WelcomeRung(cfg, b);
    ReachesSelf(cfg, w, true, now);
    var u := Step(cfg, w, Ack(Some(SUBSCRIBE_BALANCES)));
    AckEnters(cfg, w, BALANCES);
    ReachesStep(cfg, w, w, Ack(Some(SUBSCRIBE_BALANCES)), true, now);
    s := Step(cfg, u, Answer(BALANCES, NetworkFailure));
    PlainAnswered(cfg, u, BALANCES);
    ReachesStep(cfg, w, u, Answer(BALANCES, NetworkFailure), true, now);
  }

  // ---- a wedged account

  /** A batch of one order that the dispatcher no longer knows. */
  lemma WedgedExample(cfg: Config, now: int)
    requires cfg.master
    ensures exists s :: Reaches(cfg, INIT, s, false, now) && Wedged(s)
  {
    var key := Key(0, 1);
    var s1 := OneStale(cfg, key, now);
    var s := Step(cfg, s1, RestTimer({STALE_ORDERS}, {}));
    DispatchesUnknown(cfg, s1, key);
    ReachesStep(cfg, INIT, s1, RestTimer({STALE_ORDERS}, {}), false, now);
  }

  lemma DispatchesUnknown(cfg: Config, s: Sys, key: Key)
    requires cfg.master && Poised(s) && s.rq.details == {key} && s.rq.staleOrders.pending && s.rest.counter == 0
    ensures Wedged(Step(cfg, s, RestTimer({STALE_ORDERS}, {})))
  {
    StartsOnly(cfg, s, STALE_ORDERS, {});
    assert {key} * {} == {};
  }

  // ---- the fatal check of GET_STALE_ORDERS

  /** The stream drops while a batch of one order is on the wire, comes back, and the
      answer arrives. */
  lemma Reconnect(cfg: Config, r: Sys, s: Sys, key: Key, now: int) returns (t: Sys)
    requires cfg.master && Reaches(cfg, r, s, false, now) && Poised(s) && s.rq.details == {key}
    requires s.rq.staleOrders == Slot(true, false, false) && s.rest.orders == multiset{} && s.rest.counter == 0
    ensures Reaches(cfg, r, t, false, now) && Poised(t.(dc := t.dc.(welcome := true))) && !t.dc.welcome
    ensures t.rq.details == {} && t.rq.staleOrders == Slot(false, false, true)
  {
    var s1 := Step(cfg, s, RestTimer({STALE_ORDERS}, {key}));
    DispatchesOne(cfg, s, key);
    ReachesStep(cfg, r, s, RestTimer({STALE_ORDERS}, {key}), false, now);
    var s2 := Reopen(cfg, r, s1, now);
    t := Step(cfg, s2, OrderAnswer(key, NetworkFailure));
    LastOrderAnswer(cfg, s2, key);
    ReachesStep(cfg, r, s2, OrderAnswer(key, NetworkFailure), false, now);
  }

  lemma LastOrderAnswer(cfg: Config, s: Sys, key: Key)
    requires s.fault == NoFault && s.rest.orders == multiset{key} && s.rest.counter == 1
    requires s.rq.staleOrders == Slot(false, true, false)
    ensures var t := Step(cfg, s, OrderAnswer(key, NetworkFailure));
      && t.fault == NoFault && t.dc == s.dc && t.rest.status == s.rest.status
      && t.rq == s.rq.(staleOrders := Slot(false, false, true))
  {
  }

  lemma DispatchesOne(cfg: Config, s: Sys, key: Key)
    requires cfg.master && Poised(s) && s.rq.details == {key}
    requires s.rq.staleOrders == Slot(true, false, false) && s.rest.orders == multiset{} && s.rest.counter == 0
    ensures var t := Step(cfg, s, RestTimer({STALE_ORDERS}, {key}));
      && t.rq == s.rq.(staleOrders := Slot(false, true, false), details := {})
      && t.dc == s.dc && t.fault == NoFault && t.rest.status == READY
      && t.rest.orders == multiset{key} && t.rest.counter == 1
  {
    StartsOnly(cfg, s, STALE_ORDERS, {key});
    assert {key} * {key} == {key};
  }

  /** A batch is on the wire when the stream drops, its answer arrives after the reconnect,
      and the new session finds another stale order. */
  lemma FatalCheckReachable(cfg: Config, now: int)
    requires cfg.master
    ensures exists s :: Reaches(cfg, INIT, s, false, now) && s.fault == UnexpectedStale
  {
    var key := Key(0, 1);
    var s1 := OneStale(cfg, key, now);
    var s2 := Reconnect(cfg, INIT, s1, key, now);
    var s3 := StaleAgain(cfg, s2, key, now);
    TickIsFatal(cfg, s3, now);
    ReachesStep(cfg, INIT, s3, Timer(now, []), false, now);
  }

  lemma StaleAgain(cfg: Config, s: Sys, key: Key, now: int) returns (t: Sys)
    requires cfg.master && Reaches(cfg, INIT, s, false, now) && Poised(s.(dc := s.dc.(welcome := true))) && !s.dc.welcome
    requires s.rq.details == {} && s.rq.staleOrders == Slot(false, false, true)
    ensures Reaches(cfg, INIT, t, false, now) && Upright(t) && t.dc.ladder == GET_STALE_ORDERS
    ensures t.rq.details == {key} && t.rq.staleOrders.response
  {
    t := Session(cfg, INIT, s, [key], false, now);
    assert t.rq.details == {key};
  }

  /** The first session finds one stale order. */
  lemma OneStale(cfg: Config, key: Key, now: int) returns (s: Sys)
    requires cfg.master
    ensures Reaches(cfg, INIT, s, false, now) && Poised(s) && s.rq.details == {key}
    ensures s.rq.staleOrders == Slot(true, false, false) && s.rest.orders == multiset{} && s.rest.counter == 0
  {
    var s0 := Startup(cfg, now);
    s := Session(cfg, INIT, s0, [key], false, now);
    assert s.rq.details == {key};
  }
}
