/** When READY means that every download was requested and answered once in this session, and
    where a response comes from that completes a download nobody requested. */
module AccountOnce {
  import opened AccountTypes
  import opened AccountSpec
  import opened AccountInvariant
  import opened AccountSteps
  import opened AccountLadder
  import opened AccountEffects
  import opened AccountStale
  import opened AccountSession
  import opened AccountScript
  import opened AccountReady

  // ---- exactly once

  predicate IdleDownloads(rq: Requests) { rq.balances.Idle() && rq.positions.Idle() && rq.openOrders.Idle() }

  /** If the run is a session that gets to READY, this download was requested and answered
      once in it. */
  ghost predicate Once(cfg: Config, s: Sys, events: seq<Event>, k: Kind) {
    var t := Run(cfg, s, [Welcome] + events);
    InSession(events) && GetsReady(cfg, s, [Welcome] + events) ==>
      t.rest.sent[k] == s.rest.sent[k] + 1 && t.rest.committed[k] == s.rest.committed[k] + 1
  }

  /** A slot that is not idle at the welcome spoils the count: with a response that is there
      or on its way the download is not requested at all, and a slot that is only pending is
      served early and requested again when the ladder gets there. */
  lemma NotOnce(cfg: Config, s: Sys, k: Kind, now: int) returns (events: seq<Event>)
    requires Reachable(cfg, s) && s.fault == NoFault && cfg.master && !Wedged(s) && Enabled(s, Welcome)
    requires Mandatory(k) && !s.rq.Get(k).Idle()
    ensures !Once(cfg, s, events, k) && Tame(events, now)
  {
    var w := Step(cfg, s, Welcome);
    var u := FromWelcome(cfg, s, now);
    LandedBusy(s.rq, k);
    if u.rq.details != {} {
      u := HandOverBatch(cfg, w, u, now);
    }
    var t := Miscounted(cfg, w, u, k, now);
    events := WelcomedRun(cfg, s, t, now);
  }

  lemma Miscounted(cfg: Config, r: Sys, s: Sys, k: Kind, now: int) returns (t: Sys)
    requires cfg.master && Poised(s) && AtRung(s, SUBSCRIBE_BALANCES) && s.rq.details == {} && Reaches(cfg, r, s, true, now)
    requires Mandatory(k) && (s.rq.Get(k).response || s.rq.Get(k).pending)
    ensures Reaches(cfg, r, t, true, now) && t.fault == NoFault && t.dc.status == READY
    ensures t.rest.sent[k] != s.rest.sent[k] + 1
  {
    UnansweredHas(s.rq, k);
    if s.rq.Get(k).response {
      t := ToReady(cfg, r, s, Unanswered(s.rq), now);
    } else {
      var u := Obtain(cfg, r, s, k, true, now);
      t := ToReady(cfg, r, u, Unanswered(u.rq) + {k}, now);
    }
  }

  lemma LandedBusy(rq: Requests, k: Kind)
    requires !rq.Get(k).Idle()
    ensures var slot := Landed(rq).Get(k); slot.response || slot.pending
  {
  }

  lemma UnansweredHas(rq: Requests, k: Kind)
    requires Mandatory(k)
    ensures k in Unanswered(rq) <==> !rq.Get(k).response
  {
  }

  /** For a master account that is not wedged: READY means one request and one answer for
      each mandatory download, whatever happens in the session, if and only if the welcome
      finds the three slots idle. */
  lemma DownloadsOnceExact(cfg: Config, s: Sys, now: int)
    requires Reachable(cfg, s) && s.fault == NoFault && cfg.master && !Wedged(s) && Enabled(s, Welcome)
    ensures IdleDownloads(s.rq) <==> forall events, k | Mandatory(k) :: Once(cfg, s, events, k)
    ensures !IdleDownloads(s.rq) ==> exists events, k :: Mandatory(k) && Tame(events, now) && !Once(cfg, s, events, k)
  {
    if IdleDownloads(s.rq) {
      forall events, k | Mandatory(k) ensures Once(cfg, s, events, k) {
        CleanSessionDownloadsOnce(cfg, s, events, k);
      }
    } else {
      var k := if !s.rq.balances.Idle() then BALANCES else if !s.rq.positions.Idle() then POSITIONS else OPEN_ORDERS;
      var events := NotOnce(cfg, s, k, now);
    }
  }

  // ---- left over

  predicate Engaged(slot: Slot) { slot.inFlight || slot.response }

  /** A slot is engaged only by a request that is sent, and the count of those never falls. */
  predicate Accounted(s: Sys, t: Sys, k: Kind) {
    && t.rest.sent[k] >= s.rest.sent[k]
    && (t.rest.sent[k] == s.rest.sent[k] && Engaged(t.rq.Get(k)) ==> Engaged(s.rq.Get(k)))
  }

  lemma TickAccounted(cfg: Config, s: Sys, grants: set<Kind>, known: set<Key>, k: Kind)
    requires s.fault == NoFault && Plain(k)
    ensures Accounted(s, Step(cfg, s, RestTimer(grants, known)), k)
  {
    var x := Side(s.rest, s.rq, s.fault);
    TickStartsOne(cfg, x, grants, known);
    match Chosen(cfg, x, grants) {
      case None =>
      case Some(j) => StartAccounted(x, j, known, k);
    }
  }

  lemma StartAccounted(x: Side, j: Kind, known: set<Key>, k: Kind)
    requires Plain(k)
    ensures var y := Start(x, j, known);
      y.rest.sent[k] == x.rest.sent[k] + One(j == k) && (j != k ==> y.rq.Get(k) == x.rq.Get(k))
  {
  }

  lemma AnswerAccounted(cfg: Config, s: Sys, e: Event, k: Kind)
    requires Inv(cfg, s) && s.fault == NoFault && Plain(k) && e.Answer? && Enabled(s, e)
    ensures Accounted(s, Step(cfg, s, e), k)
  {
    InFlightOnWire(s.rest, s.rq, e.kind);
  }

  lemma TokenAccounted(cfg: Config, s: Sys, e: Event, k: Kind)
    requires s.fault == NoFault && Plain(k) && e.TokenAnswer?
    ensures Accounted(s, Step(cfg, s, e), k)
  {
  }

  lemma OrderAccounted(cfg: Config, s: Sys, e: Event, k: Kind)
    requires s.fault == NoFault && Plain(k) && e.OrderAnswer?
    ensures Accounted(s, Step(cfg, s, e), k)
  {
  }

  lemma ConnectionAccounted(cfg: Config, s: Sys, e: Event, k: Kind)
    requires s.fault == NoFault && Plain(k) && (e.RestConnected? || e.RestDisconnected? || e.RestRetry?)
    ensures Accounted(s, Step(cfg, s, e), k)
  {
  }

  lemma StepAccounted(cfg: Config, s: Sys, e: Event, k: Kind)
    requires Inv(cfg, s) && s.fault == NoFault && Plain(k) && Enabled(s, e)
    ensures Accounted(s, Step(cfg, s, e), k)
  {
    if Streamed(e) {
      StreamTicks(cfg, s, e);
      TickedEngaged(s.rq, Step(cfg, s, e).rq, k);
    } else if e.RestTimer? {
      TickAccounted(cfg, s, e.grants, e.known, k);
    } else if e.Answer? {
      AnswerAccounted(cfg, s, e, k);
    } else if e.TokenAnswer? {
      TokenAccounted(cfg, s, e, k);
    } else if e.OrderAnswer? {
      OrderAccounted(cfg, s, e, k);
    } else {
      ConnectionAccounted(cfg, s, e, k);
    }
  }

  lemma TickedEngaged(rq: Requests, rq': Requests, k: Kind)
    requires Ticked(rq, rq')
    ensures Engaged(rq'.Get(k)) ==> Engaged(rq.Get(k))
  {
  }

  lemma {:induction false} RunAccounted(cfg: Config, s: Sys, events: seq<Event>, k: Kind)
    requires Inv(cfg, s) && s.fault == NoFault && Plain(k) && Valid(cfg, s, events)
    ensures Accounted(s, Run(cfg, s, events), k)
    decreases |events|
  {
    if events != [] {
      var t := Step(cfg, s, events[0]);
      StepKeeps(cfg, s, events[0]);
      StepAccounted(cfg, s, events[0], k);
      if t.fault == NoFault {
        RunAccounted(cfg, t, events[1..], k);
      } else {
        FaultStays(cfg, t, events[1..]);
      }
    }
  }

  /** While the ladder waits for a mandatory download that was not requested since the
      welcome, a poll completes it if and only if a response is recorded, and that response
      was there at the welcome already or answers a request that was on the wire then. */
  lemma LeftoverCompletes(cfg: Config, b: Sys, events: seq<Event>, k: Kind, now: int, orders: seq<Key>)
    requires Reachable(cfg, b) && b.fault == NoFault && Mandatory(k) && Valid(cfg, b, [Welcome] + events) && InSession(events)
    ensures var s := Run(cfg, b, [Welcome] + events);
      s.fault == NoFault && s.dc.ladder == GetOf(k) && s.rest.sent[k] == b.rest.sent[k] ==>
        var t := Step(cfg, s, Timer(now, orders));
        && (t.dc.ladder != GetOf(k) <==> s.rq.Get(k).response)
        && (s.rq.Get(k).response ==> Engaged(b.rq.Get(k)))
        && t.rest.sent[k] == b.rest.sent[k]
  {
    JointInvariant(cfg, b);
    var s := Run(cfg, b, [Welcome] + events);
    RunAccounted(cfg, b, [Welcome] + events, k);
    RunKeeps(cfg, b, [Welcome] + events);
    if s.fault == NoFault && s.dc.ladder == GetOf(k) {
      StreamTicks(cfg, s, Timer(now, orders));
      PollMoves(cfg, s, k, now, orders);
    }
  }

  lemma PollMoves(cfg: Config, s: Sys, k: Kind, now: int, orders: seq<Key>)
    requires s.fault == NoFault && Inv(cfg, s) && Mandatory(k) && s.dc.ladder == GetOf(k)
    ensures Step(cfg, s, Timer(now, orders)).dc.ladder != GetOf(k) <==> s.rq.Get(k).response
  {
    var a := Acct(s.dc, s.rq, s.fault);
    StepTimer(cfg, s, now, orders);
    TickLands(cfg, a, orders);
    WhenReadyStream(cfg, CheckRequestQueue(cfg, a, orders), now, orders);
  }
}
