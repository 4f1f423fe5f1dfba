/** What the answer to a request does, told by the category of its HTTP status and by its
    body alone. */
module AccountAnswers {
  import opened AccountTypes
  import opened AccountSpec
  import opened AccountInvariant
  import opened AccountSteps
  import opened AccountEffects
  import opened AccountStale
  import opened AccountToken

  predicate Redirects(response: Response) { response.Http? && response.category == REDIRECTION }

  /** Nothing but the token's slot and the wire. */
  function Answered(s: Sys): Sys {
    s.(rest := s.rest.(outstanding := s.rest.outstanding - multiset{TOKEN}, committed := s.rest.committed + multiset{TOKEN}),
       rq := s.rq.(token := Slot(s.rq.token.pending, false, true)))
  }

  /** The initial download, if it is still going on, is over, and no other will follow. */
  function Obtained(s: Sys): Sys {
    s.(rest := s.rest.(hasToken := true, downloading := false, status := if s.rest.downloading then READY else s.rest.status))
  }

  /** The drop copy gets the query and, if it waited for one, resumes. */
  function Passed(s: Sys, query: string): Sys {
    s.(dc := if s.dc.created then s.dc.(query := query, suspended := false)
             else DropCopyState(true, query, false, CLOSED, false, false, false, UNSET, UNDEFINED, 0, 0, 0, 0, [], []))
  }

  /** A token's answer. Unless another answer came first (`superseded`, which is asked only
      during the initial download) every one of category SUCCESS or CLIENT_ERROR whose body can
      be decoded ends the initial download; the token reaches the drop copy exactly if its code is 200000 too. A
      redirect stops the process. All others change nothing but the slot and the wire. */
  lemma TokenAnswerExact(cfg: Config, s: Sys, response: Response, token: string, superseded: bool)
    requires Reachable(cfg, s) && s.fault == NoFault && TOKEN in s.rest.outstanding
    ensures var t := Step(cfg, s, TokenAnswer(response, token, superseded));
      if Redirects(response) then t.fault == Redirected && t.dc == s.dc && t.rq == s.rq
      else if !Heard(s.rest, response, superseded) then t == Answered(s)
      else if response.body.code != 200_000 then t == Obtained(Answered(s))
      else t == Passed(Obtained(Answered(s)), "?token=" + token)
  {
    ReachableTokenOk(cfg, s);
  }

  /** The answer to a plain download: redirected or not is all that counts. */
  lemma PlainAnswerExact(cfg: Config, s: Sys, k: Kind, response: Response)
    requires Reachable(cfg, s) && s.fault == NoFault && Plain(k) && k in s.rest.outstanding
    ensures var t := Step(cfg, s, Answer(k, response));
      if Redirects(response) then t.fault == Redirected && t.dc == s.dc && t.rq == s.rq
      else t == s.(rest := s.rest.(outstanding := s.rest.outstanding - multiset{k}, committed := s.rest.committed + multiset{k}),
                   rq := s.rq.Put(k, Slot(s.rq.Get(k).pending, false, true)))
  {
  }

  /** So it is for an order's answer; the last one of the batch frees its slot. */
  lemma OrderAnswerExact(cfg: Config, s: Sys, key: Key, response: Response)
    requires Reachable(cfg, s) && s.fault == NoFault && key in s.rest.orders
    ensures var t := Step(cfg, s, OrderAnswer(key, response));
      if Redirects(response) then t.fault == Redirected && t.dc == s.dc && t.rq == s.rq
      else if s.rest.orders != multiset{key} then
        t == s.(rest := s.rest.(counter := |s.rest.orders - multiset{key}|, orders := s.rest.orders - multiset{key},
                                answered := s.rest.answered + multiset{key}))
      else
        t == s.(rest := s.rest.(counter := 0, orders := multiset{}, answered := s.rest.answered + multiset{key},
                                committed := s.rest.committed + multiset{STALE_ORDERS}),
                rq := s.rq.(staleOrders := Slot(s.rq.staleOrders.pending, false, true)))
  {
    JointInvariant(cfg, s);
    Remaining(s.rest.orders, key);
    if !Redirects(response) {
      NoRedirect(cfg, s, key, response);
      CountedDown(s, key);
    }
  }

  /** The order's request is off the wire. */
  function OffWire(s: Sys, key: Key): Side {
    Side(s.rest.(orders := s.rest.orders - multiset{key}, answered := s.rest.answered + multiset{key}), s.rq, s.fault)
  }

  lemma NoRedirect(cfg: Config, s: Sys, key: Key, response: Response)
    requires s.fault == NoFault && !Redirects(response)
    ensures Step(cfg, s, OrderAnswer(key, response)) == FromSide(s, CountDown(OffWire(s, key)))
  {
  }

  lemma CountedDown(s: Sys, key: Key)
    requires s.fault == NoFault && s.rest.counter == |s.rest.orders| > 0 && key in s.rest.orders
    ensures var t := FromSide(s, CountDown(OffWire(s, key)));
      if s.rest.counter != 1 then
        t == s.(rest := s.rest.(counter := |s.rest.orders - multiset{key}|, orders := s.rest.orders - multiset{key},
                                answered := s.rest.answered + multiset{key}))
      else
        t == s.(rest := s.rest.(counter := 0, orders := s.rest.orders - multiset{key}, answered := s.rest.answered + multiset{key},
                                committed := s.rest.committed + multiset{STALE_ORDERS}),
                rq := s.rq.(staleOrders := Slot(s.rq.staleOrders.pending, false, true)))
  {
  }

  lemma Remaining(orders: multiset<Key>, key: Key)
    requires key in orders
    ensures |orders| >= 1 && (|orders| == 1 <==> orders == multiset{key})
  {
    var rest := orders - multiset{key};
    assert orders == rest + multiset{key};
    assert rest == multiset{} <==> |rest| == 0;
  }

  // ---- what is recorded stays

  /** A recorded response is only ever taken by a tick of the drop copy. */
  lemma ResponseStays(cfg: Config, s: Sys, e: Event, k: Kind)
    requires s.fault == NoFault && s.rq.Get(k).response && Enabled(s, e) && !e.Timer?
    ensures Step(cfg, s, e).rq.Get(k).response
  {
    if e.Welcome? || (e.Ack? && e.id.Some?) {
      LadderTakesNothing(cfg, s, e, k);
    } else if e.RestTimer? {
      TickStartsOne(cfg, Side(s.rest, s.rq, s.fault), e.grants, e.known);
    } else {
      OtherTakesNothing(cfg, s, e, k);
    }
  }

  lemma LadderTakesNothing(cfg: Config, s: Sys, e: Event, k: Kind)
    requires s.fault == NoFault && s.rq.Get(k).response && (e.Welcome? || (e.Ack? && e.id.Some?))
    ensures Step(cfg, s, e).rq.Get(k).response
  {
    var a := Acct(s.dc, s.rq, s.fault);
    if e.Welcome? {
      ClimbRequests(cfg, a.(dc := a.dc.(welcome := true)), SUBSCRIBE_BALANCES);
    } else {
      CheckRequests(cfg, a, e.id.value);
      StepAck(cfg, s, e.id.value);
    }
  }

  lemma OtherTakesNothing(cfg: Config, s: Sys, e: Event, k: Kind)
    requires s.fault == NoFault && s.rq.Get(k).response && Enabled(s, e)
    requires !e.Timer? && !e.Welcome? && !(e.Ack? && e.id.Some?) && !e.RestTimer?
    ensures Step(cfg, s, e).rq.Get(k).response
  {
  }

  /** A tick that leaves the stream ready takes the token's response, for which no state of the
      ladder waits. */
  lemma ReadyTickTakesToken(cfg: Config, s: Sys, now: int, orders: seq<Key>)
    requires s.fault == NoFault && s.dc.phase == UPGRADED
    ensures var t := Step(cfg, s, Timer(now, orders));
      t.fault == NoFault && t.dc.status == READY ==> !t.rq.token.response
  {
    var a := Acct(s.dc, s.rq, s.fault);
    StepTimer(cfg, s, now, orders);
    WhenReadyStream(cfg, CheckRequestQueue(cfg, a, orders), now, orders);
    ReadyTakesToken(cfg, CheckRequestQueue(cfg, a, orders), now, orders);
  }

  lemma ReadyTakesToken(cfg: Config, a: Acct, now: int, orders: seq<Key>)
    ensures var b := WhenReady(cfg, a, now, orders);
      && !b.rq.token.response
      && forall k | Plain(k) :: b.rq.Get(k) == a.rq.Get(k)
  {
  }
}
