/** The sessions of one market-data stream: when it is ready, and that between its sessions
    it neither enqueues nor sends. */
module FanoutSessions {
  import opened FanoutSpec
  import opened FanoutTheorems
  import opened FanoutResults

  // ---- a dropped stream

  /** What a stream enqueues and sends, up to its status. */
  predicate SameTraffic(s: Stream, t: Stream) {
    t.queue == s.queue && t.issued == s.issued && t.session == s.session && t.sent == s.sent && t.requestId == s.requestId
  }

  /** The stream at `i` is there in both, and nothing happened to it. */
  predicate Untouched(g: Gateway, h: Gateway, i: nat) {
    i < |g.streams| && i < |h.streams| && h.streams[i] == g.streams[i]
  }

  lemma {:induction false} EnsureSlicesExtends(g: Gateway, size: nat)
    ensures var h := EnsureSlices(g, size);
      |g.streams| <= |h.streams| && forall i | 0 <= i < |g.streams| :: h.streams[i] == g.streams[i]
    decreases size - |g.streams|
  {
    if |g.streams| < size {
      EnsureSlicesExtends(AddStream(g), size);
    }
  }

  lemma UpdateLeaves(settings: Settings, g: Gateway, news: seq<string>, i: nat)
    requires settings.maxPerStream > 0 && i < |g.streams| && g.streams[i].status != READY
    ensures Untouched(g, SymbolsUpdate(settings, g, news), i)
  {
    var g1 := g.(symbols := g.symbols + news);
    var size := Slices(|g1.symbols|, settings.maxPerStream);
    EnsureSlicesExtends(g1, size);
  }

  /** Without a welcome no event does anything to a stream that is not ready, a disconnect
      but for its status and flag. */
  lemma StepLeaves(settings: Settings, g: Gateway, e: Event, i: nat)
    requires settings.maxPerStream > 0 && i < |g.streams| && g.streams[i].status == DISCONNECTED && e != Welcome(i)
    ensures var h := Step(settings, g, e);
      i < |h.streams| && SameTraffic(g.streams[i], h.streams[i]) && h.streams[i].status == DISCONNECTED
  {
    match e {
      case Subscribe(items) => UpdateLeaves(settings, g.(all := g.all + set item | item in items), New(g.all, items), i);
      case Instruments(list) =>
        UpdateLeaves(settings, g.(all := g.all + set item | item in Kept(list)), New(g.all, Kept(list)), i);
      case _ =>
    }
  }

  lemma {:induction false} RunLeaves(settings: Settings, g: Gateway, events: seq<Event>, i: nat)
    requires settings.maxPerStream > 0 && i < |g.streams| && g.streams[i].status == DISCONNECTED && Welcome(i) !in events
    ensures var h := Run(settings, g, events);
      i < |h.streams| && SameTraffic(g.streams[i], h.streams[i]) && h.streams[i].status == DISCONNECTED
    decreases |events|
  {
    if events != [] {
      assert events[0] in events && forall e | e in events[1..] :: e in events;
      StepLeaves(settings, g, events[0], i);
      RunLeaves(settings, Step(settings, g, events[0]), events[1..], i);
    }
  }

  /** From a disconnect on, until the next welcome, the stream is not ready and enqueues and
      sends nothing, however the list grows and whatever the rate limiter grants. */
  lemma DroppedStreamSilent(settings: Settings, g: Gateway, i: nat, events: seq<Event>)
    requires settings.maxPerStream > 0 && i < |g.streams| && Welcome(i) !in events
    ensures var h := Run(settings, g, [Disconnected(i)] + events);
      i < |h.streams| && SameTraffic(g.streams[i], h.streams[i]) && h.streams[i].status == DISCONNECTED
  {
    var all := [Disconnected(i)] + events;
    assert all[0] == Disconnected(i) && all[1..] == events;
    RunLeaves(settings, Step(settings, g, Disconnected(i)), events, i);
  }

  // ---- ready means welcomed since the last disconnect

  /** The stream has been there at the `k`th event, a welcome to it, and was not dropped
      since. */
  ghost predicate WelcomedAt(settings: Settings, events: seq<Event>, i: nat, k: nat)
    requires settings.maxPerStream > 0
  {
    && k < |events| && events[k] == Welcome(i) && i < |Run(settings, START, events[..k]).streams|
    && Disconnected(i) !in events[k + 1..]
  }

  ghost predicate Welcomed(settings: Settings, events: seq<Event>, i: nat)
    requires settings.maxPerStream > 0
  {
    exists k :: WelcomedAt(settings, events, i, k)
  }

  /** A further event. */
  lemma WelcomedNext(settings: Settings, events: seq<Event>, e: Event, i: nat)
    requires settings.maxPerStream > 0
    ensures Welcomed(settings, events + [e], i) <==>
      if e == Welcome(i) && i < |Run(settings, START, events).streams| then true
      else e != Disconnected(i) && Welcomed(settings, events, i)
  {
    var all, n := events + [e], |events|;
    assert all[..n] == events && all[n + 1..] == [];
    if k: nat :| WelcomedAt(settings, all, i, k) && k < n {
      OneMore(events, e, k);
      assert WelcomedAt(settings, events, i, k);
    }
    if Welcomed(settings, events, i) && e != Disconnected(i) {
      var k: nat :| WelcomedAt(settings, events, i, k);
      OneMore(events, e, k);
      assert WelcomedAt(settings, all, i, k);
    }
    if e == Welcome(i) && i < |Run(settings, START, events).streams| {
      assert WelcomedAt(settings, all, i, n);
    }
  }

  lemma OneMore(events: seq<Event>, e: Event, k: nat)
    requires k < |events|
    ensures (events + [e])[..k] == events[..k] && (events + [e])[k + 1..] == events[k + 1..] + [e]
  {
  }

  lemma SubscribeStatus(settings: Settings, s: Stream, symbols: seq<string>, start: nat)
    ensures SubscribeFrom(settings, s, symbols, start).status == s.status
    ensures SubscribeFrom(settings, s, symbols, start).welcome == s.welcome
  {
    PushChannelsExtends(s, Channels(settings), Slice(symbols, s.index, settings.maxPerStream, start));
  }

  lemma {:induction false} EnsureSlicesNew(g: Gateway, size: nat, i: nat)
    requires |g.streams| <= i < |EnsureSlices(g, size).streams|
    ensures var s := EnsureSlices(g, size).streams[i]; s.status == UNSET && !s.welcome
    decreases size - |g.streams|
  {
    var h := AddStream(g);
    EnsureSlicesExtends(h, size);
    if i > |g.streams| {
      EnsureSlicesNew(h, size, i);
    }
  }

  /** An update changes no status, and the streams it creates are not ready. */
  lemma UpdateStatus(settings: Settings, g: Gateway, news: seq<string>, i: nat)
    requires settings.maxPerStream > 0
    ensures var h := SymbolsUpdate(settings, g, news);
      && |g.streams| <= |h.streams|
      && (i < |h.streams| ==>
            if i < |g.streams| then h.streams[i].status == g.streams[i].status && h.streams[i].welcome == g.streams[i].welcome
            else h.streams[i].status == UNSET && !h.streams[i].welcome)
  {
    var g1 := g.(symbols := g.symbols + news);
    var size := Slices(|g1.symbols|, settings.maxPerStream);
    var h0 := EnsureSlices(g1, size);
    EnsureSlicesExtends(g1, size);
    AllStatus(settings, h0, |g.symbols|, i);
    if |g.streams| <= i < |h0.streams| {
      EnsureSlicesNew(g1, size, i);
    }
  }

  lemma AllStatus(settings: Settings, g: Gateway, start: nat, i: nat)
    ensures var h := SubscribeAll(settings, g, start);
      && |h.streams| == |g.streams|
      && (i < |h.streams| ==> h.streams[i].status == g.streams[i].status && h.streams[i].welcome == g.streams[i].welcome)
  {
    if i < |g.streams| {
      SubscribeStatus(settings, g.streams[i], g.symbols, start);
    }
  }

  predicate IsReady(g: Gateway, i: nat) { i < |g.streams| && g.streams[i].status == READY }

  lemma StepReady(settings: Settings, g: Gateway, e: Event, i: nat)
    requires settings.maxPerStream > 0
    ensures IsReady(Step(settings, g, e), i) <==>
      if e == Welcome(i) && i < |g.streams| then true else e != Disconnected(i) && IsReady(g, i)
  {
    match e {
      case Subscribe(items) => UpdateStatus(settings, g.(all := g.all + set item | item in items), New(g.all, items), i);
      case Instruments(list) =>
        UpdateStatus(settings, g.(all := g.all + set item | item in Kept(list)), New(g.all, Kept(list)), i);
      case Welcome(j) =>
        if j < |g.streams| {
          var s := g.streams[j];
          SubscribeStatus(settings, s.(welcome := true, status := READY, leftover := s.queue, session := [], sent := []), g.symbols, 0);
        }
      case _ =>
    }
  }

  /** Over every run a stream is ready if and only if a welcome came to it after its last
      disconnect. */
  lemma {:induction false} ReadyExact(settings: Settings, events: seq<Event>, i: nat)
    requires settings.maxPerStream > 0
    ensures IsReady(Run(settings, START, events), i) <==> Welcomed(settings, events, i)
    decreases |events|
  {
    if events != [] {
      var head, last := events[..|events| - 1], events[|events| - 1];
      ReadyExact(settings, head, i);
      assert head + [last] == events;
      Reach(settings, head, last);
      WelcomedNext(settings, head, last, i);
      StepReady(settings, Run(settings, START, head), last, i);
    }
  }

  // ---- what a welcome enqueues

  /** From `first` on, one message per symbol for this channel, numbered on. */
  ghost predicate BlockAt(messages: seq<Message>, first: nat, channel: Channel, symbols: seq<string>, requestId: nat) {
    && first + |symbols| <= |messages|
    && forall k | 0 <= k < |symbols| :: messages[first + k] == Message(requestId + first + k + 1, channel, symbols[k])
  }

  /** The best price for every symbol, then the trades, then the depth if the settings say so,
      numbered one by one. */
  ghost predicate InOrder(settings: Settings, messages: seq<Message>, symbols: seq<string>, requestId: nat) {
    && BlockAt(messages, 0, if settings.bestFromTicker then TICKER else OBU_1, symbols, requestId)
    && BlockAt(messages, |symbols|, TRADE, symbols, requestId)
    && (settings.fullDepth ==> BlockAt(messages, 2 * |symbols|, OBU_INCREMENT, symbols, requestId))
    && |messages| == if settings.fullDepth then 3 * |symbols| else 2 * |symbols|
  }

  lemma BlockMade(before: seq<Message>, requestId: nat, channel: Channel, symbols: seq<string>, after: seq<Message>)
    ensures BlockAt(before + Messages(requestId + |before|, channel, symbols) + after, |before|, channel, symbols, requestId)
  {
  }

  lemma TwoChannels(requestId: nat, best: Channel, symbols: seq<string>)
    ensures AllMessages(requestId, [best, TRADE], symbols)
      == Messages(requestId, best, symbols) + Messages(requestId + |symbols|, TRADE, symbols)
  {
    assert [best][..0] == [] && [best, TRADE][..1] == [best];
    assert AllMessages(requestId, [], symbols) == [];
    assert AllMessages(requestId, [best], symbols) == Messages(requestId, best, symbols);
  }

  lemma ThreeChannels(requestId: nat, best: Channel, symbols: seq<string>)
    ensures AllMessages(requestId, [best, TRADE, OBU_INCREMENT], symbols)
      == AllMessages(requestId, [best, TRADE], symbols) + Messages(requestId + 2 * |symbols|, OBU_INCREMENT, symbols)
  {
    assert [best, TRADE, OBU_INCREMENT][..2] == [best, TRADE];
    TwoChannels(requestId, best, symbols);
  }

  lemma BlocksMade(settings: Settings, requestId: nat, symbols: seq<string>)
    ensures InOrder(settings, AllMessages(requestId, Channels(settings), symbols), symbols, requestId)
  {
    var best := if settings.bestFromTicker then TICKER else OBU_1;
    var first, second := Messages(requestId, best, symbols), Messages(requestId + |symbols|, TRADE, symbols);
    TwoChannels(requestId, best, symbols);
    if settings.fullDepth {
      var third := Messages(requestId + 2 * |symbols|, OBU_INCREMENT, symbols);
      ThreeChannels(requestId, best, symbols);
      assert Channels(settings) == [best, TRADE, OBU_INCREMENT];
      BlocksOf(requestId, best, symbols, third);
      BlockMade(first + second, requestId, OBU_INCREMENT, symbols, []);
      assert first + second + third + [] == first + second + third;
    } else {
      assert Channels(settings) == [best, TRADE];
      BlocksOf(requestId, best, symbols, []);
      assert first + second + [] == first + second;
    }
  }

  lemma BlocksOf(requestId: nat, best: Channel, symbols: seq<string>, after: seq<Message>)
    ensures var all := Messages(requestId, best, symbols) + Messages(requestId + |symbols|, TRADE, symbols) + after;
      BlockAt(all, 0, best, symbols, requestId) && BlockAt(all, |symbols|, TRADE, symbols, requestId)
  {
    var first, second := Messages(requestId, best, symbols), Messages(requestId + |symbols|, TRADE, symbols);
    BlockMade([], requestId, best, symbols, second + after);
    assert [] + first + (second + after) == first + second + after;
    BlockMade(first, requestId, TRADE, symbols, after);
  }

  lemma IndexIs(settings: Settings, g: Gateway, i: nat)
    requires settings.maxPerStream > 0 && Reachable(settings, g) && i < |g.streams|
    ensures g.streams[i].index == i
  {
    Holds(settings, g);
  }

  lemma WelcomeSession(settings: Settings, s: Stream, symbols: seq<string>)
    ensures var t := OnWelcome(settings, s, symbols);
      && t.status == READY && t.queue == s.queue + t.session
      && t.session == AllMessages(s.requestId, Channels(settings), Slice(symbols, s.index, settings.maxPerStream, 0))
  {
    var s1 := s.(welcome := true, status := READY, leftover := s.queue, session := [], sent := []);
    var added := AllMessages(s.requestId, Channels(settings), Slice(symbols, s.index, settings.maxPerStream, 0));
    PushChannelsExtends(s1, Channels(settings), Slice(symbols, s.index, settings.maxPerStream, 0));
    assert OnWelcome(settings, s, symbols) == Extended(s1, added);
    assert [] + added == added;
  }

  lemma SameOrder(settings: Settings, messages: seq<Message>, other: seq<Message>, symbols: seq<string>, requestId: nat)
    requires messages == other && InOrder(settings, other, symbols, requestId)
    ensures InOrder(settings, messages, symbols, requestId)
  {
  }

  /** The whole slice is enqueued behind what still waits. */
  ghost predicate Welcomes(settings: Settings, symbols: seq<string>, s: Stream, t: Stream) {
    && t.status == READY && t.queue == s.queue + t.session
    && InOrder(settings, t.session, Slice(symbols, s.index, settings.maxPerStream, 0), s.requestId)
  }

  lemma WelcomeBlocks(settings: Settings, s: Stream, symbols: seq<string>)
    ensures Welcomes(settings, symbols, s, OnWelcome(settings, s, symbols))
  {
    var slice := Slice(symbols, s.index, settings.maxPerStream, 0);
    var added := AllMessages(s.requestId, Channels(settings), slice);
    WelcomeSession(settings, s, symbols);
    BlocksMade(settings, s.requestId, slice);
    SameOrder(settings, OnWelcome(settings, s, symbols).session, added, slice, s.requestId);
  }

  /** What a welcome does, for the stream at `i` serves the `i`th slice. */
  lemma WelcomeExact(settings: Settings, g: Gateway, i: nat)
    requires settings.maxPerStream > 0 && Reachable(settings, g) && i < |g.streams|
    ensures g.streams[i].index == i && Welcomes(settings, g.symbols, g.streams[i], Step(settings, g, Welcome(i)).streams[i])
  {
    IndexIs(settings, g, i);
    WelcomeBlocks(settings, g.streams[i], g.symbols);
  }

  // ---- the flag of the welcome says the same as the status

  ghost predicate FlagsOk(g: Gateway) {
    forall i | 0 <= i < |g.streams| :: g.streams[i].welcome <==> g.streams[i].status == READY
  }

  lemma UpdateFlags(settings: Settings, g: Gateway, news: seq<string>)
    requires settings.maxPerStream > 0 && FlagsOk(g)
    ensures FlagsOk(SymbolsUpdate(settings, g, news))
  {
    var h := SymbolsUpdate(settings, g, news);
    forall i | 0 <= i < |h.streams| ensures h.streams[i].welcome <==> h.streams[i].status == READY {
      UpdateStatus(settings, g, news, i);
    }
  }

  lemma StepFlags(settings: Settings, g: Gateway, e: Event)
    requires settings.maxPerStream > 0 && FlagsOk(g)
    ensures FlagsOk(Step(settings, g, e))
  {
    match e {
      case Subscribe(items) => UpdateFlags(settings, g.(all := g.all + set item | item in items), New(g.all, items));
      case Instruments(list) =>
        UpdateFlags(settings, g.(all := g.all + set item | item in Kept(list)), New(g.all, Kept(list)));
      case Welcome(j) =>
        if j < |g.streams| {
          var s := g.streams[j];
          SubscribeStatus(settings, s.(welcome := true, status := READY, leftover := s.queue, session := [], sent := []), g.symbols, 0);
        }
      case _ =>
    }
  }

  lemma {:induction false} RunFlags(settings: Settings, g: Gateway, events: seq<Event>)
    requires settings.maxPerStream > 0 && FlagsOk(g)
    ensures FlagsOk(Run(settings, g, events))
    decreases |events|
  {
    if events != [] {
      StepFlags(settings, g, events[0]);
      RunFlags(settings, Step(settings, g, events[0]), events[1..]);
    }
  }

  /** In every reachable state a stream has its flag set exactly if it is ready. */
  lemma FlagIsReady(settings: Settings, g: Gateway, i: nat)
    requires settings.maxPerStream > 0 && Reachable(settings, g) && i < |g.streams|
    ensures g.streams[i].welcome <==> g.streams[i].status == READY
  {
    var events :| Run(settings, START, events) == g;
    RunFlags(settings, START, events);
  }
}
