/** Exactly-once subscription and slicing, for every interleaving of symbol updates,
    welcomes, disconnects and ticks of all streams. */
module FanoutTheorems {
  import opened FanoutSpec

  // ---- messages of one channel

  /** The symbols a sequence of messages subscribes on one channel. */
  function Project(messages: seq<Message>, c: Channel): seq<string>
    decreases |messages|
  {
    if messages == [] then []
    else
      var head, last := messages[..|messages| - 1], messages[|messages| - 1];
      Project(head, c) + if last.channel == c then [last.symbol] else []
  }

  lemma {:induction false} ProjectAppend(xs: seq<Message>, ys: seq<Message>, c: Channel)
    ensures Project(xs + ys, c) == Project(xs, c) + Project(ys, c)
    decreases |ys|
  {
    if ys == [] {
      assert xs + ys == xs;
    } else {
      var head := ys[..|ys| - 1];
      assert (xs + ys)[..|xs + ys| - 1] == xs + head;
      ProjectAppend(xs, head, c);
    }
  }

  /** The messages one channel adds. */
  function Messages(requestId: nat, channel: Channel, symbols: seq<string>): seq<Message> {
    seq(|symbols|, i requires 0 <= i < |symbols| => Message(requestId + 1 + i, channel, symbols[i]))
  }

  function Extended(s: Stream, added: seq<Message>): Stream {
    s.(requestId := s.requestId + |added|, queue := s.queue + added, issued := s.issued + added, session := s.session + added)
  }

  lemma {:induction false} PushAllExtends(s: Stream, channel: Channel, symbols: seq<string>)
    ensures PushAll(s, channel, symbols) == Extended(s, Messages(s.requestId, channel, symbols))
    decreases |symbols|
  {
    if symbols == [] {
      assert Messages(s.requestId, channel, symbols) == [];
      ExtendNothing(s);
    } else {
      var head := symbols[..|symbols| - 1];
      PushAllExtends(s, channel, head);
      assert Messages(s.requestId, channel, symbols)
          == Messages(s.requestId, channel, head) + [Message(s.requestId + |symbols|, channel, symbols[|symbols| - 1])];
      ExtendTwice(s, Messages(s.requestId, channel, head), [Message(s.requestId + |symbols|, channel, symbols[|symbols| - 1])]);
    }
  }

  lemma ExtendNothing(s: Stream)
    ensures Extended(s, []) == s
  {
  }

  lemma ExtendTwice(s: Stream, xs: seq<Message>, ys: seq<Message>)
    ensures Extended(Extended(s, xs), ys) == Extended(s, xs + ys)
  {
  }

  /** Numbered from `base` on, on the given channels and symbols. */
  ghost predicate Numbered(messages: seq<Message>, base: nat) {
    forall k | 0 <= k < |messages| :: messages[k].id == base + 1 + k
  }

  ghost predicate Within(messages: seq<Message>, channels: seq<Channel>, symbols: seq<string>) {
    forall k | 0 <= k < |messages| :: messages[k].channel in channels && messages[k].symbol in symbols
  }

  lemma {:induction false} ProjectMessages(requestId: nat, channel: Channel, symbols: seq<string>, c: Channel)
    ensures Project(Messages(requestId, channel, symbols), c) == if c == channel then symbols else []
    decreases |symbols|
  {
    if symbols == [] {
      assert Messages(requestId, channel, symbols) == [];
    } else {
      var head := symbols[..|symbols| - 1];
      ProjectMessages(requestId, channel, head, c);
      assert Messages(requestId, channel, symbols)[..|symbols| - 1] == Messages(requestId, channel, head);
      assert head + [symbols[|symbols| - 1]] == symbols;
    }
  }

  ghost predicate NoDup<T>(xs: seq<T>) { forall i, j | 0 <= i < j < |xs| :: xs[i] != xs[j] }

  /** All the messages one subscription adds: channel by channel, symbol by symbol. */
  function AllMessages(requestId: nat, channels: seq<Channel>, symbols: seq<string>): seq<Message>
    decreases |channels|
  {
    if channels == [] then []
    else
      var before := AllMessages(requestId, channels[..|channels| - 1], symbols);
      before + Messages(requestId + |before|, channels[|channels| - 1], symbols)
  }

  lemma {:induction false} PushChannelsExtends(s: Stream, channels: seq<Channel>, symbols: seq<string>)
    ensures PushChannels(s, channels, symbols) == Extended(s, AllMessages(s.requestId, channels, symbols))
    decreases |channels|
  {
    if channels == [] {
      ExtendNothing(s);
    } else {
      var head, last := channels[..|channels| - 1], channels[|channels| - 1];
      var before := AllMessages(s.requestId, head, symbols);
      PushChannelsExtends(s, head, symbols);
      PushAllExtends(Extended(s, before), last, symbols);
      ExtendTwice(s, before, Messages(s.requestId + |before|, last, symbols));
    }
  }

  lemma {:induction false} AllMessagesShape(requestId: nat, channels: seq<Channel>, symbols: seq<string>)
    ensures Numbered(AllMessages(requestId, channels, symbols), requestId)
    ensures Within(AllMessages(requestId, channels, symbols), channels, symbols)
    decreases |channels|
  {
    if channels != [] {
      var head := channels[..|channels| - 1];
      AllMessagesShape(requestId, head, symbols);
      assert forall c | c in head :: c in channels;
    }
  }

  /** Per channel exactly the symbols, in order. */
  lemma {:induction false} ProjectAll(requestId: nat, channels: seq<Channel>, symbols: seq<string>, c: Channel)
    requires NoDup(channels)
    ensures Project(AllMessages(requestId, channels, symbols), c) == if c in channels then symbols else []
    decreases |channels|
  {
    if channels != [] {
      var head, last := channels[..|channels| - 1], channels[|channels| - 1];
      var before := AllMessages(requestId, head, symbols);
      ProjectAll(requestId, head, symbols, c);
      ProjectAppend(before, Messages(requestId + |before|, last, symbols), c);
      ProjectMessages(requestId + |before|, last, symbols, c);
      InLast(channels, c);
    }
  }

  lemma InLast(channels: seq<Channel>, c: Channel)
    requires channels != [] && NoDup(channels)
    ensures var head, last := channels[..|channels| - 1], channels[|channels| - 1];
      (c in channels <==> c in head || c == last) && last !in head
  {
  }

  // ---- slices

  /** The new symbols of a slice are exactly what an update appends to it. */
  lemma SliceGrows(symbols: seq<string>, news: seq<string>, index: nat, m: nat)
    ensures Slice(symbols + news, index, m, 0) == Slice(symbols, index, m, 0) + Slice(symbols + news, index, m, |symbols|)
  {
  }

  function Concat(symbols: seq<string>, m: nat, k: nat): seq<string> {
    if k == 0 then [] else Concat(symbols, m, k - 1) + Slice(symbols, k - 1, m, 0)
  }

  /** The first slices are a prefix of the list. */
  lemma {:induction false} ConcatPrefix(symbols: seq<string>, m: nat, k: nat)
    ensures Concat(symbols, m, k) == symbols[..Min(k * m, |symbols|)]
  {
    if k > 0 {
      ConcatPrefix(symbols, m, k - 1);
      assert (k - 1) * m + m == k * m;
      var lo, hi := (k - 1) * m, Min(k * m, |symbols|);
      if lo <= |symbols| {
        assert symbols[..lo] + symbols[lo..hi] == symbols[..hi];
      } else {
        assert symbols[..|symbols|] == symbols && symbols + [] == symbols;
      }
    }
  }

  lemma SlicesCover(n: nat, m: nat)
    requires m > 0
    ensures n <= Slices(n, m) * m < n + m
  {
  }

  // ---- the invariant

  /** Per channel exactly the slice has been enqueued since the welcome, and what was sent
      since then plus what still waits is what waited at the welcome plus what came. */
  ghost predicate SessionOk(settings: Settings, slice: seq<string>, s: Stream) {
    && (forall c :: Project(s.session, c) == if c in Channels(settings) then slice else [])
    && s.sent + s.queue == s.leftover + s.session
  }

  ghost predicate StreamOk(settings: Settings, symbols: seq<string>, s: Stream) {
    var slice := Slice(symbols, s.index, settings.maxPerStream, 0);
    && (s.status == READY ==> SessionOk(settings, slice, s))
    && Within(s.queue, Channels(settings), slice) && Within(s.leftover, Channels(settings), slice)
    && Numbered(s.issued, s.id * REQUEST_ID) && s.requestId == s.id * REQUEST_ID + |s.issued|
  }

  ghost predicate IdsOk(g: Gateway) {
    && (forall k | 0 <= k < |g.handedOut| :: g.handedOut[k] == (k + 1) % 0x1_0000)
    && g.streamId == |g.handedOut| % 0x1_0000
    && (forall i | 0 <= i < |g.streams| ::
          g.streams[i].id == g.streams[i].ordinal % 0x1_0000 && 0 < g.streams[i].ordinal <= |g.handedOut|)
    && (forall i, j | 0 <= i < j < |g.streams| :: g.streams[i].ordinal < g.streams[j].ordinal)
  }

  ghost predicate StreamsOk(settings: Settings, g: Gateway) {
    forall i | 0 <= i < |g.streams| :: g.streams[i].index == i && StreamOk(settings, g.symbols, g.streams[i])
  }

  ghost predicate ListOk(g: Gateway) { NoDup(g.symbols) && g.all == set x | x in g.symbols }

  ghost predicate Inv(settings: Settings, g: Gateway)
    requires settings.maxPerStream > 0
  {
    && ListOk(g) && IdsOk(g) && StreamsOk(settings, g)
    && |g.streams| == Slices(|g.symbols|, settings.maxPerStream)
  }

  lemma ChannelsDistinct(settings: Settings)
    ensures NoDup(Channels(settings)) && |Channels(settings)| > 0
  {
  }

  // ---- one stream

  /** Subscribing to what an update adds. */
  lemma SubscribeKeeps(settings: Settings, s: Stream, symbols: seq<string>, news: seq<string>)
    requires StreamOk(settings, symbols, s)
    ensures var t := SubscribeFrom(settings, s, symbols + news, |symbols|);
      StreamOk(settings, symbols + news, t) && t.index == s.index && t.id == s.id && t.ordinal == s.ordinal
  {
    var slice := Slice(symbols, s.index, settings.maxPerStream, 0);
    var more := Slice(symbols + news, s.index, settings.maxPerStream, |symbols|);
    SliceGrows(symbols, news, s.index, settings.maxPerStream);
    WithinWider(s.queue, Channels(settings), slice, more);
    WithinWider(s.leftover, Channels(settings), slice, more);
    if s.status == READY {
      var added := AllMessages(s.requestId, Channels(settings), more);
      PushChannelsExtends(s, Channels(settings), more);
      AllMessagesShape(s.requestId, Channels(settings), more);
      SessionGrows(settings, s, slice, more);
      WithinAppend(s.queue, added, Channels(settings), slice, more);
    }
  }

  lemma WithinWider(messages: seq<Message>, channels: seq<Channel>, slice: seq<string>, more: seq<string>)
    requires Within(messages, channels, slice)
    ensures Within(messages, channels, slice + more)
  {
  }

  lemma WithinAppend(queue: seq<Message>, added: seq<Message>, channels: seq<Channel>, slice: seq<string>, more: seq<string>)
    requires Within(queue, channels, slice) && Within(added, channels, more)
    ensures Within(queue + added, channels, slice + more)
  {
  }

  lemma SessionGrows(settings: Settings, s: Stream, slice: seq<string>, more: seq<string>)
    requires SessionOk(settings, slice, s)
    ensures SessionOk(settings, slice + more, Extended(s, AllMessages(s.requestId, Channels(settings), more)))
  {
    var added := AllMessages(s.requestId, Channels(settings), more);
    ChannelsDistinct(settings);
    forall c ensures Project(s.session + added, c) == if c in Channels(settings) then slice + more else [] {
      ProjectAppend(s.session, added, c);
      ProjectAll(s.requestId, Channels(settings), more, c);
    }
    assert s.sent + (s.queue + added) == (s.sent + s.queue) + added;
    assert (s.leftover + s.session) + added == s.leftover + (s.session + added);
  }

  lemma WelcomeKeeps(settings: Settings, s: Stream, symbols: seq<string>)
    requires StreamOk(settings, symbols, s)
    ensures var t := OnWelcome(settings, s, symbols);
      StreamOk(settings, symbols, t) && t.index == s.index && t.id == s.id && t.ordinal == s.ordinal
  {
    var slice := Slice(symbols, s.index, settings.maxPerStream, 0);
    var s1 := s.(welcome := true, status := READY, leftover := s.queue, session := [], sent := []);
    assert s1.sent + s1.queue == s1.leftover + s1.session;
    assert SessionOk(settings, [], s1);
    SessionGrows(settings, s1, [], slice);
    assert [] + slice == slice;
    PushChannelsExtends(s1, Channels(settings), slice);
    AllMessagesShape(s1.requestId, Channels(settings), slice);
  }

  lemma FlushKeeps(settings: Settings, s: Stream, symbols: seq<string>, n: nat)
    requires StreamOk(settings, symbols, s)
    ensures StreamOk(settings, symbols, Flush(s, n))
  {
  }

  // ---- the controller

  lemma OneStreamKeeps(settings: Settings, g: Gateway, i: nat, s: Stream)
    requires settings.maxPerStream > 0 && Inv(settings, g) && i < |g.streams|
    requires StreamOk(settings, g.symbols, s) && s.index == i && s.id == g.streams[i].id && s.ordinal == g.streams[i].ordinal
    ensures Inv(settings, OnStream(g, i, s))
  {
  }

  lemma {:induction false} NewDistinct(all: set<string>, items: seq<string>)
    ensures NoDup(New(all, items))
    ensures forall x :: x in New(all, items) <==> x in items && x !in all
    decreases |items|
  {
    if items != [] {
      var head, last := items[..|items| - 1], items[|items| - 1];
      NewDistinct(all, head);
      assert items == head + [last];
    }
  }

  /** What a download keeps are the symbols it offers. */
  lemma {:induction false} KeptExact(list: seq<Instrument>)
    ensures forall x :: x in Kept(list) <==> Offers(list, x)
    decreases |list|
  {
    if list != [] {
      KeptExact(list[..|list| - 1]);
      forall x ensures x in Kept(list) <==> Offers(list, x) {
        OffersNext(list, x);
      }
    }
  }

  /** One for each instrument that is not discarded. */
  lemma {:induction false} KeptCount(list: seq<Instrument>)
    ensures |Kept(list)| == |set i | 0 <= i < |list| && !list[i].discard|
    decreases |list|
  {
    if list != [] {
      var n := |list| - 1;
      KeptCount(list[..n]);
      var before, all := set i | 0 <= i < n && !list[..n][i].discard, set i | 0 <= i < |list| && !list[i].discard;
      assert all == before + if list[n].discard then {} else {n};
    }
  }

  lemma OffersNext(list: seq<Instrument>, x: string)
    requires list != []
    ensures var n := |list| - 1;
      Offers(list, x) <==> Offers(list[..n], x) || (list[n].symbol == x && !list[n].discard)
  {
    var n := |list| - 1;
    if Offers(list[..n], x) {
      var i :| 0 <= i < n && list[..n][i].symbol == x && !list[..n][i].discard;
      assert list[i].symbol == x && !list[i].discard;
    }
    if i :| 0 <= i < |list| && list[i].symbol == x && !list[i].discard && i < n {
      assert list[..n][i] == list[i];
    }
  }

  /** Streams created for slices that had no stream yet: nothing is enqueued for them, they
      subscribe when their welcome arrives. */
  lemma {:induction false} EnsureSlicesKeeps(settings: Settings, g: Gateway, size: nat)
    requires IdsOk(g) && StreamsOk(settings, g) && |g.streams| <= size
    ensures var h := EnsureSlices(g, size);
      && IdsOk(h) && StreamsOk(settings, h) && |h.streams| == size
      && h.symbols == g.symbols && h.all == g.all
      && (forall i | 0 <= i < |g.streams| :: h.streams[i] == g.streams[i])
      && (forall i | |g.streams| <= i < size :: h.streams[i].status == UNSET)
    decreases size - |g.streams|
  {
    if |g.streams| < size {
      AddStreamKeeps(settings, g);
      EnsureSlicesKeeps(settings, AddStream(g), size);
    }
  }

  lemma AddStreamKeeps(settings: Settings, g: Gateway)
    requires IdsOk(g) && StreamsOk(settings, g)
    ensures IdsOk(AddStream(g)) && StreamsOk(settings, AddStream(g))
  {
  }

  /** New streams may be created before or after the list grows: they are not ready. */
  lemma UpdateKeeps(settings: Settings, g: Gateway, news: seq<string>)
    requires settings.maxPerStream > 0 && IdsOk(g) && StreamsOk(settings, g)
    requires |g.streams| == Slices(|g.symbols|, settings.maxPerStream)
    ensures var h := SymbolsUpdate(settings, g, news);
      && IdsOk(h) && StreamsOk(settings, h) && h.symbols == g.symbols + news && h.all == g.all
      && |h.streams| == Slices(|h.symbols|, settings.maxPerStream)
  {
    var start, size := |g.symbols|, Slices(|g.symbols + news|, settings.maxPerStream);
    SlicesMonotone(|g.symbols|, |g.symbols + news|, settings.maxPerStream);
    EnsureSlicesKeeps(settings, g, size);
    var h0 := EnsureSlices(g, size);
    EnsureSlicesFrame(g, g.symbols + news, size);
    var h1 := EnsureSlices(g.(symbols := g.symbols + news), size);
    assert h1 == h0.(symbols := g.symbols + news);
    var h := SubscribeAll(settings, h1, start);
    forall i | 0 <= i < |h.streams|
      ensures h.streams[i].index == i && StreamOk(settings, h.symbols, h.streams[i])
      ensures h.streams[i].id == h0.streams[i].id && h.streams[i].ordinal == h0.streams[i].ordinal
    {
      SubscribeKeeps(settings, h0.streams[i], g.symbols, news);
    }
  }

  lemma {:induction false} EnsureSlicesFrame(g: Gateway, symbols: seq<string>, size: nat)
    ensures EnsureSlices(g.(symbols := symbols), size) == EnsureSlices(g, size).(symbols := symbols)
    decreases size - |g.streams|
  {
    if |g.streams| < size {
      EnsureSlicesFrame(AddStream(g), symbols, size);
    }
  }

  lemma SlicesMonotone(n: nat, k: nat, m: nat)
    requires m > 0 && n <= k
    ensures Slices(n, m) <= Slices(k, m)
  {
    DivMonotone(n + m - 1, k + m - 1, m);
  }

  lemma DivMonotone(x: nat, y: nat, m: nat)
    requires m > 0 && x <= y
    ensures x / m <= y / m
  {
    var q, p := x / m, y / m;
    assert x == q * m + x % m && y == p * m + y % m;
    if q > p {
      MulMonotone(p + 1, q, m);
      assert false;
    }
  }

  lemma MulMonotone(x: nat, y: nat, m: nat)
    requires x <= y
    ensures x * m <= y * m
  {
  }

  lemma ListKeeps(g: Gateway, items: seq<string>)
    requires ListOk(g)
    ensures var news := New(g.all, items);
      NoDup(g.symbols + news) && g.all + (set item | item in items) == set x | x in g.symbols + news
  {
    NewDistinct(g.all, items);
    var news := New(g.all, items);
    var all := g.symbols + news;
    forall i, j | 0 <= i < j < |all| ensures all[i] != all[j] {
      if i < |g.symbols| <= j {
        assert all[i] in g.all && all[j] in news;
      }
    }
  }

  lemma SubscribeStep(settings: Settings, g: Gateway, items: seq<string>)
    requires settings.maxPerStream > 0 && Inv(settings, g)
    ensures Inv(settings, OnSubscribe(settings, g, items))
  {
    ListKeeps(g, items);
    UpdateKeeps(settings, g.(all := g.all + set item | item in items), New(g.all, items));
  }

  lemma InstrumentsStep(settings: Settings, g: Gateway, list: seq<Instrument>)
    requires settings.maxPerStream > 0 && Inv(settings, g)
    ensures Inv(settings, OnInstruments(settings, g, list))
  {
    var kept := Kept(list);
    var news := New(g.all, kept);
    ListKeeps(g, kept);
    if news == [] {
      assert g.symbols + [] == g.symbols;
    } else {
      UpdateKeeps(settings, g.(all := g.all + set item | item in kept), news);
    }
  }

  lemma StreamStep(settings: Settings, g: Gateway, e: Event)
    requires settings.maxPerStream > 0 && Inv(settings, g)
    requires e.Welcome? || e.Disconnected? || e.Timer?
    ensures Inv(settings, Step(settings, g, e))
  {
    if e.i < |g.streams| {
      var s := g.streams[e.i];
      if e.Welcome? {
        WelcomeKeeps(settings, s, g.symbols);
        OneStreamKeeps(settings, g, e.i, OnWelcome(settings, s, g.symbols));
      } else if e.Disconnected? {
        OneStreamKeeps(settings, g, e.i, OnDisconnected(s));
      } else {
        FlushKeeps(settings, s, g.symbols, e.n);
        OneStreamKeeps(settings, g, e.i, Flush(s, e.n));
      }
    }
  }

  lemma AllocateStep(settings: Settings, g: Gateway)
    requires settings.maxPerStream > 0 && Inv(settings, g)
    ensures Inv(settings, Allocate(g))
  {
  }

  lemma StepKeeps(settings: Settings, g: Gateway, e: Event)
    requires settings.maxPerStream > 0 && Inv(settings, g)
    ensures Inv(settings, Step(settings, g, e))
  {
    if e.Subscribe? {
      SubscribeStep(settings, g, e.items);
    } else if e.Instruments? {
      InstrumentsStep(settings, g, e.list);
    } else if e.OtherStream? {
      AllocateStep(settings, g);
    } else {
      StreamStep(settings, g, e);
    }
  }

  lemma {:induction false} RunKeeps(settings: Settings, g: Gateway, events: seq<Event>)
    requires settings.maxPerStream > 0 && Inv(settings, g)
    ensures Inv(settings, Run(settings, g, events))
    decreases |events|
  {
    if events != [] {
      StepKeeps(settings, g, events[0]);
      RunKeeps(settings, Step(settings, g, events[0]), events[1..]);
    }
  }

  lemma Holds(settings: Settings, g: Gateway)
    requires settings.maxPerStream > 0 && Reachable(settings, g)
    ensures Inv(settings, g)
  {
    SlicesCover(0, settings.maxPerStream);
    assert Slices(0, settings.maxPerStream) == 0;
    var events :| Run(settings, START, events) == g;
    RunKeeps(settings, START, events);
  }
}
