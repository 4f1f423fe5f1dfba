/** The results about the fan-out, stated for every reachable state of the gateway. */
module FanoutResults {
  import opened FanoutSpec
  import opened FanoutTheorems

  // ---- exactly-once subscription

  /** For each ready stream, what was enqueued per channel since its welcome is its current
      slice of the shared list, in order and without repetition. */
  lemma ExactlyOnceSubscription(settings: Settings, g: Gateway, i: nat, c: Channel)
    requires settings.maxPerStream > 0 && Reachable(settings, g)
    requires i < |g.streams| && g.streams[i].status == READY && c in Channels(settings)
    ensures Project(g.streams[i].session, c) == Slice(g.symbols, i, settings.maxPerStream, 0)
    ensures NoDup(Project(g.streams[i].session, c))
  {
    Holds(settings, g);
  }

  lemma ChannelsIn(settings: Settings)
    ensures TRADE in Channels(settings) && (TICKER in Channels(settings) <==> settings.bestFromTicker)
    ensures (OBU_1 in Channels(settings) <==> !settings.bestFromTicker)
    ensures (OBU_INCREMENT in Channels(settings) <==> settings.fullDepth)
  {
  }

  /** The messages subscribe each of these symbols once to trades, to the best price as the
      settings say, and to the depth only if the settings say so. */
  predicate PerChannel(settings: Settings, messages: seq<Message>, symbols: seq<string>) {
    && Project(messages, TRADE) == symbols
    && Project(messages, TICKER) == (if settings.bestFromTicker then symbols else [])
    && Project(messages, OBU_1) == (if settings.bestFromTicker then [] else symbols)
    && Project(messages, OBU_INCREMENT) == (if settings.fullDepth then symbols else [])
  }

  lemma SessionChannels(settings: Settings, symbols: seq<string>, s: Stream)
    requires SessionOk(settings, symbols, s)
    ensures PerChannel(settings, s.session, symbols)
  {
    ChannelsIn(settings);
  }

  /** Which channels a ready stream has subscribed since its welcome. */
  lemma ChannelsExact(settings: Settings, g: Gateway, i: nat)
    requires settings.maxPerStream > 0 && Reachable(settings, g) && i < |g.streams| && g.streams[i].status == READY
    ensures PerChannel(settings, g.streams[i].session, Slice(g.symbols, i, settings.maxPerStream, 0))
  {
    Holds(settings, g);
    SessionChannels(settings, Slice(g.symbols, i, settings.maxPerStream, 0), g.streams[i]);
  }

  lemma SliceDistinct(settings: Settings, g: Gateway, i: nat)
    requires NoDup(g.symbols)
    ensures NoDup(Slice(g.symbols, i, settings.maxPerStream, 0))
  {
  }

  lemma {:induction false} ProjectHas(messages: seq<Message>, k: nat)
    requires k < |messages|
    ensures messages[k].symbol in Project(messages, messages[k].channel)
    decreases |messages|
  {
    if k < |messages| - 1 {
      ProjectHas(messages[..|messages| - 1], k);
    }
  }

  /** The subscribe queue survives a disconnect. Once a ready stream has drained its queue,
      the messages sent in the session subscribe every symbol exactly once if and only if
      the queue was empty when the welcome arrived. */
  lemma SentExactlyOnceExact(settings: Settings, g: Gateway, i: nat)
    requires settings.maxPerStream > 0 && Reachable(settings, g)
    requires i < |g.streams| && g.streams[i].status == READY && g.streams[i].queue == []
    ensures g.streams[i].leftover == [] <==>
      forall c | c in Channels(settings) :: Project(g.streams[i].sent, c) == Slice(g.symbols, i, settings.maxPerStream, 0)
    ensures g.streams[i].leftover == [] <==>
      forall c | c in Channels(settings) :: NoDup(Project(g.streams[i].sent, c))
  {
    Holds(settings, g);
    var s, slice := g.streams[i], Slice(g.symbols, i, settings.maxPerStream, 0);
    assert s.sent == s.leftover + s.session by { assert s.sent + [] == s.sent; }
    forall c | c in Channels(settings) ensures Project(s.sent, c) == Project(s.leftover, c) + slice {
      ProjectAppend(s.leftover, s.session, c);
    }
    SliceDistinct(settings, g, i);
    if s.leftover == [] {
      forall c | c in Channels(settings) ensures Project(s.sent, c) == slice {
        assert Project(s.leftover, c) + slice == slice;
      }
    } else {
      var c, x := s.leftover[0].channel, s.leftover[0].symbol;
      ProjectHas(s.leftover, 0);
      Repeats(Project(s.leftover, c), slice, x);
      assert |Project(s.sent, c)| > |slice|;
    }
  }

  lemma Repeats(xs: seq<string>, ys: seq<string>, x: string)
    requires x in xs && x in ys
    ensures !NoDup(xs + ys)
  {
    var i :| 0 <= i < |xs| && xs[i] == x;
    var j :| 0 <= j < |ys| && ys[j] == x;
    assert (xs + ys)[i] == (xs + ys)[|xs| + j];
  }

  /** A stream that drops before its queue is drained sends each waiting subscription twice
      in the next session. */
  lemma DuplicateExample(settings: Settings)
    requires settings.maxPerStream > 0
    ensures exists g ::
      && Reachable(settings, g) && |g.streams| == 1 && g.streams[0].status == READY && g.streams[0].queue == []
      && Project(g.streams[0].sent, TRADE) == ["A", "A"]
  {
    var g1 := OneSymbol(settings);
    var g2 := Session(settings, g1);
    var g3 := Dropped(settings, g2);
    var g4 := Session(settings, g3);
    var g5 := Drained(settings, g4);
    var first, second := g2.streams[0].session, g4.streams[0].session;
    assert [] + first == first;
    assert TRADE in Channels(settings);
    ProjectAppend(first, second, TRADE);
  }

  lemma Dropped(settings: Settings, g: Gateway) returns (h: Gateway)
    requires settings.maxPerStream > 0 && Reachable(settings, g)
    requires |g.streams| == 1
    ensures h == Step(settings, g, Disconnected(0)) && Reachable(settings, h)
    ensures h.symbols == g.symbols && |h.streams| == 1 && h.streams[0].queue == g.streams[0].queue
  {
    h := Step(settings, g, Disconnected(0));
    Follow(settings, g, Disconnected(0));
  }

  lemma Drained(settings: Settings, g: Gateway) returns (h: Gateway)
    requires settings.maxPerStream > 0 && Reachable(settings, g)
    requires |g.streams| == 1 && g.streams[0].status == READY && g.streams[0].sent == []
    ensures Reachable(settings, h)
    ensures |h.streams| == 1 && h.streams[0].status == READY && h.streams[0].queue == []
    ensures h.streams[0].sent == g.streams[0].queue
  {
    var n := |g.streams[0].queue|;
    h := Step(settings, g, Timer(0, n));
    Follow(settings, g, Timer(0, n));
    var queue := g.streams[0].queue;
    assert queue[..n] == queue && [] + queue == queue;
  }

  /** A welcome on the only stream, which serves the only symbol. */
  lemma Session(settings: Settings, g: Gateway) returns (h: Gateway)
    requires settings.maxPerStream > 0 && Reachable(settings, g)
    requires g.symbols == ["A"] && |g.streams| == 1
    ensures h == Step(settings, g, Welcome(0)) && Reachable(settings, h)
    ensures h.symbols == ["A"] && |h.streams| == 1
    ensures h.streams[0].status == READY && h.streams[0].sent == [] && h.streams[0].leftover == g.streams[0].queue
    ensures h.streams[0].queue == g.streams[0].queue + h.streams[0].session
    ensures forall c | c in Channels(settings) :: Project(h.streams[0].session, c) == ["A"]
  {
    h := Step(settings, g, Welcome(0));
    Follow(settings, g, Welcome(0));
    Holds(settings, g);
    var s := g.streams[0].(welcome := true, status := READY, leftover := g.streams[0].queue, session := [], sent := []);
    var slice := Slice(["A"], 0, settings.maxPerStream, 0);
    assert slice == ["A"];
    var added := AllMessages(s.requestId, Channels(settings), slice);
    PushChannelsExtends(s, Channels(settings), slice);
    assert h.streams[0] == Extended(s, added);
    assert [] + added == added;
    forall c | c in Channels(settings) ensures Project(added, c) == ["A"] {
      ProjectAll(s.requestId, Channels(settings), slice, c);
    }
  }

  /** The first subscription creates the first stream. */
  lemma OneSymbol(settings: Settings) returns (g: Gateway)
    requires settings.maxPerStream > 0
    ensures g == Step(settings, START, Subscribe(["A"])) && Reachable(settings, g)
    ensures g.symbols == ["A"] && |g.streams| == 1 && g.streams[0] == NewStream(1, 1, 0)
  {
    g := Step(settings, START, Subscribe(["A"]));
    Run1(settings, START, Subscribe(["A"]));
    assert New({}, ["A"]) == ["A"] by { assert ["A"][..0] == []; }
    assert [] + ["A"] == ["A"];
    var g1 := START.(all := {} + (set item | item in ["A"]), symbols := ["A"]);
    SlicesOne(settings.maxPerStream);
    FirstStream(g1);
    assert g == SubscribeAll(settings, EnsureSlices(g1, 1), 0);
  }

  lemma FirstStream(g: Gateway)
    requires g.streams == [] && g.handedOut == [] && g.streamId == 0
    ensures EnsureSlices(g, 1).streams == [NewStream(1, 1, 0)] && EnsureSlices(g, 1).symbols == g.symbols
  {
  }

  lemma SlicesOne(m: nat)
    requires m > 0
    ensures Slices(1, m) == 1
  {
  }

  lemma Run1(settings: Settings, g: Gateway, e: Event)
    requires settings.maxPerStream > 0
    ensures Run(settings, g, [e]) == Step(settings, g, e)
  {
  }

  lemma Follow(settings: Settings, g: Gateway, e: Event)
    requires settings.maxPerStream > 0 && Reachable(settings, g)
    ensures Reachable(settings, Step(settings, g, e))
  {
    var events :| Run(settings, START, events) == g;
    Reach(settings, events, e);
  }

  lemma {:induction false} Reach(settings: Settings, events: seq<Event>, e: Event)
    requires settings.maxPerStream > 0
    ensures Run(settings, START, events + [e]) == Step(settings, Run(settings, START, events), e)
  {
    RunSnoc(settings, START, events, e);
  }

  lemma {:induction false} RunSnoc(settings: Settings, g: Gateway, events: seq<Event>, e: Event)
    requires settings.maxPerStream > 0
    ensures Run(settings, g, events + [e]) == Step(settings, Run(settings, g, events), e)
    decreases |events|
  {
    if events == [] {
      assert Run(settings, g, [e]) == Run(settings, Step(settings, g, e), [e][1..]);
      assert [] + [e] == [e];
    } else {
      assert (events + [e])[0] == events[0] && (events + [e])[1..] == events[1..] + [e];
      RunSnoc(settings, Step(settings, g, events[0]), events[1..], e);
    }
  }

  // ---- slicing

  /** The shared list repeats no symbol, agrees with the set of all symbols, is the
      concatenation of the slices of the existing streams, and the number of streams is
      the number of symbols divided by the maximum, rounded up. */
  lemma SlicesPartition(settings: Settings, g: Gateway)
    requires settings.maxPerStream > 0 && Reachable(settings, g)
    ensures NoDup(g.symbols) && g.all == set x | x in g.symbols
    ensures Concat(g.symbols, settings.maxPerStream, |g.streams|) == g.symbols
    ensures |g.symbols| <= |g.streams| * settings.maxPerStream < |g.symbols| + settings.maxPerStream
    ensures forall i | 0 <= i < |g.streams| :: g.streams[i].index == i
    ensures forall i: nat | i < |g.streams| ::
      0 < |Slice(g.symbols, i, settings.maxPerStream, 0)| <= settings.maxPerStream
  {
    Holds(settings, g);
    var m, n := settings.maxPerStream, |g.symbols|;
    SlicesCover(n, m);
    Partition(g.symbols, m, |g.streams|);
    forall i: nat | i < |g.streams| ensures 0 < |Slice(g.symbols, i, m, 0)| <= m {
      SliceSize(g.symbols, i, m, |g.streams|);
    }
  }

  lemma Partition(symbols: seq<string>, m: nat, slices: nat)
    requires |symbols| <= slices * m
    ensures Concat(symbols, m, slices) == symbols
  {
    ConcatPrefix(symbols, m, slices);
    assert symbols[..|symbols|] == symbols;
  }

  lemma SliceSize(symbols: seq<string>, i: nat, m: nat, slices: nat)
    requires m > 0 && i < slices && slices * m < |symbols| + m
    ensures 0 < |Slice(symbols, i, m, 0)| <= m
  {
    MulMonotone(i + 1, slices, m);
    assert (i + 1) * m == i * m + m;
    SegmentSize(symbols, i * m, m);
  }

  lemma SegmentSize(symbols: seq<string>, first: nat, m: nat)
    requires first < |symbols| && m > 0
    ensures 0 < |Segment(symbols, first, m, 0)| <= m
  {
  }

  /** A client asks for the symbol, or a download has an instrument with it that is not
      discarded. */
  ghost predicate Names(e: Event, x: string) {
    match e
    case Subscribe(items) => x in items
    case Instruments(list) => Offers(list, x)
    case _ => false
  }

  lemma StepNames(settings: Settings, g: Gateway, e: Event, x: string)
    requires settings.maxPerStream > 0 && Inv(settings, g)
    ensures x in Step(settings, g, e).all <==> x in g.all || Names(e, x)
  {
    match e {
      case Subscribe(items) => UpdateKeeps(settings, g.(all := g.all + set item | item in items), New(g.all, items));
      case Instruments(list) =>
        KeptExact(list);
        UpdateKeeps(settings, g.(all := g.all + set item | item in Kept(list)), New(g.all, Kept(list)));
      case _ =>
    }
  }

  /** However the two sources interleave, the list holds exactly the symbols they named, each
      once. */
  lemma {:induction false} ListIsSeen(settings: Settings, events: seq<Event>, x: string)
    requires settings.maxPerStream > 0
    ensures var g := Run(settings, START, events);
      && (x in g.symbols <==> exists k :: 0 <= k < |events| && Names(events[k], x))
      && (x in g.all <==> x in g.symbols) && NoDup(g.symbols)
    decreases |events|
  {
    if events != [] {
      var n := |events| - 1;
      var before := Run(settings, START, events[..n]);
      ListIsSeen(settings, events[..n], x);
      assert events[..n] + [events[n]] == events;
      Reach(settings, events[..n], events[n]);
      Holds(settings, before);
      StepNames(settings, before, events[n], x);
      Holds(settings, Run(settings, START, events));
      NamedNext(events, x);
    }
  }

  lemma NamedNext(events: seq<Event>, x: string)
    requires events != []
    ensures var n := |events| - 1;
      (exists k :: 0 <= k < |events| && Names(events[k], x)) <==>
        (exists k :: 0 <= k < n && Names(events[..n][k], x)) || Names(events[n], x)
  {
    var n := |events| - 1;
    if k :| 0 <= k < n && Names(events[..n][k], x) {
      assert Names(events[k], x);
    }
    if k :| 0 <= k < |events| && Names(events[k], x) && k < n {
      assert Names(events[..n][k], x);
    }
  }

  // ---- the order of the list

  /** The `p`th thing the event speaks of is this symbol. */
  predicate NamesAt(e: Event, p: nat, x: string) {
    match e
    case Subscribe(items) => p < |items| && items[p] == x
    case Instruments(list) => p < |list| && list[p].symbol == x && !list[p].discard
    case _ => false
  }

  /** The event speaks of `x` before it speaks of `y`. */
  ghost predicate NamesFirst(e: Event, x: string, y: string) {
    exists p: nat :: NamesAt(e, p, x) && forall q: nat | q <= p :: !NamesAt(e, q, y)
  }

  lemma {:induction false} NewOrder(all: set<string>, items: seq<string>, i: nat, j: nat) returns (p: nat)
    requires i < j < |New(all, items)|
    ensures p < |items| && items[p] == New(all, items)[i] && New(all, items)[j] !in items[..p + 1]
    decreases |items|
  {
    var n := |items| - 1;
    var head := items[..n];
    NewDistinct(all, head);
    if j < |New(all, head)| {
      p := NewOrder(all, head, i, j);
      assert items[..p + 1] == head[..p + 1];
    } else {
      assert New(all, head)[i] in New(all, head);
      p :| 0 <= p < n && head[p] == New(all, head)[i];
      assert forall q | 0 <= q <= p :: items[q] == head[q];
    }
  }

  /** What was kept first stands first in the download. */
  lemma {:induction false} KeptPrefix(list: seq<Instrument>, p: nat) returns (q: nat)
    requires p < |Kept(list)|
    ensures q < |list| && !list[q].discard && list[q].symbol == Kept(list)[p] && Kept(list[..q + 1]) == Kept(list)[..p + 1]
    decreases |list|
  {
    var n := |list| - 1;
    var head := list[..n];
    if p < |Kept(head)| {
      q := KeptPrefix(head, p);
      assert list[..q + 1] == head[..q + 1];
    } else {
      q := n;
      assert list[..n + 1] == list && Kept(list)[..p + 1] == Kept(list);
    }
  }

  lemma KeptOrder(all: set<string>, list: seq<Instrument>, i: nat, j: nat)
    requires i < j < |New(all, Kept(list))|
    ensures NamesFirst(Instruments(list), New(all, Kept(list))[i], New(all, Kept(list))[j])
  {
    var y := New(all, Kept(list))[j];
    var p := NewOrder(all, Kept(list), i, j);
    var q := KeptPrefix(list, p);
    KeptExact(list[..q + 1]);
    forall r: nat | r <= q ensures !NamesAt(Instruments(list), r, y) {
      assert list[..q + 1][r] == list[r];
    }
    assert NamesAt(Instruments(list), q, New(all, Kept(list))[i]);
  }

  lemma ItemsOrder(all: set<string>, items: seq<string>, i: nat, j: nat)
    requires i < j < |New(all, items)|
    ensures NamesFirst(Subscribe(items), New(all, items)[i], New(all, items)[j])
  {
    var p := NewOrder(all, items, i, j);
    assert forall q: nat | q <= p :: items[..p + 1][q] == items[q];
    assert NamesAt(Subscribe(items), p, New(all, items)[i]);
  }

  /** The list only grows at its end, and there by the symbols of the event that it did not
      have, in the order in which the event names them first. */
  ghost predicate Appends(g: Gateway, e: Event, h: Gateway) {
    && |g.symbols| <= |h.symbols| && h.symbols[..|g.symbols|] == g.symbols
    && (forall x :: x in h.symbols[|g.symbols|..] <==> x !in g.symbols && Names(e, x))
    && (forall i, j | |g.symbols| <= i < j < |h.symbols| :: NamesFirst(e, h.symbols[i], h.symbols[j]))
  }

  lemma Appended(g: Gateway, e: Event, news: seq<string>, h: Gateway)
    requires ListOk(g) && h.symbols == g.symbols + news
    requires forall x :: x in news <==> Names(e, x) && x !in g.all
    requires forall i, j | 0 <= i < j < |news| :: NamesFirst(e, news[i], news[j])
    ensures Appends(g, e, h)
  {
    var n := |g.symbols|;
    assert h.symbols[n..] == news;
    forall i, j | n <= i < j < n + |news| ensures NamesFirst(e, h.symbols[i], h.symbols[j]) {
      assert h.symbols[i] == news[i - n] && h.symbols[j] == news[j - n];
    }
  }

  lemma ItemsAppend(g: Gateway, items: seq<string>, h: Gateway)
    requires ListOk(g) && h.symbols == g.symbols + New(g.all, items)
    ensures Appends(g, Subscribe(items), h)
  {
    var news := New(g.all, items);
    NewDistinct(g.all, items);
    forall i, j | 0 <= i < j < |news| ensures NamesFirst(Subscribe(items), news[i], news[j]) {
      ItemsOrder(g.all, items, i, j);
    }
    Appended(g, Subscribe(items), news, h);
  }

  lemma KeptAppend(g: Gateway, list: seq<Instrument>, h: Gateway)
    requires ListOk(g) && h.symbols == g.symbols + New(g.all, Kept(list))
    ensures Appends(g, Instruments(list), h)
  {
    var news := New(g.all, Kept(list));
    NewDistinct(g.all, Kept(list));
    KeptExact(list);
    forall i, j | 0 <= i < j < |news| ensures NamesFirst(Instruments(list), news[i], news[j]) {
      KeptOrder(g.all, list, i, j);
    }
    Appended(g, Instruments(list), news, h);
  }

  lemma InstrumentsList(settings: Settings, g: Gateway, list: seq<Instrument>)
    requires settings.maxPerStream > 0 && Inv(settings, g)
    ensures Step(settings, g, Instruments(list)).symbols == g.symbols + New(g.all, Kept(list))
  {
    var news := New(g.all, Kept(list));
    UpdateKeeps(settings, g.(all := g.all + set item | item in Kept(list)), news);
    assert news == [] ==> g.symbols + news == g.symbols;
  }

  lemma StepAppends(settings: Settings, g: Gateway, e: Event)
    requires settings.maxPerStream > 0 && Reachable(settings, g)
    ensures Appends(g, e, Step(settings, g, e))
  {
    Holds(settings, g);
    match e {
      case Subscribe(items) =>
        UpdateKeeps(settings, g.(all := g.all + set item | item in items), New(g.all, items));
        ItemsAppend(g, items, Step(settings, g, e));
      case Instruments(list) =>
        InstrumentsList(settings, g, list);
        KeptAppend(g, list, Step(settings, g, e));
      case _ =>
    }
  }

  // ---- ids

  lemma {:induction false} EnsureSlicesIds(g: Gateway, size: nat)
    ensures var h := EnsureSlices(g, size); |h.handedOut| - |h.streams| == |g.handedOut| - |g.streams|
    decreases size - |g.streams|
  {
    if |g.streams| < size {
      EnsureSlicesIds(AddStream(g), size);
    }
  }

  lemma UpdateIds(settings: Settings, g: Gateway, news: seq<string>)
    requires settings.maxPerStream > 0
    ensures var h := SymbolsUpdate(settings, g, news); |h.handedOut| - |h.streams| == |g.handedOut| - |g.streams|
  {
    var g1 := g.(symbols := g.symbols + news);
    EnsureSlicesIds(g1, Slices(|g1.symbols|, settings.maxPerStream));
  }

  lemma StepIds(settings: Settings, g: Gateway, e: Event)
    requires settings.maxPerStream > 0
    ensures var h := Step(settings, g, e);
      |h.handedOut| - |h.streams| == |g.handedOut| - |g.streams| + if e.OtherStream? then 1 else 0
  {
    match e {
      case Subscribe(items) => UpdateIds(settings, g.(all := g.all + set item | item in items), New(g.all, items));
      case Instruments(list) => UpdateIds(settings, g.(all := g.all + set item | item in Kept(list)), New(g.all, Kept(list)));
      case _ =>
    }
  }

  lemma OthersNext(events: seq<Event>)
    requires events != []
    ensures var n := |events| - 1;
      |set i | 0 <= i < |events| && events[i].OtherStream?|
      == |set i | 0 <= i < n && events[..n][i].OtherStream?| + if events[n].OtherStream? then 1 else 0
  {
    var n := |events| - 1;
    var before, all := set i | 0 <= i < n && events[..n][i].OtherStream?, set i | 0 <= i < |events| && events[i].OtherStream?;
    assert all == before + if events[n].OtherStream? then {n} else {};
  }

  /** Every market-data stream and every other stream took one id, and nothing else did. */
  lemma {:induction false} IdsCounted(settings: Settings, events: seq<Event>)
    requires settings.maxPerStream > 0
    ensures var g := Run(settings, START, events);
      |g.handedOut| == |g.streams| + |set i | 0 <= i < |events| && events[i].OtherStream?|
    decreases |events|
  {
    if events != [] {
      var n := |events| - 1;
      IdsCounted(settings, events[..n]);
      assert events[..n] + [events[n]] == events;
      Reach(settings, events[..n], events[n]);
      StepIds(settings, Run(settings, START, events[..n]), events[n]);
      OthersNext(events);
    }
  }

  /** Stream ids are pairwise distinct exactly as long as no more than 65536 were given out. */
  lemma StreamIdsExact(settings: Settings, g: Gateway)
    requires settings.maxPerStream > 0 && Reachable(settings, g)
    ensures NoDup(g.handedOut) <==> |g.handedOut| <= 0x1_0000
    ensures forall i | 0 <= i < |g.streams| :: g.streams[i].id in g.handedOut
  {
    Holds(settings, g);
    if |g.handedOut| > 0x1_0000 {
      assert g.handedOut[0] == g.handedOut[0x1_0000];
    }
    forall i | 0 <= i < |g.streams| ensures g.streams[i].id in g.handedOut {
      assert g.handedOut[g.streams[i].ordinal - 1] == g.streams[i].id;
    }
  }

  /** While no more than 65536 stream ids were given out and no stream issued a million
      requests, no two subscription requests of any streams and sessions share an id. */
  lemma RequestIdsUnique(settings: Settings, g: Gateway, i: nat, k: nat, j: nat, l: nat)
    requires settings.maxPerStream > 0 && Reachable(settings, g)
    requires |g.handedOut| <= 0x1_0000
    requires i < |g.streams| && k < |g.streams[i].issued| && j < |g.streams| && l < |g.streams[j].issued|
    requires |g.streams[i].issued| < 1_000_000 && |g.streams[j].issued| < 1_000_000
    ensures g.streams[i].issued[k].id == g.streams[i].id * 1_000_000 + 1 + k
    ensures g.streams[i].issued[k].id == g.streams[j].issued[l].id <==> i == j && k == l
  {
    Holds(settings, g);
    var x, y := g.streams[i].id, g.streams[j].id;
    if i != j {
      assert g.streams[i].ordinal != g.streams[j].ordinal;
      assert x != y;
      Blocks(x, 1 + k, y, 1 + l);
    }
  }

  lemma Blocks(x: nat, k: nat, y: nat, l: nat)
    requires k < REQUEST_ID && l < REQUEST_ID && x != y
    ensures x * REQUEST_ID + k != y * REQUEST_ID + l
  {
  }
}
