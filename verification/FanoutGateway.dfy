/** The fan-out as the classes it is written in, each method proved to do what its step
    function in `FanoutSpec` says. */
module FanoutGateway {
  import opened FanoutSpec
  import FanoutTheorems

  /** The shared symbols, with the library class `core::Symbols` (assumed) as its list. */
  class Shared {
    const settings: Settings
    var symbols: seq<string>
    var all: set<string>

    constructor (settings: Settings)
      ensures this.settings == settings && symbols == [] && all == {}
    {
      this.settings := settings;
      symbols := [];
      all := {};
    }

    /** Appends, and returns the number of slices and the index of the first new symbol. */
    method Add(news: seq<string>) returns (size: nat, startFrom: nat)
      requires settings.maxPerStream > 0
      modifies `symbols
      ensures symbols == old(symbols) + news
      ensures size == Slices(|symbols|, settings.maxPerStream) && startFrom == old(|symbols|)
    {
      startFrom := |symbols|;
      symbols := symbols + news;
      size := Slices(|symbols|, settings.maxPerStream);
    }

    /** `emplace`: whether the item was not there yet. */
    method Emplace(item: string) returns (inserted: bool)
      modifies `all
      ensures inserted == (item !in old(all)) && all == old(all) + {item}
    {
      inserted := item !in all;
      all := all + {item};
    }
  }

  // ---- one market-data stream

  class MarketData {
    const id: nat
    const index: nat
    const shared: Shared
    var status: Status
    var welcome: bool
    var requestId: nat
    var queue: seq<Message>
    ghost const ordinal: nat
    ghost var issued: seq<Message>
    ghost var leftover: seq<Message>
    ghost var session: seq<Message>
    ghost var sent: seq<Message>

    ghost function Abs(): Stream
      reads this
    {
      Stream(ordinal, id, index, status, welcome, requestId, queue, issued, leftover, session, sent)
    }

    constructor (id: nat, index: nat, shared: Shared, ghost ordinal: nat)
      ensures this.shared == shared && Abs() == NewStream(ordinal, id, index)
    {
      this.id, this.index, this.shared, this.ordinal := id, index, shared, ordinal;
      status, welcome, requestId, queue := UNSET, false, id * REQUEST_ID, [];
      issued, leftover, session, sent := [], [], [], [];
    }

    method SubscribeChannel(channel: Channel, symbols: seq<string>)
      modifies this
      ensures Abs() == PushAll(old(Abs()), channel, symbols)
    {
      for i := 0 to |symbols|
        invariant Abs() == PushAll(old(Abs()), channel, symbols[..i])
      {
        requestId := requestId + 1;
        var message := Message(requestId, channel, symbols[i]);
        queue := queue + [message];
        issued, session := issued + [message], session + [message];
        assert symbols[..i + 1][..i] == symbols[..i];
      }
      assert symbols[..|symbols|] == symbols;
    }

    method SubscribeSymbols(symbols: seq<string>)
      modifies this
      ensures Abs() == PushChannels(old(Abs()), Channels(shared.settings), symbols)
    {
      PushChannelsUnfolds(Abs(), shared.settings, symbols);
      if symbols == [] {
        PushChannelsNothing(Abs(), Channels(shared.settings));
        return;
      }
      if shared.settings.bestFromTicker {
        SubscribeChannel(TICKER, symbols);
      } else {
        SubscribeChannel(OBU_1, symbols);
      }
      SubscribeChannel(TRADE, symbols);
      if shared.settings.fullDepth {
        SubscribeChannel(OBU_INCREMENT, symbols);
      }
    }

    method Subscribe(startFrom: nat)
      modifies this
      ensures Abs() == SubscribeFrom(shared.settings, old(Abs()), shared.symbols, startFrom)
    {
      if status == READY {
        SubscribeSymbols(Slice(shared.symbols, index, shared.settings.maxPerStream, startFrom));
      }
    }

    method Welcome()
      modifies this
      ensures Abs() == OnWelcome(shared.settings, old(Abs()), shared.symbols)
    {
      welcome := true;
      status := READY;
      leftover, session, sent := queue, [], [];
      Subscribe(0);
    }

    method Disconnected()
      modifies this
      ensures Abs() == OnDisconnected(old(Abs()))
      ensures status == DISCONNECTED && !welcome && queue == old(queue)
    {
      status := DISCONNECTED;
      welcome := false;
    }

    /** One tick, on which the rate limiter grants `n` messages. */
    method Timer(n: nat) returns (messages: seq<Message>)
      modifies this
      ensures Abs() == Flush(old(Abs()), n)
      ensures old(queue) == messages + queue && sent == old(sent) + messages
      ensures messages == if status == READY && n <= old(|queue|) then old(queue)[..n] else []
    {
      messages := [];
      if status == READY && n <= |queue| {
        messages := queue[..n];
        queue := queue[n..];
        sent := sent + messages;
      }
    }
  }

  lemma {:induction false} PushChannelsNothing(s: Stream, channels: seq<Channel>)
    ensures PushChannels(s, channels, []) == s
    decreases |channels|
  {
    if channels != [] {
      PushChannelsNothing(s, channels[..|channels| - 1]);
    }
  }

  lemma PushChannelsUnfolds(s: Stream, settings: Settings, symbols: seq<string>)
    ensures var first := PushAll(s, if settings.bestFromTicker then TICKER else OBU_1, symbols);
      var second := PushAll(first, TRADE, symbols);
      PushChannels(s, Channels(settings), symbols)
      == if settings.fullDepth then PushAll(second, OBU_INCREMENT, symbols) else second
  {
    var best := if settings.bestFromTicker then TICKER else OBU_1;
    assert [best][..0] == [] && [best, TRADE][..1] == [best] && [best, TRADE, OBU_INCREMENT][..2] == [best, TRADE];
    assert PushChannels(s, [best], symbols) == PushAll(s, best, symbols);
    assert PushChannels(s, [best, TRADE], symbols) == PushAll(PushAll(s, best, symbols), TRADE, symbols);
    if settings.fullDepth {
      assert Channels(settings) == [best, TRADE, OBU_INCREMENT];
    } else {
      assert Channels(settings) == [best, TRADE];
    }
  }

  // ---- the controller

  class Controller {
    const shared: Shared
    var streamId: nat
    var marketData: seq<MarketData>
    ghost var handedOut: seq<nat>

    /** The objects stand for the value `g`. */
    ghost predicate Models(g: Gateway)
      reads this, shared, marketData
    {
      && shared.settings.maxPerStream > 0
      && shared.symbols == g.symbols && shared.all == g.all
      && streamId == g.streamId && handedOut == g.handedOut
      && Streams(g.streams)
    }

    ghost predicate Streams(streams: seq<Stream>)
      reads this, marketData
    {
      && |marketData| == |streams|
      && (forall i | 0 <= i < |marketData| :: marketData[i].shared == shared && marketData[i].Abs() == streams[i])
      && (forall i, j | 0 <= i < j < |marketData| :: marketData[i] != marketData[j])
    }

    constructor (settings: Settings)
      requires settings.maxPerStream > 0
      ensures Models(START) && fresh(shared) && marketData == []
    {
      shared := new Shared(settings);
      streamId, marketData, handedOut := 0, [], [];
    }

    method NextStreamId() returns (id: nat)
      modifies `streamId, `handedOut
      ensures id == streamId == Increment(old(streamId)) && handedOut == old(handedOut) + [id]
    {
      streamId := (streamId + 1) % 0x1_0000;
      id := streamId;
      handedOut := handedOut + [id];
    }

    method AddMarketData(ghost g: Gateway)
      requires Models(g)
      modifies this
      ensures Models(AddStream(g))
      ensures |marketData| == old(|marketData|) + 1 && marketData[..old(|marketData|)] == old(marketData)
      ensures fresh(marketData[old(|marketData|)])
    {
      var id := NextStreamId();
      var stream := new MarketData(id, |marketData|, shared, |handedOut|);
      marketData := marketData + [stream];
    }

    method EnsureSymbolSlices(size: nat, ghost g: Gateway)
      requires Models(g)
      modifies this
      ensures Models(EnsureSlices(g, size))
      ensures fresh(set s | s in marketData && s !in old(marketData))
    {
      ghost var h := g;
      while |marketData| < size
        invariant Models(h) && EnsureSlices(h, size) == EnsureSlices(g, size)
        invariant fresh(set s | s in marketData && s !in old(marketData))
        decreases size - |marketData|
      {
        ghost var before := marketData;
        AddMarketData(h);
        h := AddStream(h);
        assert marketData == before + [marketData[|before|]];
      }
    }

    method SubscribeStreams(startFrom: nat, ghost g: Gateway)
      requires Models(g)
      modifies marketData
      ensures Models(SubscribeAll(shared.settings, g, startFrom))
    {
      for i := 0 to |marketData|
        invariant forall k | 0 <= k < |marketData| ::
          marketData[k].Abs() == (if k < i then SubscribeFrom(shared.settings, g.streams[k], g.symbols, startFrom) else g.streams[k])
      {
        marketData[i].Subscribe(startFrom);
      }
    }

    method SymbolsUpdate(news: seq<string>, ghost g: Gateway)
      requires Models(g)
      modifies this, shared`symbols, marketData
      ensures Models(FanoutSpec.SymbolsUpdate(shared.settings, g, news))
      ensures fresh(set s | s in marketData && s !in old(marketData))
    {
      var size, startFrom := shared.Add(news);
      ghost var g1 := g.(symbols := g.symbols + news);
      EnsureSymbolSlices(size, g1);
      SubscribeStreams(startFrom, EnsureSlices(g1, size));
    }

    /** Both sources: the items that are new, each once. */
    method Collect(items: seq<string>) returns (news: seq<string>)
      modifies shared`all
      ensures news == New(old(shared.all), items)
      ensures shared.all == old(shared.all) + set item | item in items
    {
      news := [];
      for i := 0 to |items|
        invariant news == New(old(shared.all), items[..i])
        invariant shared.all == old(shared.all) + set item | item in items[..i]
      {
        assert items[..i + 1][..i] == items[..i];
        assert items[..i + 1] == items[..i] + [items[i]];
        var inserted := shared.Emplace(items[i]);
        if inserted {
          news := news + [items[i]];
        }
      }
      assert items[..|items|] == items;
    }

    method OnSubscribe(items: seq<string>, ghost g: Gateway)
      requires Models(g)
      modifies this, shared`all, shared`symbols, marketData
      ensures Models(FanoutSpec.OnSubscribe(shared.settings, g, items))
      ensures fresh(set s | s in marketData && s !in old(marketData))
    {
      var news := Collect(items);
      SymbolsUpdate(news, g.(all := g.all + set item | item in items));
    }

    /** The loop over the downloaded instruments: it collects the symbols that are offered and
        not there yet, and counts the instruments that are not discarded. */
    method CollectKept(list: seq<Instrument>) returns (news: seq<string>, counter: nat)
      modifies shared`all
      ensures news == New(old(shared.all), Kept(list))
      ensures shared.all == old(shared.all) + set item | item in Kept(list)
      ensures forall x :: x in news <==> x !in old(shared.all) && Offers(list, x)
      ensures forall x :: x in shared.all <==> x in old(shared.all) || Offers(list, x)
      ensures counter == |set i | 0 <= i < |list| && !list[i].discard|
    {
      news, counter := [], 0;
      for i := 0 to |list|
        invariant news == New(old(shared.all), Kept(list[..i])) && counter == |Kept(list[..i])|
        invariant shared.all == old(shared.all) + set item | item in Kept(list[..i])
      {
        assert list[..i + 1][..i] == list[..i];
        var symbol, kept := list[i].symbol, Kept(list[..i]);
        if list[i].discard {
          assert Kept(list[..i + 1]) == kept;
          continue;
        }
        assert Kept(list[..i + 1]) == kept + [symbol] && (kept + [symbol])[..|kept|] == kept;
        var inserted := shared.Emplace(symbol);
        if inserted {
          news := news + [symbol];
        }
        counter := counter + 1;
      }
      assert list[..|list|] == list;
      FanoutTheorems.KeptExact(list);
      FanoutTheorems.KeptCount(list);
      FanoutTheorems.NewDistinct(old(shared.all), Kept(list));
    }

    method OnInstruments(list: seq<Instrument>, ghost g: Gateway)
      requires Models(g)
      modifies this, shared`all, shared`symbols, marketData
      ensures Models(FanoutSpec.OnInstruments(shared.settings, g, list))
      ensures fresh(set s | s in marketData && s !in old(marketData))
    {
      var news, counter := CollectKept(list);
      if news != [] {
        SymbolsUpdate(news, g.(all := g.all + set item | item in Kept(list)));
      }
    }

    /** A stream event reaches one object and leaves the others alone. */
    method WelcomeAt(i: nat, ghost g: Gateway)
      requires Models(g) && i < |marketData|
      modifies marketData
      ensures Models(Step(shared.settings, g, Event.Welcome(i)))
    {
      marketData[i].Welcome();
    }

    method DisconnectedAt(i: nat, ghost g: Gateway)
      requires Models(g) && i < |marketData|
      modifies marketData
      ensures Models(Step(shared.settings, g, Event.Disconnected(i)))
    {
      marketData[i].Disconnected();
    }

    method TimerAt(i: nat, n: nat, ghost g: Gateway)
      requires Models(g) && i < |marketData|
      modifies marketData
      ensures Models(Step(shared.settings, g, Event.Timer(i, n)))
    {
      var messages := marketData[i].Timer(n);
    }

    /** A stream of another kind takes an id. */
    method OtherStream(ghost g: Gateway)
      requires Models(g)
      modifies `streamId, `handedOut
      ensures Models(Allocate(g))
    {
      var id := NextStreamId();
    }

    /** One event, of either source or of one stream. */
    method Handle(e: Event, ghost g: Gateway)
      requires Models(g)
      modifies this, shared`all, shared`symbols, marketData
      ensures Models(Step(shared.settings, g, e))
      ensures fresh(set s | s in marketData && s !in old(marketData))
    {
      match e {
        case Subscribe(items) => OnSubscribe(items, g);
        case Instruments(list) => OnInstruments(list, g);
        case OtherStream => OtherStream(g);
        case Welcome(_) => OnStreamEvent(e, g);
        case Disconnected(_) => OnStreamEvent(e, g);
        case Timer(_, _) => OnStreamEvent(e, g);
      }
    }

    /** An event of a stream that does not exist is none. */
    method OnStreamEvent(e: Event, ghost g: Gateway)
      requires Models(g) && (e.Welcome? || e.Disconnected? || e.Timer?)
      modifies marketData
      ensures Models(Step(shared.settings, g, e))
    {
      if e.i < |marketData| {
        match e {
          case Welcome(i) => WelcomeAt(i, g);
          case Disconnected(i) => DisconnectedAt(i, g);
          case Timer(i, n) => TimerAt(i, n, g);
        }
      }
    }

    /** A whole run. */
    method HandleAll(events: seq<Event>, ghost g: Gateway)
      requires Models(g)
      modifies this, shared`all, shared`symbols, marketData
      ensures Models(Run(shared.settings, g, events))
      ensures fresh(set s | s in marketData && s !in old(marketData))
    {
      ghost var h := g;
      for i := 0 to |events|
        invariant Models(h) && Run(shared.settings, h, events[i..]) == Run(shared.settings, g, events)
        invariant fresh(set s | s in marketData && s !in old(marketData))
      {
        assert events[i..][0] == events[i] && events[i..][1..] == events[i + 1..];
        Handle(events[i], h);
        h := Step(shared.settings, h, events[i]);
      }
    }
  }
}
