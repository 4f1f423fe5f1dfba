/** Symbol fan-out as a step system on values: two sources feed one list of symbols, the
    list is cut into slices, one market-data stream serves each slice. */
module FanoutSpec {

  /** `maxPerStream` is ws.max_subscriptions_per_stream, a positive number. */
  datatype Settings = Settings(maxPerStream: nat, bestFromTicker: bool, fullDepth: bool)

  /** A topic together with its depth. */
  datatype Channel = TICKER | OBU_1 | TRADE | OBU_INCREMENT

  /** What one symbol is subscribed to, in this order. */
  function Channels(settings: Settings): seq<Channel> {
    [if settings.bestFromTicker then TICKER else OBU_1, TRADE]
    + if settings.fullDepth then [OBU_INCREMENT] else []
  }

  datatype Message = Message(id: nat, channel: Channel, symbol: string)

  // ---- the library class `core::Symbols` (assumed): append-only, cut into chunks

  function Slices(n: nat, m: nat): nat
    requires m > 0
  {
    (n + m - 1) / m
  }

  function Max(x: nat, y: nat): nat { if x < y then y else x }

  function Min(x: nat, y: nat): nat { if x < y then x else y }

  /** Of the `m` symbols from `first` on, those that have index `start` or higher. */
  function Segment(symbols: seq<string>, first: nat, m: nat, start: nat): seq<string> {
    var lo, hi := Max(first, start), Min(first + m, |symbols|);
    if lo <= hi then symbols[lo..hi] else []
  }

  /** The symbols of one slice that have index `start` or higher in the whole list. */
  function Slice(symbols: seq<string>, index: nat, m: nat, start: nat): seq<string> {
    Segment(symbols, index * m, m, start)
  }

  // ---- one stream (gateway/market_data.cpp)

  datatype Status = UNSET | DISCONNECTED | READY

  const REQUEST_ID: nat := 1_000_000

  /** The first field is history: how many ids had been given out with this stream's. So
      are the last four: every message ever enqueued, what the queue held at the last
      welcome, what was enqueued since, what was sent since. */
  datatype Stream = Stream(
    ordinal: nat,
    id: nat,
    index: nat,
    status: Status,
    welcome: bool,
    requestId: nat,
    queue: seq<Message>,
    issued: seq<Message>,
    leftover: seq<Message>,
    session: seq<Message>,
    sent: seq<Message>)

  function NewStream(ordinal: nat, id: nat, index: nat): Stream {
    Stream(ordinal, id, index, UNSET, false, id * REQUEST_ID, [], [], [], [], [])
  }

  function Push(s: Stream, channel: Channel, symbol: string): Stream {
    var message := Message(s.requestId + 1, channel, symbol);
    s.(requestId := s.requestId + 1, queue := s.queue + [message],
       issued := s.issued + [message], session := s.session + [message])
  }

  /** One message per symbol for one channel. */
  function PushAll(s: Stream, channel: Channel, symbols: seq<string>): Stream
    decreases |symbols|
  {
    if symbols == [] then s
    else Push(PushAll(s, channel, symbols[..|symbols| - 1]), channel, symbols[|symbols| - 1])
  }

  function PushChannels(s: Stream, channels: seq<Channel>, symbols: seq<string>): Stream
    decreases |channels|
  {
    if channels == [] then s
    else PushAll(PushChannels(s, channels[..|channels| - 1], symbols), channels[|channels| - 1], symbols)
  }

  function SubscribeFrom(settings: Settings, s: Stream, symbols: seq<string>, start: nat): Stream {
    if s.status == READY then PushChannels(s, Channels(settings), Slice(symbols, s.index, settings.maxPerStream, start)) else s
  }

  function OnWelcome(settings: Settings, s: Stream, symbols: seq<string>): Stream {
    SubscribeFrom(settings, s.(welcome := true, status := READY, leftover := s.queue, session := [], sent := []), symbols, 0)
  }

  /** The subscribe queue is not cleared. */
  function OnDisconnected(s: Stream): Stream { s.(welcome := false, status := DISCONNECTED) }

  /** The rate limiter lets the first `n` queued messages go. */
  function Flush(s: Stream, n: nat): Stream {
    if s.status == READY && n <= |s.queue| then s.(queue := s.queue[n..], sent := s.sent + s.queue[..n]) else s
  }

  // ---- the controller (gateway/controller.cpp) and the instrument download (gateway/rest.cpp)

  /** `handedOut` is history: every stream id given to a stream. */
  datatype Gateway = Gateway(
    symbols: seq<string>,
    all: set<string>,
    streamId: nat,
    streams: seq<Stream>,
    handedOut: seq<nat>)

  const START := Gateway([], {}, 0, [], [])

  /** `++stream_id_` on a 16-bit counter. */
  function Increment(streamId: nat): nat { (streamId + 1) % 0x1_0000 }

  function Allocate(g: Gateway): Gateway {
    var id := Increment(g.streamId);
    g.(streamId := id, handedOut := g.handedOut + [id])
  }

  /** The items not seen before, each once, in order of appearance. */
  function New(all: set<string>, items: seq<string>): seq<string>
    decreases |items|
  {
    if items == [] then []
    else
      var head, last := items[..|items| - 1], items[|items| - 1];
      if last in all || last in head then New(all, head) else New(all, head) + [last]
  }

  function AddStream(g: Gateway): Gateway {
    var g1 := Allocate(g);
    g1.(streams := g1.streams + [NewStream(|g1.handedOut|, g1.streamId, |g.streams|)])
  }

  function EnsureSlices(g: Gateway, size: nat): Gateway
    decreases size - |g.streams|
  {
    if |g.streams| < size then EnsureSlices(AddStream(g), size) else g
  }

  function SubscribeAll(settings: Settings, g: Gateway, start: nat): Gateway {
    g.(streams := seq(|g.streams|, i requires 0 <= i < |g.streams| => SubscribeFrom(settings, g.streams[i], g.symbols, start)))
  }

  function SymbolsUpdate(settings: Settings, g: Gateway, news: seq<string>): Gateway
    requires settings.maxPerStream > 0
  {
    var start := |g.symbols|;
    var g1 := g.(symbols := g.symbols + news);
    SubscribeAll(settings, EnsureSlices(g1, Slices(|g1.symbols|, settings.maxPerStream)), start)
  }

  /** A client subscribes: the update is made even if nothing is new. */
  function OnSubscribe(settings: Settings, g: Gateway, items: seq<string>): Gateway
    requires settings.maxPerStream > 0
  {
    var news := New(g.all, items);
    SymbolsUpdate(settings, g.(all := g.all + set item | item in items), news)
  }

  datatype Instrument = Instrument(symbol: string, discard: bool)

  function Kept(list: seq<Instrument>): seq<string>
    decreases |list|
  {
    if list == [] then []
    else Kept(list[..|list| - 1]) + if list[|list| - 1].discard then [] else [list[|list| - 1].symbol]
  }

  /** Some instrument of the download has this symbol and is not discarded. */
  ghost predicate Offers(list: seq<Instrument>, symbol: string) {
    exists i | 0 <= i < |list| :: list[i].symbol == symbol && !list[i].discard
  }

  /** The instruments are downloaded: the update is made only if something is new. */
  function OnInstruments(settings: Settings, g: Gateway, list: seq<Instrument>): Gateway
    requires settings.maxPerStream > 0
  {
    var news := New(g.all, Kept(list));
    var g1 := g.(all := g.all + set item | item in Kept(list));
    if news == [] then g1 else SymbolsUpdate(settings, g1, news)
  }

  datatype Event =
    | Subscribe(items: seq<string>)
    | Instruments(list: seq<Instrument>)
    | OtherStream  // a REST, order-entry or drop-copy stream takes an id
    | Welcome(i: nat)
    | Disconnected(i: nat)
    | Timer(i: nat, n: nat)

  function OnStream(g: Gateway, i: nat, s: Stream): Gateway
    requires i < |g.streams|
  {
    g.(streams := g.streams[i := s])
  }

  function Step(settings: Settings, g: Gateway, e: Event): Gateway
    requires settings.maxPerStream > 0
  {
    match e
    case Subscribe(items) => OnSubscribe(settings, g, items)
    case Instruments(list) => OnInstruments(settings, g, list)
    case OtherStream => Allocate(g)
    case Welcome(i) => if i < |g.streams| then OnStream(g, i, OnWelcome(settings, g.streams[i], g.symbols)) else g
    case Disconnected(i) => if i < |g.streams| then OnStream(g, i, OnDisconnected(g.streams[i])) else g
    case Timer(i, n) => if i < |g.streams| then OnStream(g, i, Flush(g.streams[i], n)) else g
  }

  function Run(settings: Settings, g: Gateway, events: seq<Event>): Gateway
    requires settings.maxPerStream > 0
    decreases |events|
  {
    if events == [] then g else Run(settings, Step(settings, g, events[0]), events[1..])
  }

  ghost predicate Reachable(settings: Settings, g: Gateway)
    requires settings.maxPerStream > 0
  {
    exists events :: Run(settings, START, events) == g
  }
}
