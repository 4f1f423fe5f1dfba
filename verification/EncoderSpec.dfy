/** What the encoder's texts stand for: the members of each request, and readers that
    recover the request from a text. */
module EncoderSpec {
  import opened Wrappers
  import opened FixedPoint
  import opened Json

  // ---- requests

  datatype Side = UNDEFINED | BUY | SELL

  datatype OrderType = UNDEFINED | MARKET | LIMIT

  datatype TimeInForce =
    | UNDEFINED | GFD | GTC | OPG | IOC | FOK | GTX | GTD | AT_THE_CLOSE | GOOD_THROUGH_CROSSING
    | AT_CROSSING | GOOD_FOR_TIME | GFA | GFM

  /** `postOnly` is PARTICIPATE_DO_NOT_INITIATE, `reduceOnly` is DO_NOT_INCREASE. */
  datatype CreateOrder = CreateOrder(
    symbol: string,
    side: Side,
    orderType: OrderType,
    timeInForce: TimeInForce,
    postOnly: bool,
    reduceOnly: bool,
    quantity: Decimal,
    price: Decimal)

  datatype Order = Order(clientOrderId: string, externalOrderId: string, symbol: string)

  // ---- the tables (protocol/json/map.cpp); `unset` is the raw text of a wire value that
  //      is not set, which the generated code decides

  function SideText(side: Side, unset: string): string {
    match side
    case UNDEFINED => unset
    case BUY => "BUY"
    case SELL => "SELL"
  }

  function OrderTypeText(orderType: OrderType, unset: string): string {
    match orderType
    case UNDEFINED => unset
    case MARKET => "MARKET"
    case LIMIT => "LIMIT"
  }

  function TimeInForceText(timeInForce: TimeInForce, unset: string): string {
    match timeInForce
    case GTC => "GTC"
    case IOC => "IOC"
    case FOK => "FOK"
    case _ => unset
  }

  // ---- members

  function TextMember(key: string, text: string): Member { Member(key, Text(text)) }

  function HeadMembers(unset: string, id: string, o: CreateOrder): seq<Member> {
    [TextMember("tradeType", "FUTURES"), TextMember("clientOid", id), TextMember("symbol", o.symbol),
     TextMember("side", SideText(o.side, unset)), TextMember("orderType", OrderTypeText(o.orderType, unset))]
  }

  function PostOnlyMembers(o: CreateOrder): seq<Member> {
    if o.postOnly then [Member("postOnly", Flag(true))] else []
  }

  function MarketMembers(o: CreateOrder): seq<Member> {
    [Member("reduceOnly", Flag(o.reduceOnly)), TextMember("size", PrintDecimal(o.quantity)), TextMember("sizeUnit", "UNIT")]
  }

  function LimitMembers(unset: string, o: CreateOrder): seq<Member> {
    [TextMember("timeInForce", TimeInForceText(o.timeInForce, unset)), Member("reduceOnly", Flag(o.reduceOnly)),
     TextMember("size", PrintDecimal(o.quantity)), TextMember("price", PrintDecimal(o.price)), TextMember("sizeUnit", "UNIT")]
  }

  function OrderMembers(unset: string, id: string, o: CreateOrder): seq<Member>
    requires o.orderType != OrderType.UNDEFINED
  {
    HeadMembers(unset, id, o) + PostOnlyMembers(o) + if o.orderType == MARKET then MarketMembers(o) else LimitMembers(unset, o)
  }

  function CancelMembers(order: Order): seq<Member> {
    [TextMember("tradeType", "FUTURES"),
     if order.externalOrderId == "" then TextMember("clientOid", order.clientOrderId) else TextMember("orderId", order.externalOrderId),
     TextMember("symbol", order.symbol)]
  }

  function CancelAllMembers(symbol: string): seq<Member> {
    [TextMember("tradeType", "FUTURES"), TextMember("symbol", symbol)]
  }

  function WsMembers(id: string, op: string, args: seq<Member>): seq<Member> {
    [TextMember("id", id), TextMember("op", op), Member("args", Object(args))]
  }

  // ---- reading a request back

  function TextOf(ms: seq<Member>, key: string): Option<string> {
    match Field(ms, key)
    case Some(Text(t)) => Some(t)
    case _ => None
  }

  function DecimalOf(ms: seq<Member>, key: string): Option<Decimal> {
    match TextOf(ms, key)
    case Some(t) => ReadDecimal(t)
    case None => None
  }

  function FlagOf(ms: seq<Member>, key: string): Option<bool> {
    match Field(ms, key)
    case Some(Flag(b)) => Some(b)
    case _ => None
  }

  function SideOf(text: Option<string>): Option<Side> {
    if text == Some("BUY") then Some(BUY) else if text == Some("SELL") then Some(SELL) else None
  }

  function OrderTypeOf(text: Option<string>): Option<OrderType> {
    if text == Some("MARKET") then Some(MARKET) else if text == Some("LIMIT") then Some(LIMIT) else None
  }

  function TimeInForceOf(text: Option<string>): Option<TimeInForce> {
    if text == Some("GTC") then Some(GTC) else if text == Some("IOC") then Some(IOC) else if text == Some("FOK") then Some(FOK)
    else None
  }

  /** What a reader learns: time in force and price only for a limit order. */
  datatype Reading = Reading(
    id: string,
    symbol: string,
    side: Side,
    postOnly: bool,
    reduceOnly: bool,
    size: Decimal,
    limit: Option<Limit>)

  datatype Limit = Limit(timeInForce: TimeInForce, price: Decimal)

  function LimitOf(ms: seq<Member>): Option<Limit> {
    match (TimeInForceOf(TextOf(ms, "timeInForce")), DecimalOf(ms, "price"))
    case (Some(timeInForce), Some(price)) => Some(Limit(timeInForce, price))
    case _ => None
  }

  function OrderOf(ms: seq<Member>): Option<Reading> {
    var id, symbol := TextOf(ms, "clientOid"), TextOf(ms, "symbol");
    var side, orderType := SideOf(TextOf(ms, "side")), OrderTypeOf(TextOf(ms, "orderType"));
    var reduceOnly, size, limit := FlagOf(ms, "reduceOnly"), DecimalOf(ms, "size"), LimitOf(ms);
    if TextOf(ms, "tradeType") != Some("FUTURES") || TextOf(ms, "sizeUnit") != Some("UNIT")
       || id == None || symbol == None || side == None || orderType == None || reduceOnly == None || size == None
       || (orderType == Some(LIMIT) && limit == None)
    then None
    else Some(Reading(id.value, symbol.value, side.value, FlagOf(ms, "postOnly") == Some(true), reduceOnly.value, size.value,
                      if orderType == Some(LIMIT) then limit else None))
  }

  function ReadOrder(text: string): Option<Reading> {
    match Read(text)
    case Some(Object(ms)) => if DistinctKeys(ms) then OrderOf(ms) else None
    case _ => None
  }

  /** What there is to learn from an order. */
  function Content(id: string, o: CreateOrder): Reading {
    Reading(id, o.symbol, o.side, o.postOnly, o.reduceOnly, o.quantity,
            if o.orderType == LIMIT then Some(Limit(o.timeInForce, o.price)) else None)
  }

  /** What a reader learns from a cancel; without an id it is for all orders of the symbol. */
  datatype CancelReading = CancelReading(clientOid: Option<string>, orderId: Option<string>, symbol: string)

  function CancelOf(ms: seq<Member>): Option<CancelReading> {
    match TextOf(ms, "symbol")
    case Some(symbol) =>
      if TextOf(ms, "tradeType") != Some("FUTURES") then None
      else Some(CancelReading(TextOf(ms, "clientOid"), TextOf(ms, "orderId"), symbol))
    case None => None
  }

  function ReadCancel(text: string): Option<CancelReading> {
    match Read(text)
    case Some(Object(ms)) => if DistinctKeys(ms) then CancelOf(ms) else None
    case _ => None
  }

  /** What there is to learn from the cancel of an order: one of its two ids and the symbol. */
  function CancelContent(order: Order): CancelReading {
    if order.externalOrderId == "" then CancelReading(Some(order.clientOrderId), None, order.symbol)
    else CancelReading(None, Some(order.externalOrderId), order.symbol)
  }

  /** What a reader learns from a websocket message. */
  datatype WsReading = WsReading(id: string, op: string, args: seq<Member>)

  function WsOf(ms: seq<Member>): Option<WsReading> {
    match (TextOf(ms, "id"), TextOf(ms, "op"), Field(ms, "args"))
    case (Some(id), Some(op), Some(Object(args))) => Some(WsReading(id, op, args))
    case _ => None
  }

  function ReadWs(text: string): Option<WsReading> {
    match Read(text)
    case Some(Object(ms)) => if DistinctKeys(ms) then WsOf(ms) else None
    case _ => None
  }

  /** The exchange's values exist for the order's. */
  predicate Supported(o: CreateOrder) {
    && o.orderType != OrderType.UNDEFINED && o.side != Side.UNDEFINED
    && (o.orderType == LIMIT ==> o.timeInForce in [GTC, IOC, FOK])
  }

  /** The raw text of an unset wire value needs no escape and is not that of a set one. */
  predicate UnsetOk(unset: string) {
    PlainText(unset) && unset !in ["BUY", "SELL", "GTC", "IOC", "FOK"]
  }

  // ---- the names of members, ranked by their place in a request

  function Rank(key: string): nat {
    if key == "tradeType" then 0
    else if key == "clientOid" then 1
    else if key == "orderId" then 2
    else if key == "symbol" then 3
    else if key == "side" then 4
    else if key == "orderType" then 5
    else if key == "postOnly" then 6
    else if key == "timeInForce" then 7
    else if key == "reduceOnly" then 8
    else if key == "size" then 9
    else if key == "price" then 10
    else if key == "sizeUnit" then 11
    else if key == "id" then 12
    else if key == "op" then 13
    else 14
  }

  lemma RanksOfIds()
    ensures Rank("tradeType") == 0 && Rank("clientOid") == 1 && Rank("orderId") == 2 && Rank("symbol") == 3
  {
  }

  lemma RanksOfTerms()
    ensures Rank("side") == 4 && Rank("orderType") == 5 && Rank("postOnly") == 6 && Rank("timeInForce") == 7
  {
  }

  lemma RanksOfNumbers()
    ensures Rank("reduceOnly") == 8 && Rank("size") == 9 && Rank("price") == 10 && Rank("sizeUnit") == 11
  {
  }

  lemma RanksOfWs()
    ensures Rank("id") == 12 && Rank("op") == 13 && Rank("args") == 14
  {
  }

  ghost predicate Ascending(ms: seq<Member>) {
    forall i, j | 0 <= i < j < |ms| :: Rank(ms[i].key) < Rank(ms[j].key)
  }

  lemma AscendingDistinct(ms: seq<Member>)
    requires Ascending(ms)
    ensures DistinctKeys(ms)
  {
  }

  lemma {:induction false} FieldMissing(ms: seq<Member>, key: string)
    requires forall i | 0 <= i < |ms| :: ms[i].key != key
    ensures Field(ms, key) == None
  {
    if ms != [] {
      FieldMissing(ms[1..], key);
    }
  }
}
