/** The texts of the requests written out, as the exchange documents them: which names stand
    where, and with which values. */
module EncoderLayout {
  import opened Json
  import opened FixedPoint
  import opened EncoderSpec
  import opened EncoderTheorems
  import opened Encoder

  /** `"key":"text"` for the names whose values vary. */
  lemma Texts(id: string, symbol: string, text: string)
    ensures Quoted("tradeType", "FUTURES") == "\"tradeType\":\"FUTURES\""
    ensures Quoted("clientOid", id) == "\"clientOid\":\"" + id + "\""
    ensures Quoted("orderId", id) == "\"orderId\":\"" + id + "\""
    ensures Quoted("symbol", symbol) == "\"symbol\":\"" + symbol + "\""
    ensures Quoted("side", text) == "\"side\":\"" + text + "\""
    ensures Quoted("orderType", text) == "\"orderType\":\"" + text + "\""
  {
  }

  lemma TimePrinted(text: string)
    ensures PrintMember(TextMember("timeInForce", text)) == "\"timeInForce\":\"" + text + "\""
  {
    QuotedPrints("timeInForce", text);
  }

  lemma SizePrinted(text: string)
    ensures PrintMember(TextMember("size", text)) == "\"size\":\"" + text + "\""
  {
    QuotedPrints("size", text);
  }

  lemma PricePrinted(text: string)
    ensures PrintMember(TextMember("price", text)) == "\"price\":\"" + text + "\""
  {
    QuotedPrints("price", text);
  }

  lemma UnitPrinted()
    ensures PrintMember(TextMember("sizeUnit", "UNIT")) == "\"sizeUnit\":\"UNIT\""
  {
    QuotedPrints("sizeUnit", "UNIT");
  }

  lemma ReducePrinted(flag: bool)
    ensures PrintMember(Member("reduceOnly", Flag(flag))) == if flag then "\"reduceOnly\":true" else "\"reduceOnly\":false"
  {
    FieldPrints("reduceOnly", Flag(flag));
  }

  // ---- orders

  /** The text of an order: a market order ends with its size, a limit order names time in
      force and price too. */
  function OrderWire(unset: string, id: string, o: CreateOrder): string
    requires o.orderType != OrderType.UNDEFINED
  {
    HeadWire(unset, id, o)
    + (if o.postOnly then ",\"postOnly\":true" else "")
    + (if o.orderType == MARKET then MarketWire(o) else LimitWire(unset, o))
    + "}"
  }

  function HeadWire(unset: string, id: string, o: CreateOrder): string {
    "{" + "\"tradeType\":\"FUTURES\""
    + "," + ("\"clientOid\":\"" + id + "\"")
    + "," + ("\"symbol\":\"" + o.symbol + "\"")
    + "," + ("\"side\":\"" + (if o.side == BUY then "BUY" else if o.side == SELL then "SELL" else unset) + "\"")
    + "," + ("\"orderType\":\"" + (if o.orderType == MARKET then "MARKET" else if o.orderType == LIMIT then "LIMIT" else unset) + "\"")
  }

  function MarketWire(o: CreateOrder): string {
    "," + (if o.reduceOnly then "\"reduceOnly\":true" else "\"reduceOnly\":false")
    + "," + ("\"size\":\"" + PrintDecimal(o.quantity) + "\"")
    + "," + "\"sizeUnit\":\"UNIT\""
  }

  function LimitWire(unset: string, o: CreateOrder): string {
    "," + ("\"timeInForce\":\""
           + (if o.timeInForce == GTC then "GTC" else if o.timeInForce == IOC then "IOC" else if o.timeInForce == FOK then "FOK" else unset)
           + "\"")
    + "," + (if o.reduceOnly then "\"reduceOnly\":true" else "\"reduceOnly\":false")
    + "," + ("\"size\":\"" + PrintDecimal(o.quantity) + "\"")
    + "," + ("\"price\":\"" + PrintDecimal(o.price) + "\"")
    + "," + "\"sizeUnit\":\"UNIT\""
  }

  lemma HeadLayout(unset: string, id: string, o: CreateOrder)
    ensures Open(HeadMembers(unset, id, o)) == HeadWire(unset, id, o)
  {
    var ms := HeadMembers(unset, id, o);
    OpenFive(ms[0], ms[1], ms[2], ms[3], ms[4]);
    QuotedPrints("tradeType", "FUTURES");
    QuotedPrints("clientOid", id);
    QuotedPrints("symbol", o.symbol);
    QuotedPrints("side", SideText(o.side, unset));
    QuotedPrints("orderType", OrderTypeText(o.orderType, unset));
    Texts(id, o.symbol, SideText(o.side, unset));
    Texts(id, o.symbol, OrderTypeText(o.orderType, unset));
  }

  lemma PostOnlyLayout(ms: seq<Member>, o: CreateOrder)
    requires ms != []
    ensures Open(ms + PostOnlyMembers(o)) == Open(ms) + if o.postOnly then ",\"postOnly\":true" else ""
  {
    if o.postOnly {
      OpenNext(ms, Member("postOnly", Flag(true)));
      FieldPrints("postOnly", Flag(true));
      assert "," + PrintMember(Member("postOnly", Flag(true))) == ",\"postOnly\":true";
    } else {
      assert ms + [] == ms;
    }
  }

  lemma MarketLayout(ms: seq<Member>, o: CreateOrder)
    requires ms != []
    ensures Open(ms + MarketMembers(o)) == Open(ms) + MarketWire(o)
  {
    var more := MarketMembers(o);
    NextThree(ms, more[0], more[1], more[2]);
    assert more == [more[0], more[1], more[2]];
    ReducePrinted(o.reduceOnly);
    SizePrinted(PrintDecimal(o.quantity));
    UnitPrinted();
    ThreeMore(Open(ms), PrintMember(more[0]), PrintMember(more[1]), PrintMember(more[2]));
  }

  lemma ThreeMore(open: string, a: string, b: string, c: string)
    ensures open + "," + a + "," + b + "," + c == open + ("," + a + "," + b + "," + c)
  {
  }

  lemma FiveMore(open: string, a: string, b: string, c: string, d: string, e: string)
    ensures open + "," + a + "," + b + "," + c + "," + d + "," + e == open + ("," + a + "," + b + "," + c + "," + d + "," + e)
  {
    ThreeMore(open, a, b, c);
  }

  lemma LimitLayout(ms: seq<Member>, unset: string, o: CreateOrder)
    requires ms != []
    ensures Open(ms + LimitMembers(unset, o)) == Open(ms) + LimitWire(unset, o)
  {
    var more := LimitMembers(unset, o);
    NextFive(ms, more[0], more[1], more[2], more[3], more[4]);
    assert more == [more[0], more[1], more[2], more[3], more[4]];
    TimePrinted(TimeInForceText(o.timeInForce, unset));
    ReducePrinted(o.reduceOnly);
    SizePrinted(PrintDecimal(o.quantity));
    PricePrinted(PrintDecimal(o.price));
    UnitPrinted();
    FiveMore(Open(ms), PrintMember(more[0]), PrintMember(more[1]), PrintMember(more[2]), PrintMember(more[3]), PrintMember(more[4]));
  }

  lemma OrderLayout(unset: string, id: string, o: CreateOrder)
    requires o.orderType != OrderType.UNDEFINED
    ensures OrderText(unset, id, o) == OrderWire(unset, id, o)
  {
    var head := HeadMembers(unset, id, o);
    HeadLayout(unset, id, o);
    PostOnlyLayout(head, o);
    if o.orderType == MARKET {
      MarketLayout(head + PostOnlyMembers(o), o);
    } else {
      LimitLayout(head + PostOnlyMembers(o), unset, o);
    }
    Closed(OrderMembers(unset, id, o));
  }

  // ---- cancels

  /** The text of a cancel: the exchange's id if there is one, else the client's. */
  lemma CancelLayout(order: Order)
    ensures Print(Object(CancelMembers(order))) ==
      "{" + "\"tradeType\":\"FUTURES\""
      + "," + (if order.externalOrderId == "" then "\"clientOid\":\"" + order.clientOrderId + "\""
               else "\"orderId\":\"" + order.externalOrderId + "\"")
      + "," + ("\"symbol\":\"" + order.symbol + "\"")
      + "}"
  {
    var ms := CancelMembers(order);
    OpenThree(ms[0], ms[1], ms[2]);
    Closed(ms);
    QuotedPrints("tradeType", "FUTURES");
    QuotedPrints("clientOid", order.clientOrderId);
    QuotedPrints("orderId", order.externalOrderId);
    QuotedPrints("symbol", order.symbol);
    Texts(order.clientOrderId, order.symbol, "");
    Texts(order.externalOrderId, order.symbol, "");
  }

  lemma CancelAllLayout(symbol: string)
    ensures Print(Object(CancelAllMembers(symbol))) ==
      "{" + "\"tradeType\":\"FUTURES\"" + "," + ("\"symbol\":\"" + symbol + "\"") + "}"
  {
    var ms := CancelAllMembers(symbol);
    OpenTwo(ms[0], ms[1]);
    Closed(ms);
    QuotedPrints("tradeType", "FUTURES");
    QuotedPrints("symbol", symbol);
    Texts("", symbol, "");
  }

  // ---- the websocket envelope

  /** The message around the body of a REST request. */
  lemma WsLayout(id: string, op: string, args: seq<Member>)
    ensures WsText(id, op, args) ==
      "{" + ("\"id\":\"" + id + "\"") + "," + ("\"op\":\"" + op + "\"") + "," + ("\"args\":" + Print(Object(args))) + "}"
  {
    Envelope(id, op, args);
    assert Quoted("id", id) == "\"id\":\"" + id + "\"";
    assert Quoted("op", op) == "\"op\":\"" + op + "\"";
    assert Encoder.Field("args", Print(Object(args))) == "\"args\":" + Print(Object(args));
  }
}
