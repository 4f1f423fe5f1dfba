/** The encoder (protocol/json/encoder.cpp): each operation clears, appends to or overwrites
    a buffer that belongs to the caller, and returns a view of it. */
module Encoder {
  import opened Json
  import opened FixedPoint
  import opened EncoderSpec
  import opened EncoderTheorems

  /** `std::string`. */
  class Buffer {
    var text: string

    constructor ()
      ensures text == ""
    {
      text := "";
    }
  }

  /** `std::string_view`: a range of a buffer, read when it is used. */
  datatype View = View(buffer: Buffer, start: nat, size: nat)

  ghost predicate InRange(v: View)
    reads v.buffer
  {
    v.start + v.size <= |v.buffer.text|
  }

  function Chars(v: View): string
    requires InRange(v)
    reads v.buffer
  {
    v.buffer.text[v.start..v.start + v.size]
  }

  ghost predicate Whole(v: View, buffer: Buffer)
    reads buffer
  {
    v == View(buffer, 0, |buffer.text|)
  }

  // ---- the pieces of the format strings

  /** `"key":raw` */
  function Field(key: string, raw: string): string { "\"" + key + "\":" + raw }

  /** `"key":"text"` */
  function Quoted(key: string, text: string): string { "\"" + key + "\":\"" + text + "\"" }

  function Bool(b: bool): string { if b then "true" else "false" }

  lemma QuotedPrints(key: string, text: string)
    ensures Quoted(key, text) == PrintMember(TextMember(key, text))
  {
  }

  lemma FieldPrints(key: string, v: Value)
    ensures Field(key, Print(v)) == PrintMember(Member(key, v))
  {
  }

  /** The text of an object that is not closed yet. */
  function Open(ms: seq<Member>): string { "{" + PrintMembers(ms) }

  lemma OpenFirst(m: Member)
    ensures "{" + PrintMember(m) == Open([m])
  {
  }

  lemma OpenNext(ms: seq<Member>, m: Member)
    requires ms != []
    ensures Open(ms) + "," + PrintMember(m) == Open(ms + [m])
  {
    PrintAppends(ms, m);
    assert "{" + PrintMembers(ms) + "," + PrintMember(m) == "{" + (PrintMembers(ms) + "," + PrintMember(m));
  }

  lemma Closed(ms: seq<Member>)
    ensures Open(ms) + "}" == Print(Object(ms))
  {
  }

  lemma OpenTwo(a: Member, b: Member)
    ensures "{" + PrintMember(a) + "," + PrintMember(b) == Open([a, b])
  {
    OpenFirst(a);
    OpenNext([a], b);
    assert [a] + [b] == [a, b];
  }

  lemma OpenThree(a: Member, b: Member, c: Member)
    ensures "{" + PrintMember(a) + "," + PrintMember(b) + "," + PrintMember(c) == Open([a, b, c])
  {
    OpenTwo(a, b);
    OpenNext([a, b], c);
    assert [a, b] + [c] == [a, b, c];
  }

  lemma OpenFive(a: Member, b: Member, c: Member, d: Member, e: Member)
    ensures "{" + PrintMember(a) + "," + PrintMember(b) + "," + PrintMember(c) + "," + PrintMember(d) + "," + PrintMember(e)
      == Open([a, b, c, d, e])
  {
    OpenThree(a, b, c);
    OpenNext([a, b, c], d);
    assert [a, b, c] + [d] == [a, b, c, d];
    OpenNext([a, b, c, d], e);
    assert [a, b, c, d] + [e] == [a, b, c, d, e];
  }

  lemma NextThree(ms: seq<Member>, a: Member, b: Member, c: Member)
    requires ms != []
    ensures Open(ms) + "," + PrintMember(a) + "," + PrintMember(b) + "," + PrintMember(c) == Open(ms + [a, b, c])
  {
    OpenNext(ms, a);
    OpenNext(ms + [a], b);
    OpenNext(ms + [a] + [b], c);
    assert ms + [a] + [b] + [c] == ms + [a, b, c];
  }

  lemma NextFive(ms: seq<Member>, a: Member, b: Member, c: Member, d: Member, e: Member)
    requires ms != []
    ensures Open(ms) + "," + PrintMember(a) + "," + PrintMember(b) + "," + PrintMember(c) + "," + PrintMember(d) + "," + PrintMember(e)
      == Open(ms + [a, b, c, d, e])
  {
    NextThree(ms, a, b, c);
    OpenNext(ms + [a, b, c], d);
    OpenNext(ms + [a, b, c] + [d], e);
    assert ms + [a, b, c] + [d] + [e] == ms + [a, b, c, d, e];
  }

  // ---- the five operations; what they leave in the buffer depends on the arguments only

  method AppendHead(buffer: Buffer, unset: string, requestId: string, o: CreateOrder)
    requires buffer.text == ""
    modifies buffer
    ensures buffer.text == Open(HeadMembers(unset, requestId, o))
  {
    var side, orderType := SideText(o.side, unset), OrderTypeText(o.orderType, unset);
    QuotedPrints("tradeType", "FUTURES");
    QuotedPrints("clientOid", requestId);
    QuotedPrints("symbol", o.symbol);
    QuotedPrints("side", side);
    QuotedPrints("orderType", orderType);
    ghost var ms := HeadMembers(unset, requestId, o);
    OpenFive(ms[0], ms[1], ms[2], ms[3], ms[4]);
    buffer.text := "{"
      + Quoted("tradeType", "FUTURES")
      + "," + Quoted("clientOid", requestId)
      + "," + Quoted("symbol", o.symbol)
      + "," + Quoted("side", side)
      + "," + Quoted("orderType", orderType);
  }

  method AppendMarket(buffer: Buffer, o: CreateOrder, ghost before: seq<Member>)
    requires before != [] && buffer.text == Open(before)
    modifies buffer
    ensures buffer.text == Open(before + MarketMembers(o))
  {
    FieldPrints("reduceOnly", Flag(o.reduceOnly));
    QuotedPrints("size", PrintDecimal(o.quantity));
    QuotedPrints("sizeUnit", "UNIT");
    ghost var ms := MarketMembers(o);
    NextThree(before, ms[0], ms[1], ms[2]);
    buffer.text := buffer.text
      + "," + Field("reduceOnly", Bool(o.reduceOnly))
      + "," + Quoted("size", PrintDecimal(o.quantity))
      + "," + Quoted("sizeUnit", "UNIT");
  }

  method AppendLimit(buffer: Buffer, unset: string, o: CreateOrder, ghost before: seq<Member>)
    requires before != [] && buffer.text == Open(before)
    modifies buffer
    ensures buffer.text == Open(before + LimitMembers(unset, o))
  {
    var timeInForce := TimeInForceText(o.timeInForce, unset);
    QuotedPrints("timeInForce", timeInForce);
    FieldPrints("reduceOnly", Flag(o.reduceOnly));
    QuotedPrints("size", PrintDecimal(o.quantity));
    QuotedPrints("price", PrintDecimal(o.price));
    QuotedPrints("sizeUnit", "UNIT");
    ghost var ms := LimitMembers(unset, o);
    NextFive(before, ms[0], ms[1], ms[2], ms[3], ms[4]);
    buffer.text := buffer.text
      + "," + Quoted("timeInForce", timeInForce)
      + "," + Field("reduceOnly", Bool(o.reduceOnly))
      + "," + Quoted("size", PrintDecimal(o.quantity))
      + "," + Quoted("price", PrintDecimal(o.price))
      + "," + Quoted("sizeUnit", "UNIT");
  }

  /** An order type that is not set is a failed assertion. */
  method AddOrder(buffer: Buffer, unset: string, requestId: string, o: CreateOrder) returns (view: View)
    requires o.orderType != OrderType.UNDEFINED
    modifies buffer
    ensures buffer.text == OrderText(unset, requestId, o) && Whole(view, buffer)
  {
    buffer.text := "";
    AppendHead(buffer, unset, requestId, o);
    ghost var ms := HeadMembers(unset, requestId, o);
    if o.postOnly {
      FieldPrints("postOnly", Flag(true));
      OpenNext(ms, Member("postOnly", Flag(true)));
      buffer.text := buffer.text + "," + Field("postOnly", "true");
    }
    assert ms + [] == ms;
    ms := ms + PostOnlyMembers(o);
    assert buffer.text == Open(ms);
    match o.orderType {
      case MARKET => AppendMarket(buffer, o, ms);
      case LIMIT => AppendLimit(buffer, unset, o, ms);
    }
    buffer.text := buffer.text + "}";
    Closed(OrderMembers(unset, requestId, o));
    view := View(buffer, 0, |buffer.text|);
  }

  method CancelOrder(buffer: Buffer, order: Order) returns (view: View)
    modifies buffer
    ensures buffer.text == Print(Object(CancelMembers(order))) && Whole(view, buffer)
  {
    buffer.text := "";
    QuotedPrints("tradeType", "FUTURES");
    QuotedPrints("clientOid", order.clientOrderId);
    QuotedPrints("orderId", order.externalOrderId);
    QuotedPrints("symbol", order.symbol);
    ghost var ms := CancelMembers(order);
    OpenThree(ms[0], ms[1], ms[2]);
    Closed(ms);
    if order.externalOrderId == "" {
      buffer.text := "{"
        + Quoted("tradeType", "FUTURES")
        + "," + Quoted("clientOid", order.clientOrderId)
        + "," + Quoted("symbol", order.symbol)
        + "}";
    } else {
      buffer.text := "{"
        + Quoted("tradeType", "FUTURES")
        + "," + Quoted("orderId", order.externalOrderId)
        + "," + Quoted("symbol", order.symbol)
        + "}";
    }
    view := View(buffer, 0, |buffer.text|);
  }

  method CancelAllOrders(buffer: Buffer, symbol: string) returns (view: View)
    modifies buffer
    ensures buffer.text == Print(Object(CancelAllMembers(symbol))) && Whole(view, buffer)
  {
    buffer.text := "";
    QuotedPrints("tradeType", "FUTURES");
    QuotedPrints("symbol", symbol);
    ghost var ms := CancelAllMembers(symbol);
    OpenTwo(ms[0], ms[1]);
    Closed(ms);
    buffer.text := "{" + Quoted("tradeType", "FUTURES") + "," + Quoted("symbol", symbol) + "}";
    view := View(buffer, 0, |buffer.text|);
  }

  lemma Envelope(id: string, op: string, args: seq<Member>)
    ensures "{" + Quoted("id", id) + "," + Quoted("op", op) + "," + Field("args", Print(Object(args))) + "}" == WsText(id, op, args)
  {
    QuotedPrints("id", id);
    QuotedPrints("op", op);
    FieldPrints("args", Object(args));
    var ms := WsMembers(id, op, args);
    OpenThree(ms[0], ms[1], ms[2]);
    Closed(ms);
  }

  /** `args` is a view of the buffer: it is read before the buffer is overwritten. */
  method WsAddOrder(buffer: Buffer, unset: string, requestId: string, o: CreateOrder) returns (view: View)
    requires o.orderType != OrderType.UNDEFINED
    modifies buffer
    ensures buffer.text == WsText(requestId, "uta.order", OrderMembers(unset, requestId, o)) && Whole(view, buffer)
  {
    var args := AddOrder(buffer, unset, requestId, o);
    assert Chars(args) == buffer.text;
    Envelope(requestId, "uta.order", OrderMembers(unset, requestId, o));
    buffer.text := "{"
      + Quoted("id", requestId)
      + "," + Quoted("op", "uta.order")
      + "," + Field("args", Chars(args))
      + "}";
    view := View(buffer, 0, |buffer.text|);
  }

  method WsCancelOrder(buffer: Buffer, requestId: string, order: Order) returns (view: View)
    modifies buffer
    ensures buffer.text == WsText(requestId, "uta.cancel", CancelMembers(order)) && Whole(view, buffer)
  {
    buffer.text := "";
    var args := CancelOrder(buffer, order);
    assert Chars(args) == buffer.text;
    Envelope(requestId, "uta.cancel", CancelMembers(order));
    buffer.text := "{"
      + Quoted("id", requestId)
      + "," + Quoted("op", "uta.cancel")
      + "," + Field("args", Chars(args))
      + "}";
    view := View(buffer, 0, |buffer.text|);
  }
}
