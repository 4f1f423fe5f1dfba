/** The encoder's texts read back as the requests they were printed from. */
module EncoderTheorems {
  import opened Wrappers
  import opened FixedPoint
  import opened Json
  import opened EncoderSpec

  // ---- no name occurs twice

  ghost predicate Between(ms: seq<Member>, lo: nat, hi: nat) {
    Ascending(ms) && forall i | 0 <= i < |ms| :: lo <= Rank(ms[i].key) < hi
  }

  lemma BetweenAppend(xs: seq<Member>, ys: seq<Member>, lo: nat, mid: nat, hi: nat)
    requires lo <= mid <= hi && Between(xs, lo, mid) && Between(ys, mid, hi)
    ensures Between(xs + ys, lo, hi)
  {
  }

  lemma HeadRanks(unset: string, id: string, o: CreateOrder)
    ensures Between(HeadMembers(unset, id, o), 0, 6)
  {
  }

  lemma PostOnlyRanks(o: CreateOrder)
    ensures Between(PostOnlyMembers(o), 6, 7)
  {
  }

  lemma MarketRanks(o: CreateOrder)
    ensures Between(MarketMembers(o), 7, 12)
  {
  }

  lemma LimitRanks(unset: string, o: CreateOrder)
    ensures Between(LimitMembers(unset, o), 7, 12)
  {
    RanksOfTerms();
    RanksOfNumbers();
  }

  function TailMembers(unset: string, o: CreateOrder): seq<Member> {
    if o.orderType == MARKET then MarketMembers(o) else LimitMembers(unset, o)
  }

  lemma OrderRanks(unset: string, id: string, o: CreateOrder)
    requires o.orderType != OrderType.UNDEFINED
    ensures Between(OrderMembers(unset, id, o), 0, 12)
  {
    HeadRanks(unset, id, o);
    PostOnlyRanks(o);
    MarketRanks(o);
    LimitRanks(unset, o);
    BetweenAppend(HeadMembers(unset, id, o), PostOnlyMembers(o), 0, 6, 7);
    BetweenAppend(HeadMembers(unset, id, o) + PostOnlyMembers(o), TailMembers(unset, o), 0, 7, 12);
  }

  lemma OrderKeysDistinct(unset: string, id: string, o: CreateOrder)
    requires o.orderType != OrderType.UNDEFINED
    ensures DistinctKeys(OrderMembers(unset, id, o))
  {
    OrderRanks(unset, id, o);
    AscendingDistinct(OrderMembers(unset, id, o));
  }

  // ---- which texts need no escape

  lemma {:induction false} PlainConcat(xs: seq<Member>, ys: seq<Member>)
    ensures PlainMembers(xs + ys) <==> PlainMembers(xs) && PlainMembers(ys)
  {
    if xs == [] {
      assert xs + ys == ys;
    } else {
      PlainConcat(xs[1..], ys);
      assert (xs + ys)[1..] == xs[1..] + ys;
    }
  }

  lemma Plain1(a: Member)
    ensures PlainMembers([a]) <==> PlainText(a.key) && Plain(a.value)
  {
  }

  lemma Plain2(a: Member, b: Member)
    ensures PlainMembers([a, b]) <==> PlainMembers([a]) && PlainMembers([b])
  {
  }

  lemma Plain3(a: Member, b: Member, c: Member)
    ensures PlainMembers([a, b, c]) <==> PlainMembers([a]) && PlainMembers([b]) && PlainMembers([c])
  {
  }

  lemma Plain5(a: Member, b: Member, c: Member, d: Member, e: Member)
    ensures PlainMembers([a, b, c, d, e]) <==>
      PlainMembers([a]) && PlainMembers([b]) && PlainMembers([c]) && PlainMembers([d]) && PlainMembers([e])
  {
    PlainConcat([a, b], [c, d, e]);
    Plain2(a, b);
    Plain3(c, d, e);
    assert [a, b] + [c, d, e] == [a, b, c, d, e];
  }

  lemma DecimalPlain(d: Decimal)
    ensures PlainText(PrintDecimal(d))
  {
    DecimalChars(d);
    var s := PrintDecimal(d);
    forall i | 0 <= i < |s| ensures s[i] >= ' ' && s[i] != '\"' && s[i] != '\\' {
      assert s[i] in s;
    }
  }

  lemma HeadPlain(unset: string, id: string, o: CreateOrder)
    requires PlainText(unset)
    ensures PlainMembers(HeadMembers(unset, id, o)) <==> PlainText(id) && PlainText(o.symbol)
  {
    var ms := HeadMembers(unset, id, o);
    Plain5(ms[0], ms[1], ms[2], ms[3], ms[4]);
    Plain1(ms[0]);
    Plain1(ms[1]);
    Plain1(ms[2]);
    Plain1(ms[3]);
    Plain1(ms[4]);
  }

  lemma PostOnlyPlain(o: CreateOrder)
    ensures PlainMembers(PostOnlyMembers(o))
  {
    Plain1(Member("postOnly", Flag(true)));
  }

  lemma MarketPlain(o: CreateOrder)
    ensures PlainMembers(MarketMembers(o))
  {
    var ms := MarketMembers(o);
    DecimalPlain(o.quantity);
    Plain3(ms[0], ms[1], ms[2]);
    Plain1(ms[0]);
    Plain1(ms[1]);
    Plain1(ms[2]);
  }

  lemma LimitPlain(unset: string, o: CreateOrder)
    requires PlainText(unset)
    ensures PlainMembers(LimitMembers(unset, o))
  {
    var ms := LimitMembers(unset, o);
    DecimalPlain(o.quantity);
    DecimalPlain(o.price);
    Plain5(ms[0], ms[1], ms[2], ms[3], ms[4]);
    Plain1(ms[0]);
    Plain1(ms[1]);
    Plain1(ms[2]);
    Plain1(ms[3]);
    Plain1(ms[4]);
  }

  lemma OrderPlain(unset: string, id: string, o: CreateOrder)
    requires PlainText(unset) && o.orderType != OrderType.UNDEFINED
    ensures PlainMembers(OrderMembers(unset, id, o)) <==> PlainText(id) && PlainText(o.symbol)
  {
    HeadPlain(unset, id, o);
    PostOnlyPlain(o);
    MarketPlain(o);
    LimitPlain(unset, o);
    PlainConcat(HeadMembers(unset, id, o), PostOnlyMembers(o));
    PlainConcat(HeadMembers(unset, id, o) + PostOnlyMembers(o), TailMembers(unset, o));
  }

  // ---- the fields a reader looks up

  lemma Lookup(ms: seq<Member>, i: nat, key: string, value: Value)
    requires DistinctKeys(ms) && i < |ms| && ms[i] == Member(key, value)
    ensures Field(ms, key) == Some(value)
  {
    FieldAt(ms, i);
  }

  lemma HeadFields(unset: string, id: string, o: CreateOrder)
    requires o.orderType != OrderType.UNDEFINED
    ensures var ms := OrderMembers(unset, id, o);
      && TextOf(ms, "tradeType") == Some("FUTURES") && TextOf(ms, "clientOid") == Some(id) && TextOf(ms, "symbol") == Some(o.symbol)
      && TextOf(ms, "side") == Some(SideText(o.side, unset)) && TextOf(ms, "orderType") == Some(OrderTypeText(o.orderType, unset))
  {
    var ms, head := OrderMembers(unset, id, o), HeadMembers(unset, id, o);
    OrderKeysDistinct(unset, id, o);
    assert forall i | 0 <= i < 5 :: ms[i] == head[i];
    Lookup(ms, 0, "tradeType", Text("FUTURES"));
    Lookup(ms, 1, "clientOid", Text(id));
    Lookup(ms, 2, "symbol", Text(o.symbol));
    Lookup(ms, 3, "side", Text(SideText(o.side, unset)));
    Lookup(ms, 4, "orderType", Text(OrderTypeText(o.orderType, unset)));
  }

  lemma PostOnlyField(unset: string, id: string, o: CreateOrder)
    requires o.orderType != OrderType.UNDEFINED
    ensures (FlagOf(OrderMembers(unset, id, o), "postOnly") == Some(true)) == o.postOnly
  {
    var ms := OrderMembers(unset, id, o);
    OrderKeysDistinct(unset, id, o);
    if o.postOnly {
      Lookup(ms, 5, "postOnly", Flag(true));
    } else {
      HeadRanks(unset, id, o);
      MarketRanks(o);
      LimitRanks(unset, o);
      RanksOfTerms();
      var head, tail := HeadMembers(unset, id, o), TailMembers(unset, o);
      assert ms == head + tail;
      forall i | 0 <= i < |ms| ensures ms[i].key != "postOnly" {
        if i < |head| {
          assert Rank(head[i].key) < 6;
        } else {
          assert Rank(tail[i - |head|].key) >= 7;
        }
      }
      FieldMissing(ms, "postOnly");
    }
  }

  lemma TailAt(unset: string, id: string, o: CreateOrder, k: nat)
    requires o.orderType != OrderType.UNDEFINED && k < |TailMembers(unset, o)|
    ensures var m := TailMembers(unset, o)[k]; Field(OrderMembers(unset, id, o), m.key) == Some(m.value)
  {
    var ms := OrderMembers(unset, id, o);
    OrderKeysDistinct(unset, id, o);
    var i := 5 + |PostOnlyMembers(o)| + k;
    assert ms[i] == TailMembers(unset, o)[k];
    FieldAt(ms, i);
  }

  lemma MarketFields(unset: string, id: string, o: CreateOrder)
    requires o.orderType == MARKET
    ensures var ms := OrderMembers(unset, id, o);
      FlagOf(ms, "reduceOnly") == Some(o.reduceOnly) && DecimalOf(ms, "size") == Some(o.quantity) && TextOf(ms, "sizeUnit") == Some("UNIT")
  {
    TailAt(unset, id, o, 0);
    TailAt(unset, id, o, 1);
    TailAt(unset, id, o, 2);
    ReadDecimalPrinted(o.quantity);
  }

  lemma LimitFields(unset: string, id: string, o: CreateOrder)
    requires o.orderType == LIMIT
    ensures var ms := OrderMembers(unset, id, o);
      && FlagOf(ms, "reduceOnly") == Some(o.reduceOnly) && DecimalOf(ms, "size") == Some(o.quantity)
      && TextOf(ms, "sizeUnit") == Some("UNIT")
      && TextOf(ms, "timeInForce") == Some(TimeInForceText(o.timeInForce, unset)) && DecimalOf(ms, "price") == Some(o.price)
  {
    TailAt(unset, id, o, 0);
    TailAt(unset, id, o, 1);
    TailAt(unset, id, o, 2);
    TailAt(unset, id, o, 3);
    TailAt(unset, id, o, 4);
    ReadDecimalPrinted(o.quantity);
    ReadDecimalPrinted(o.price);
  }

  // ---- the tables undone

  lemma SideRecovered(side: Side, unset: string)
    requires UnsetOk(unset)
    ensures SideOf(Some(SideText(side, unset))) == if side == Side.UNDEFINED then None else Some(side)
  {
  }

  lemma OrderTypeRecovered(orderType: OrderType, unset: string)
    requires orderType != OrderType.UNDEFINED
    ensures OrderTypeOf(Some(OrderTypeText(orderType, unset))) == Some(orderType)
  {
  }

  lemma TimeInForceRecovered(timeInForce: TimeInForce, unset: string)
    requires UnsetOk(unset)
    ensures TimeInForceOf(Some(TimeInForceText(timeInForce, unset))) == if timeInForce in [GTC, IOC, FOK] then Some(timeInForce) else None
  {
  }

  /** From the members a reader recovers the content of the order, fixed-point numbers
      included, if and only if the exchange has values for its side and time in force. */
  lemma OrderOfMembersExact(unset: string, id: string, o: CreateOrder)
    requires UnsetOk(unset) && o.orderType != OrderType.UNDEFINED
    ensures OrderOf(OrderMembers(unset, id, o)) == if Supported(o) then Some(Content(id, o)) else None
  {
    HeadFields(unset, id, o);
    PostOnlyField(unset, id, o);
    SideRecovered(o.side, unset);
    OrderTypeRecovered(o.orderType, unset);
    if o.orderType == MARKET {
      MarketFields(unset, id, o);
    } else {
      LimitFields(unset, id, o);
      TimeInForceRecovered(o.timeInForce, unset);
    }
  }

  // ---- main results

  function OrderText(unset: string, id: string, o: CreateOrder): string
    requires o.orderType != OrderType.UNDEFINED
  {
    Print(Object(OrderMembers(unset, id, o)))
  }

  /** The text of an order reads back as exactly its members, none of them twice, if and
      only if id and symbol need no escape. */
  lemma OrderTextExact(unset: string, id: string, o: CreateOrder)
    requires PlainText(unset) && o.orderType != OrderType.UNDEFINED
    ensures Read(OrderText(unset, id, o)) == Some(Object(OrderMembers(unset, id, o))) <==> PlainText(id) && PlainText(o.symbol)
    ensures DistinctKeys(OrderMembers(unset, id, o))
  {
    RoundTripExact(Object(OrderMembers(unset, id, o)));
    OrderPlain(unset, id, o);
    OrderKeysDistinct(unset, id, o);
  }

  /** The round trip: with an id and a symbol that need no escape, a reader of the text
      recovers the order exactly when it is supported, and nothing otherwise. */
  lemma OrderRoundTrip(unset: string, id: string, o: CreateOrder)
    requires UnsetOk(unset) && o.orderType != OrderType.UNDEFINED && PlainText(id) && PlainText(o.symbol)
    ensures ReadOrder(OrderText(unset, id, o)) == if Supported(o) then Some(Content(id, o)) else None
  {
    OrderTextExact(unset, id, o);
    OrderOfMembersExact(unset, id, o);
  }

  /** Two supported orders with the same text say the same. */
  lemma OrderTextInjective(unset: string, id: string, o: CreateOrder, id2: string, o2: CreateOrder)
    requires UnsetOk(unset) && Supported(o) && Supported(o2)
    requires PlainText(id) && PlainText(o.symbol) && PlainText(id2) && PlainText(o2.symbol)
    ensures OrderText(unset, id, o) == OrderText(unset, id2, o2) <==> Content(id, o) == Content(id2, o2)
  {
    OrderRoundTrip(unset, id, o);
    OrderRoundTrip(unset, id2, o2);
    if Content(id, o) == Content(id2, o2) {
      assert OrderMembers(unset, id, o) == OrderMembers(unset, id2, o2);
    }
  }

  // ---- cancels

  /** The id a cancel names. */
  function IdUsed(order: Order): string {
    if order.externalOrderId == "" then order.clientOrderId else order.externalOrderId
  }

  lemma CancelPlain(order: Order)
    ensures PlainMembers(CancelMembers(order)) <==>
      PlainText(order.symbol) && PlainText(IdUsed(order))
  {
    var ms := CancelMembers(order);
    Plain3(ms[0], ms[1], ms[2]);
    Plain1(ms[0]);
    Plain1(ms[1]);
    Plain1(ms[2]);
  }

  lemma CancelRanks(order: Order)
    ensures Between(CancelMembers(order), 0, 4)
  {
  }

  /** A cancel names the order by exactly one of its two ids: the exchange's when there is
      one, else the client's. */
  lemma CancelFields(order: Order)
    ensures var ms := CancelMembers(order);
      && DistinctKeys(ms) && TextOf(ms, "symbol") == Some(order.symbol)
      && TextOf(ms, "orderId") == (if order.externalOrderId == "" then None else Some(order.externalOrderId))
      && TextOf(ms, "clientOid") == (if order.externalOrderId == "" then Some(order.clientOrderId) else None)
  {
    var ms := CancelMembers(order);
    CancelRanks(order);
    AscendingDistinct(ms);
    RanksOfIds();
    Lookup(ms, 2, "symbol", Text(order.symbol));
    if order.externalOrderId == "" {
      Lookup(ms, 1, "clientOid", Text(order.clientOrderId));
      FieldMissing(ms, "orderId");
    } else {
      Lookup(ms, 1, "orderId", Text(order.externalOrderId));
      FieldMissing(ms, "clientOid");
    }
  }

  lemma CancelTextExact(order: Order)
    ensures Read(Print(Object(CancelMembers(order)))) == Some(Object(CancelMembers(order))) <==>
      PlainText(order.symbol) && PlainText(IdUsed(order))
  {
    RoundTripExact(Object(CancelMembers(order)));
    CancelPlain(order);
  }

  lemma CancelAllTextExact(symbol: string)
    ensures Read(Print(Object(CancelAllMembers(symbol)))) == Some(Object(CancelAllMembers(symbol))) <==> PlainText(symbol)
  {
    var ms := CancelAllMembers(symbol);
    RoundTripExact(Object(ms));
    Plain2(ms[0], ms[1]);
    Plain1(ms[0]);
    Plain1(ms[1]);
  }

  // ---- the websocket envelope

  function WsText(id: string, op: string, args: seq<Member>): string {
    Print(Object(WsMembers(id, op, args)))
  }

  lemma WsPlain(id: string, op: string, args: seq<Member>)
    requires PlainText(op)
    ensures PlainMembers(WsMembers(id, op, args)) <==> PlainText(id) && PlainMembers(args)
  {
    var ms := WsMembers(id, op, args);
    Plain3(ms[0], ms[1], ms[2]);
    Plain1(ms[0]);
    Plain1(ms[1]);
    Plain1(ms[2]);
  }

  lemma WsFields(id: string, op: string, args: seq<Member>)
    ensures var ms := WsMembers(id, op, args);
      DistinctKeys(ms) && TextOf(ms, "id") == Some(id) && TextOf(ms, "op") == Some(op) && Field(ms, "args") == Some(Object(args))
  {
    var ms := WsMembers(id, op, args);
    RanksOfWs();
    AscendingDistinct(ms);
    Lookup(ms, 0, "id", Text(id));
    Lookup(ms, 1, "op", Text(op));
    Lookup(ms, 2, "args", Object(args));
  }

  /** The value of `args` in what is read from a text. */
  function ArgsOf(text: string): Option<Value> {
    match Read(text)
    case Some(Object(ms)) => if DistinctKeys(ms) then Field(ms, "args") else None
    case _ => None
  }

  /** The `args` of an order sent by websocket read back as the very body the REST request
      for it has; the whole text reads back exactly when id and symbol need no escape. */
  lemma WsOrderExact(unset: string, id: string, o: CreateOrder)
    requires PlainText(unset) && o.orderType != OrderType.UNDEFINED
    ensures var ms := OrderMembers(unset, id, o);
      && (Read(WsText(id, "uta.order", ms)) == Some(Object(WsMembers(id, "uta.order", ms))) <==> PlainText(id) && PlainText(o.symbol))
      && (PlainText(id) && PlainText(o.symbol) ==>
            ArgsOf(WsText(id, "uta.order", ms)) == Some(Object(ms)) && Print(Object(ms)) == OrderText(unset, id, o))
  {
    var ms := OrderMembers(unset, id, o);
    RoundTripExact(Object(WsMembers(id, "uta.order", ms)));
    WsPlain(id, "uta.order", ms);
    OrderPlain(unset, id, o);
    WsFields(id, "uta.order", ms);
  }

  lemma WsCancelExact(id: string, order: Order)
    ensures var ms := CancelMembers(order);
      Read(WsText(id, "uta.cancel", ms)) == Some(Object(WsMembers(id, "uta.cancel", ms))) <==>
        PlainText(id) && PlainText(order.symbol) && PlainText(IdUsed(order))
  {
    var ms := CancelMembers(order);
    RoundTripExact(Object(WsMembers(id, "uta.cancel", ms)));
    WsPlain(id, "uta.cancel", ms);
    CancelPlain(order);
  }

  lemma WsCancelArgs(id: string, order: Order)
    requires PlainText(id) && PlainText(order.symbol)
    requires PlainText(IdUsed(order))
    ensures ArgsOf(WsText(id, "uta.cancel", CancelMembers(order))) == Read(Print(Object(CancelMembers(order))))
    ensures ArgsOf(WsText(id, "uta.cancel", CancelMembers(order))) == Some(Object(CancelMembers(order)))
  {
    WsCancelExact(id, order);
    WsFields(id, "uta.cancel", CancelMembers(order));
    CancelTextExact(order);
  }
}
