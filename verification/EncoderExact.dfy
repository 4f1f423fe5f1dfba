/** When exactly a reader recovers a request from its text: the condition on ids and symbol
    that the encoder, which escapes nothing, leaves to its callers. */
module EncoderExact {
  import opened Wrappers
  import opened Json
  import opened JsonExact
  import opened EncoderSpec
  import opened EncoderTheorems

  /** The members of a printed object are read from behind its brace. */
  lemma ObjectMembers(ms: seq<Member>)
    requires ms != [] && Read(Print(Object(ms))).Some?
    ensures var r := ReadMembers(PrintMembers(ms) + "}" + "");
      r.Parsed? && Read(Print(Object(ms))) == Some(Object(r.value))
  {
    StartsWithQuote(ms);
    var t := PrintMembers(ms) + "}";
    assert Print(Object(ms)) == "{" + t by { assert "{" + PrintMembers(ms) + "}" == "{" + t; }
    assert ("{" + t)[1..] == t && t + "" == t;
  }

  /** A plain member in front is read and left behind. */
  lemma Peel(ms: seq<Member>)
    requires |ms| > 1 && PlainText(ms[0].key) && Plain(ms[0].value)
    requires ReadMembers(PrintMembers(ms) + "}" + "").Parsed?
    ensures var r := ReadMembers(PrintMembers(ms[1..]) + "}" + "");
      r.Parsed? && ReadMembers(PrintMembers(ms) + "}" + "").value == [ms[0]] + r.value
  {
    var t := PrintMembers(ms[1..]) + "}" + "";
    JoinMore(PrintMember(ms[0]), PrintMembers(ms[1..]), "");
    ReadPlainMember(ms[0], "," + t);
    assert ("," + t)[1..] == t;
  }

  lemma FieldFirst(m: Member, rest: seq<Member>, key: string)
    ensures Field([m] + rest, key) == if m.key == key then Some(m.value) else Field(rest, key)
  {
  }

  /** Reading printed members finds this value under this name. */
  ghost predicate Finds(ms: seq<Member>, key: string, v: Value) {
    var r := ReadMembers(PrintMembers(ms) + "}" + "");
    r.Parsed? && Field(r.value, key) == Some(v)
  }

  lemma FindsBehind(ms: seq<Member>, key: string, v: Value)
    requires |ms| > 1 && PlainText(ms[0].key) && Plain(ms[0].value) && ms[0].key != key && Finds(ms, key, v)
    ensures Finds(ms[1..], key, v)
  {
    Peel(ms);
    FieldFirst(ms[0], ReadMembers(PrintMembers(ms[1..]) + "}" + "").value, key);
  }

  /** A reader that finds the right text under the first name has read a plain one. */
  lemma FirstRecovered(ms: seq<Member>, key: string, x: string)
    requires |ms| > 1 && ms[0] == TextMember(key, x) && PlainText(key) && Finds(ms, key, Text(x))
    ensures PlainText(x)
  {
    FirstTextExact(ms, key, x, "");
    var got := ReadMembers(PrintMembers(ms) + "}" + "").value;
    FieldFirst(got[0], got[1..], key);
    assert [got[0]] + got[1..] == got;
  }

  lemma SecondRecovered(ms: seq<Member>, key: string, x: string)
    requires |ms| > 2 && ms[1] == TextMember(key, x) && PlainText(key) && Finds(ms, key, Text(x))
    requires PlainText(ms[0].key) && Plain(ms[0].value) && ms[0].key != key
    ensures PlainText(x)
  {
    FindsBehind(ms, key, Text(x));
    FirstRecovered(ms[1..], key, x);
  }

  /** What is found under a name takes its place, and is plain if everything is. */
  lemma {:induction false} FieldPrinted(ms: seq<Member>, key: string, v: Value)
    requires Field(ms, key) == Some(v)
    ensures |PrintMembers(ms)| >= |PrintMember(Member(key, v))| && (PlainMembers(ms) ==> Plain(v))
  {
    if ms[0].key != key {
      FieldPrinted(ms[1..], key, v);
    }
  }

  /** Behind the last member there is only the brace: a reader that finds its value has read
      no fewer characters than it prints as, hence a plain one. */
  lemma LastRecovered(m: Member)
    requires Finds([m], m.key, m.value)
    ensures Plain(m.value)
  {
    var s := PrintMembers([m]) + "}" + "";
    MembersLength(s);
    FieldPrinted(ReadMembers(s).value, m.key, m.value);
  }

  lemma SecondLast(ms: seq<Member>)
    requires |ms| == 2 && Finds(ms, ms[1].key, ms[1].value) && ms[1].key != ms[0].key && PlainText(ms[0].key) && Plain(ms[0].value)
    ensures Plain(ms[1].value)
  {
    FindsBehind(ms, ms[1].key, ms[1].value);
    LastRecovered(ms[1]);
  }

  lemma ThirdRecovered(ms: seq<Member>)
    requires |ms| == 3 && Finds(ms, ms[2].key, ms[2].value) && ms[2].key != ms[0].key && ms[2].key != ms[1].key
    requires PlainText(ms[0].key) && Plain(ms[0].value) && PlainText(ms[1].key) && Plain(ms[1].value)
    ensures Plain(ms[2].value)
  {
    FindsBehind(ms, ms[2].key, ms[2].value);
    SecondLast(ms[1..]);
  }

  lemma IdAndSymbolRecovered(ms: seq<Member>, id: string, symbol: string)
    requires |ms| > 3 && ms[0] == TextMember("tradeType", "FUTURES")
    requires ms[1] == TextMember("clientOid", id) && ms[2] == TextMember("symbol", symbol)
    requires Finds(ms, "clientOid", Text(id)) && Finds(ms, "symbol", Text(symbol))
    ensures PlainText(id) && PlainText(symbol)
  {
    RanksOfIds();
    SecondRecovered(ms, "clientOid", id);
    FindsBehind(ms, "symbol", Text(symbol));
    SecondRecovered(ms[1..], "symbol", symbol);
  }

  /** A reader of the text of a supported order recovers the order if and only if id and
      symbol need no escape: whatever an unescaped character makes of the rest of the
      text, it never reads as the same order. */
  lemma OrderRecoveredExact(unset: string, id: string, o: CreateOrder)
    requires UnsetOk(unset) && Supported(o)
    ensures ReadOrder(OrderText(unset, id, o)) == Some(Content(id, o)) <==> PlainText(id) && PlainText(o.symbol)
  {
    if PlainText(id) && PlainText(o.symbol) {
      OrderRoundTrip(unset, id, o);
    }
    if ReadOrder(OrderText(unset, id, o)) == Some(Content(id, o)) {
      var ms := OrderMembers(unset, id, o);
      ObjectMembers(ms);
      FirstThree(unset, id, o);
      IdAndSymbolRecovered(ms, id, o.symbol);
    }
  }

  lemma FirstThree(unset: string, id: string, o: CreateOrder)
    requires o.orderType != OrderType.UNDEFINED
    ensures var ms := OrderMembers(unset, id, o);
      && |ms| > 3 && ms[0] == TextMember("tradeType", "FUTURES")
      && ms[1] == TextMember("clientOid", id) && ms[2] == TextMember("symbol", o.symbol)
  {
  }

  // ---- cancels

  lemma CancelOfMembers(order: Order)
    ensures var ms := CancelMembers(order); DistinctKeys(ms) && CancelOf(ms) == Some(CancelContent(order))
  {
    CancelFields(order);
    Lookup(CancelMembers(order), 0, "tradeType", Text("FUTURES"));
  }

  lemma CancelFinds(ms: seq<Member>, c: CancelReading)
    requires ms != [] && ReadCancel(Print(Object(ms))) == Some(c)
    ensures Finds(ms, "symbol", Text(c.symbol))
    ensures c.clientOid.Some? ==> Finds(ms, "clientOid", Text(c.clientOid.value))
    ensures c.orderId.Some? ==> Finds(ms, "orderId", Text(c.orderId.value))
  {
    ObjectMembers(ms);
  }

  lemma CancelRecovered(order: Order)
    requires ReadCancel(Print(Object(CancelMembers(order)))) == Some(CancelContent(order))
    ensures PlainText(IdUsed(order)) && PlainText(order.symbol)
  {
    var ms := CancelMembers(order);
    CancelFinds(ms, CancelContent(order));
    CancelKeys(order);
    LastTwoRecovered(ms, IdUsed(order));
  }

  lemma LastTwoRecovered(ms: seq<Member>, x: string)
    requires |ms| == 3 && ms[1].value == Text(x) && PlainText(ms[0].key) && Plain(ms[0].value) && PlainText(ms[1].key)
    requires ms[1].key != ms[0].key && ms[2].key != ms[0].key && ms[2].key != ms[1].key
    requires Finds(ms, ms[1].key, Text(x)) && Finds(ms, ms[2].key, ms[2].value)
    ensures PlainText(x) && Plain(ms[2].value)
  {
    SecondRecovered(ms, ms[1].key, x);
    ThirdRecovered(ms);
  }

  lemma CancelKeys(order: Order)
    ensures var ms := CancelMembers(order);
      && ms[0] == TextMember("tradeType", "FUTURES") && ms[1].value == Text(IdUsed(order)) && ms[2] == TextMember("symbol", order.symbol)
      && ms[1].key != ms[0].key && ms[1].key != ms[2].key && PlainText(ms[1].key)
  {
    RanksOfIds();
  }

  /** A reader of a cancel recovers the id that names the order, and the symbol, if and only
      if these need no escape. */
  lemma CancelRecoveredExact(order: Order)
    ensures ReadCancel(Print(Object(CancelMembers(order)))) == Some(CancelContent(order)) <==>
      PlainText(IdUsed(order)) && PlainText(order.symbol)
  {
    CancelTextExact(order);
    CancelOfMembers(order);
    if ReadCancel(Print(Object(CancelMembers(order)))) == Some(CancelContent(order)) {
      CancelRecovered(order);
    }
  }

  /** A cancel of everything names no order; its symbol is recovered under the same condition. */
  lemma CancelAllRecoveredExact(symbol: string)
    ensures ReadCancel(Print(Object(CancelAllMembers(symbol)))) == Some(CancelReading(None, None, symbol)) <==> PlainText(symbol)
  {
    CancelAllTextExact(symbol);
    CancelAllContent(symbol);
    if ReadCancel(Print(Object(CancelAllMembers(symbol)))) == Some(CancelReading(None, None, symbol)) {
      CancelAllRecovered(symbol);
    }
  }

  lemma CancelAllRecovered(symbol: string)
    requires ReadCancel(Print(Object(CancelAllMembers(symbol)))) == Some(CancelReading(None, None, symbol))
    ensures PlainText(symbol)
  {
    var ms := CancelAllMembers(symbol);
    CancelFinds(ms, CancelReading(None, None, symbol));
    SecondLast(ms);
  }

  lemma CancelAllContent(symbol: string)
    ensures var ms := CancelAllMembers(symbol); DistinctKeys(ms) && CancelOf(ms) == Some(CancelReading(None, None, symbol))
  {
    var ms := CancelAllMembers(symbol);
    RanksOfIds();
    FieldAt(ms, 0);
    FieldAt(ms, 1);
    FieldMissing(ms, "clientOid");
    FieldMissing(ms, "orderId");
  }

  // ---- the websocket envelope

  /** A reader of a websocket message recovers its id and its arguments if and only if no
      string in them needs an escape. */
  lemma WsRecoveredExact(id: string, op: string, args: seq<Member>)
    requires PlainText(op)
    ensures ReadWs(WsText(id, op, args)) == Some(WsReading(id, op, args)) <==> PlainText(id) && PlainMembers(args)
  {
    RoundTripExact(Object(WsMembers(id, op, args)));
    WsPlain(id, op, args);
    WsFields(id, op, args);
    if ReadWs(WsText(id, op, args)) == Some(WsReading(id, op, args)) {
      WsRecovered(id, op, args);
    }
  }

  lemma WsRecovered(id: string, op: string, args: seq<Member>)
    requires PlainText(op) && ReadWs(WsText(id, op, args)) == Some(WsReading(id, op, args))
    ensures PlainText(id) && PlainMembers(args)
  {
    var ms := WsMembers(id, op, args);
    ObjectMembers(ms);
    RanksOfWs();
    FirstRecovered(ms, "id", id);
    ThirdRecovered(ms);
  }

  /** So for an order, whose arguments are the body of the REST request. */
  lemma WsOrderRecoveredExact(unset: string, id: string, o: CreateOrder)
    requires PlainText(unset) && o.orderType != OrderType.UNDEFINED
    ensures var ms := OrderMembers(unset, id, o);
      ReadWs(WsText(id, "uta.order", ms)) == Some(WsReading(id, "uta.order", ms)) <==> PlainText(id) && PlainText(o.symbol)
  {
    WsRecoveredExact(id, "uta.order", OrderMembers(unset, id, o));
    OrderPlain(unset, id, o);
  }

  /** And for a cancel, which has an id of its own. */
  lemma WsCancelRecoveredExact(id: string, order: Order)
    ensures var ms := CancelMembers(order);
      ReadWs(WsText(id, "uta.cancel", ms)) == Some(WsReading(id, "uta.cancel", ms)) <==>
        PlainText(id) && PlainText(IdUsed(order)) && PlainText(order.symbol)
  {
    WsRecoveredExact(id, "uta.cancel", CancelMembers(order));
    CancelPlain(order);
  }
}
