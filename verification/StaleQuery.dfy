/** The query string of an order-detail request (gateway/order_entry_rest.cpp). The only
    caller passes its three texts in another order than the parameters expect. */
module StaleQuery {

  /** The order as the dispatcher hands it to the REST stream. */
  datatype Order = Order(symbol: string, clientOrderId: string, externalOrderId: string)

  /** What a query asks the exchange for. */
  datatype Identity = ClientOid(id: string) | OrderId(id: string)

  datatype Query = Query(symbol: string, identity: Identity)

  const PREFIX := "?accountMode=UNIFIED&tradeType=FUTURES&symbol="

  function Render(q: Query): string {
    PREFIX + q.symbol +
    match q.identity
    case ClientOid(id) => "&clientOid=" + id
    case OrderId(id) => "&orderId=" + id
  }

  /** The query the parameters of `get_order` describe: the external id if there is one,
      else the client id. */
  function Asked(clientOrderId: string, externalOrderId: string, symbol: string): Query {
    Query(symbol, if externalOrderId == "" then ClientOid(clientOrderId) else OrderId(externalOrderId))
  }

  /** The buffer of the stream, appended to piece by piece. */
  class Buffer {
    var text: string

    constructor ()
      ensures text == ""
    {
      text := "";
    }

    method Clear()
      modifies this
      ensures text == ""
    {
      text := "";
    }

    method Append(piece: string)
      modifies this
      ensures text == old(text) + piece
    {
      text := text + piece;
    }
  }

  /** `get_order`: whatever the buffer held, it holds the query of the arguments. */
  method GetOrder(buffer: Buffer, clientOrderId: string, externalOrderId: string, symbol: string) returns (query: string)
    modifies buffer
    ensures query == buffer.text == Render(Asked(clientOrderId, externalOrderId, symbol))
    ensures query == "?accountMode=UNIFIED&tradeType=FUTURES&symbol=" + symbol
      + if externalOrderId == "" then "&clientOid=" + clientOrderId else "&orderId=" + externalOrderId
  {
    buffer.Clear();
    buffer.Append(PREFIX + symbol);
    assert buffer.text == PREFIX + symbol;
    if externalOrderId == "" {
      buffer.Append("&clientOid=" + clientOrderId);
    } else {
      buffer.Append("&orderId=" + externalOrderId);
    }
    query := buffer.text;
  }

  /** The call made for each stale order: symbol, client id and external id land in the
      parameters for client id, external id and symbol. */
  method RequestDetail(buffer: Buffer, order: Order) returns (query: string)
    modifies buffer
    ensures query == Render(Sent(order))
    ensures query == "?accountMode=UNIFIED&tradeType=FUTURES&symbol=" + order.externalOrderId
      + if order.clientOrderId == "" then "&clientOid=" + order.symbol else "&orderId=" + order.clientOrderId
  {
    query := GetOrder(buffer, order.symbol, order.clientOrderId, order.externalOrderId);
  }

  function Sent(order: Order): Query { Asked(order.symbol, order.clientOrderId, order.externalOrderId) }

  function Intended(order: Order): Query { Asked(order.clientOrderId, order.externalOrderId, order.symbol) }

  /** The query names the right symbol and the right order exactly when symbol, client id
      and external id are the same text. */
  lemma DetailQueryExact(order: Order)
    ensures Sent(order) == Intended(order) <==>
      order.symbol == order.clientOrderId && order.clientOrderId == order.externalOrderId
  {
  }

  /** What goes wrong for an order that has both ids: the exchange is asked for the symbol
      named like the external id and for the order id named like the client id. */
  lemma DetailQueryOfAcknowledgedOrder(order: Order)
    requires order.clientOrderId != ""
    ensures Sent(order) == Query(order.externalOrderId, OrderId(order.clientOrderId))
    ensures order.externalOrderId != "" ==> Intended(order) == Query(order.symbol, OrderId(order.externalOrderId))
  {
  }

  /** A concrete order whose detail request asks for something else. */
  lemma DetailQueryExample()
    ensures var order := Order("XBTUSDTM", "c1", "e1");
      Sent(order) == Query("e1", OrderId("c1")) && Intended(order) == Query("XBTUSDTM", OrderId("e1"))
      && Sent(order) != Intended(order)
  {
  }

  // ---- what the exchange reads

  /** The text up to the next ampersand, and what follows from there on. */
  function Value(s: string): (string, string) {
    if s == "" || s[0] == '&' then ("", s) else var r := Value(s[1..]); ([s[0]] + r.0, r.1)
  }

  /** Reads the parameter that names the order. */
  function ReadIdentity(text: string): Identity {
    if "&clientOid=" <= text then ClientOid(text[11..])
    else if "&orderId=" <= text then OrderId(text[9..])
    else OrderId("")
  }

  /** Reads a query by the names of its parameters; the id is the rest of the text. */
  function Read(text: string): Query {
    if "?accountMode=UNIFIED&tradeType=FUTURES&symbol=" <= text then
      var (symbol, rest) := Value(text[46..]); Query(symbol, ReadIdentity(rest))
    else Query("", OrderId(""))
  }

  lemma {:induction false} ValueRead(symbol: string, rest: string)
    requires '&' !in symbol && rest != "" && rest[0] == '&'
    ensures Value(symbol + rest) == (symbol, rest)
  {
    if symbol == "" {
      assert symbol + rest == rest;
    } else {
      ValueRead(symbol[1..], rest);
      assert (symbol + rest)[0] == symbol[0] && (symbol + rest)[1..] == symbol[1..] + rest;
      assert [symbol[0]] + symbol[1..] == symbol;
    }
  }

  function Tail(identity: Identity): string {
    match identity
    case ClientOid(id) => "&clientOid=" + id
    case OrderId(id) => "&orderId=" + id
  }

  lemma IdentityRead(identity: Identity)
    ensures ReadIdentity(Tail(identity)) == identity
  {
    match identity {
      case ClientOid(id) => assert ("&clientOid=" + id)[11..] == id;
      case OrderId(id) => assert ("&orderId=" + id)[9..] == id && ("&orderId=" + id)[1] == 'o';
    }
  }

  lemma PrefixRead(rest: string)
    ensures "?accountMode=UNIFIED&tradeType=FUTURES&symbol=" <= PREFIX + rest && (PREFIX + rest)[46..] == rest
  {
  }

  lemma Rendered(q: Query)
    ensures Render(q) == PREFIX + (q.symbol + Tail(q.identity))
  {
  }

  /** A query is read back as what it asks for, if its symbol has no ampersand. */
  lemma QueryRoundTrip(q: Query)
    requires '&' !in q.symbol
    ensures Read(Render(q)) == q
  {
    Rendered(q);
    PrefixRead(q.symbol + Tail(q.identity));
    ValueRead(q.symbol, Tail(q.identity));
    IdentityRead(q.identity);
  }
}
