/** The Kotak Neo tool's symbol handling and order placement mapping.
    Symbols have the form "EXCHANGE|SYMBOL"; the segment defaults to "nse_cm"
    when there is no "|". The broker client is the parameter `place`, which
    returns the response's "nOrdNo" entry (`None` when the response has none)
    or raises; Python's `str()` of a float is the parameter `formatFloat`. */
module KotakNeoTool {
  import opened Common
  import opened Models
  import opened Text

  /** `_get_exchange_segment`: the text before the first "|", or "nse_cm". */
  function ExchangeSegment(symbol: string): (r: string)
    ensures '|' !in symbol ==> r == "nse_cm"
    ensures '|' in symbol ==> r == symbol[..IndexOf(symbol, '|')]
  {
    if '|' in symbol then Split(symbol, '|')[0] else "nse_cm"
  }

  /** `_get_trading_symbol`: the text between the first and the second "|"
      (or the end), or the whole symbol when there is no "|". */
  function TradingSymbol(symbol: string): (r: string)
    ensures '|' !in r
    ensures '|' !in symbol ==> r == symbol
    ensures '|' in symbol ==>
      var rest := symbol[IndexOf(symbol, '|') + 1..];
      r == (if '|' in rest then rest[..IndexOf(rest, '|')] else rest)
  {
    if '|' in symbol then
      var rest := symbol[IndexOf(symbol, '|') + 1..];
      assert Split(symbol, '|') == [symbol[..IndexOf(symbol, '|')]] + Split(rest, '|');
      assert Split(rest, '|')[0] == if '|' in rest then rest[..IndexOf(rest, '|')] else rest;
      Split(symbol, '|')[1]
    else symbol
  }

  /** With exactly one "|", the segment, a "|" and the trading symbol put the
      symbol back together. */
  lemma SegmentAndSymbolReconstruct(symbol: string)
    requires multiset(symbol)['|'] == 1
    ensures ExchangeSegment(symbol) + "|" + TradingSymbol(symbol) == symbol
  {
    var i := IndexOf(symbol, '|');
    var rest := symbol[i + 1..];
    assert symbol == symbol[..i] + [symbol[i]] + rest;
    assert multiset(symbol) == multiset(symbol[..i]) + multiset([symbol[i]]) + multiset(rest);
    assert multiset(symbol[..i])['|'] == 0;
    assert '|' !in rest;
  }

  /** The first "|" of a symbol is the one with none before it. */
  lemma FirstBarAt(symbol: string, i: nat)
    requires i < |symbol| && symbol[i] == '|' && '|' !in symbol[..i]
    ensures '|' in symbol && IndexOf(symbol, '|') == i
  {
  }

  /** With a second "|", the segment is the text before the first one and
      the trading symbol the text between the two: everything from the second
      "|" on is lost. */
  lemma {:induction false} SecondBarIsLost(segment: string, name: string, tail: string)
    requires '|' !in segment && '|' !in name
    ensures ExchangeSegment(segment + "|" + name + "|" + tail) == segment
    ensures TradingSymbol(segment + "|" + name + "|" + tail) == name
  {
    var s := segment + "|" + name + "|" + tail;
    assert s[..|segment|] == segment;
    FirstBarAt(s, |segment|);
    var rest := s[|segment| + 1..];
    assert rest == name + "|" + tail;
    assert rest[..|name|] == name;
    FirstBarAt(rest, |name|);
  }

  /** The arguments `execute_order` passes to the broker's `place_order`. */
  datatype PlaceOrderRequest = PlaceOrderRequest(
    exchangeSegment: string,
    product: string,
    price: string,
    orderType: string,
    quantity: string,
    validity: string,
    tradingSymbol: string,
    transactionType: string)

  /** The field mapping of `execute_order`: BUY is "B" and anything else "S";
      MARKET is "MKT" and every other order type "L"; the price is "0" when it
      is unset or zero; the product is intraday ("MIS") and the validity "DAY". */
  function OrderRequest(order: Order, formatFloat: real -> string): (r: PlaceOrderRequest)
    ensures r.transactionType == "B" <==> order.side == Buy
    ensures r.transactionType == "S" <==> order.side == Sell
    ensures r.orderType == "MKT" <==> order.orderType == Market
    ensures r.orderType == "L" <==> order.orderType != Market
    ensures !Truthy(order.price) ==> r.price == "0"
    ensures Truthy(order.price) ==> r.price == formatFloat(order.price.value)
    ensures r.quantity == formatFloat(order.quantity)
    ensures r.product == "MIS" && r.validity == "DAY"
    ensures r.exchangeSegment == ExchangeSegment(order.symbol) && r.tradingSymbol == TradingSymbol(order.symbol)
  {
    PlaceOrderRequest(
      ExchangeSegment(order.symbol),
      "MIS",
      if Truthy(order.price) then formatFloat(order.price.value) else "0",
      if order.orderType == Market then "MKT" else "L",
      formatFloat(order.quantity),
      "DAY",
      TradingSymbol(order.symbol),
      if order.side == Buy then "B" else "S")
  }

  /** Stop-loss and take-profit orders are sent as plain limit orders: the
      stop price is not passed to the broker at all. */
  lemma StopOrdersSentAsLimit(order: Order, formatFloat: real -> string)
    requires order.orderType == StopLoss || order.orderType == TakeProfit
    ensures OrderRequest(order, formatFloat).orderType == "L"
    ensures OrderRequest(order, formatFloat) == OrderRequest(order.(stopPrice := None), formatFloat)
  {
  }

  /** `execute_order`: raises when the client is not set up; otherwise a
      placement that returns is reported as an accepted, unfilled "OPEN"
      order carrying the broker's order number ("" when the response has
      none), and one that raises as an "ERROR" result with its message. */
  function ExecuteOrder(clientReady: bool, order: Order, formatFloat: real -> string,
                        place: PlaceOrderRequest -> Outcome<Option<string>>): (r: Outcome<ExecutionResult>)
    ensures !clientReady <==> r == Raised("Client not initialized")
    ensures r.Returned? ==> (r.value.success <==> place(OrderRequest(order, formatFloat)).Returned?)
    ensures r.Returned? && r.value.success ==>
      r.value.status == "OPEN" && r.value.filledQuantity == 0.0 && r.value.filledPrice.None?
      && r.value.orderId == Some(match place(OrderRequest(order, formatFloat)).value case Some(n) => n case None => "")
    ensures r.Returned? && !r.value.success ==>
      r.value.status == "ERROR" && r.value.orderId.None? && r.value.filledQuantity == 0.0
      && r.value.errorMessage == Some(place(OrderRequest(order, formatFloat)).message)
  {
    if !clientReady then Raised("Client not initialized")
    else
      match place(OrderRequest(order, formatFloat))
      case Returned(orderNumber) =>
        var orderId := match orderNumber case Some(n) => n case None => "";
        Returned(ExecutionResult(true, Some(orderId), 0.0, None, "OPEN", None))
      case Raised(message) =>
        Returned(ExecutionResult(false, None, 0.0, None, "ERROR", Some(message)))
  }
}
