/** Market-data events: trades, order-book updates and klines, with the
    accessors the feature engine reads from them. */
module Events {
  import opened Common

  datatype TradeEvent = TradeEvent(symbol: string, price: real, quantity: real, isBuy: bool, tradeId: string)

  /** One book level, `(price, quantity)`. */
  datatype Level = Level(price: real, quantity: real)

  /** An order-book snapshot; the first level of each side is read as the best. */
  datatype OrderbookUpdate = OrderbookUpdate(symbol: string, bids: seq<Level>, asks: seq<Level>)

  datatype KlineEvent = KlineEvent(
    symbol: string, interval: string,
    open: real, high: real, low: real, close: real, volume: real, numTrades: int)

  /** `get_mid_price`: absent when either side is empty, otherwise the average
      of the FIRST bid and FIRST ask (not the highest bid or lowest ask). */
  function MidPrice(ob: OrderbookUpdate): (r: Option<real>)
    ensures r.None? <==> (ob.bids == [] || ob.asks == [])
    ensures r.Some? ==> r.value - ob.bids[0].price == ob.asks[0].price - r.value
  {
    if ob.bids == [] || ob.asks == [] then None
    else Some((ob.bids[0].price + ob.asks[0].price) / 2.0)
  }

  /** `get_spread`: absent when either side is empty, otherwise first ask price
      minus first bid price. */
  function Spread(ob: OrderbookUpdate): (r: Option<real>)
    ensures r.None? <==> (ob.bids == [] || ob.asks == [])
    ensures r.Some? ==> ob.bids[0].price + r.value == ob.asks[0].price
  {
    if ob.bids == [] || ob.asks == [] then None
    else Some(ob.asks[0].price - ob.bids[0].price)
  }

  /** `get_imbalance`: (bid qty - ask qty) / (bid qty + ask qty) at the first
      level, zero when a side is empty or the total is zero; in [-1, 1] when
      both quantities are non-negative, and its sign follows the larger side. */
  function Imbalance(ob: OrderbookUpdate): (r: real)
    ensures (ob.bids == [] || ob.asks == []) ==> r == 0.0
    ensures ob.bids != [] && ob.asks != [] && ob.bids[0].quantity + ob.asks[0].quantity == 0.0 ==> r == 0.0
    ensures ob.bids != [] && ob.asks != [] && ob.bids[0].quantity >= 0.0 && ob.asks[0].quantity >= 0.0 ==>
              -1.0 <= r <= 1.0 && (r > 0.0 <==> ob.bids[0].quantity > ob.asks[0].quantity)
  {
    if ob.bids == [] || ob.asks == [] then 0.0
    else
      var b := ob.bids[0].quantity;
      var a := ob.asks[0].quantity;
      var total := b + a;
      if total == 0.0 then 0.0
      else
        assert b >= 0.0 && a >= 0.0 ==> -1.0 <= (b - a) / total <= 1.0 && ((b - a) / total > 0.0 <==> b > a) by {
          if b >= 0.0 && a >= 0.0 {
            ShareOfTotal(b, a);
          }
        }
        (b - a) / total
  }

  /** The difference of two non-negative quantities, as a share of their
      non-zero total, lies in [-1, 1] and is positive exactly when the first
      is larger. */
  lemma ShareOfTotal(b: real, a: real)
    requires b >= 0.0 && a >= 0.0 && b + a != 0.0
    ensures -1.0 <= (b - a) / (b + a) <= 1.0
    ensures (b - a) / (b + a) > 0.0 <==> b > a
  {
    DivBetween(b - a, b + a, -1.0, 1.0);
    assert (b - a) / (b + a) * (b + a) == b - a;
  }

  /** `KlineEvent.get_typical_price`: (high + low + close) / 3, which lies
      between low and high whenever low <= close <= high. */
  function TypicalPrice(k: KlineEvent): (r: real)
    ensures k.low <= k.close <= k.high ==> k.low <= r <= k.high
  {
    (k.high + k.low + k.close) / 3.0
  }
}
