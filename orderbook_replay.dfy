/** The depth-replay order book and the step order-flow-imbalance
    calculator of the offline replay script. The book keeps price → quantity
    maps for both sides and the id of the last applied update; the OFI
    calculator remembers the previous best quotes. Prices and quantities
    arrive already converted from text. */
module OrderbookReplay {
  import opened Common
  import opened Events

  // ---------------------------------------------------------------------------
  // Specification of the book's level loops
  // ---------------------------------------------------------------------------

  /** A snapshot side: every listed level is stored, a later duplicate price
      overriding an earlier one, zero quantities included. */
  function Loaded(levels: seq<Level>): (r: map<real, real>)
    ensures forall p :: p in r <==> exists i :: 0 <= i < |levels| && levels[i].price == p
  {
    if levels == [] then map[]
    else
      var last := levels[|levels| - 1];
      var prev := Loaded(levels[..|levels| - 1]);
      assert forall i :: 0 <= i < |levels| - 1 ==> levels[..|levels| - 1][i] == levels[i];
      prev[last.price := last.quantity]
  }

  /** One depth-update level: quantity zero deletes the price (nothing
      happens if it is absent), any other quantity sets it. */
  function ApplyLevel(side: map<real, real>, level: Level): map<real, real>
  {
    if level.quantity == 0.0 then side - {level.price}
    else side[level.price := level.quantity]
  }

  /** A depth-update side, level by level in order. */
  function ApplyLevels(side: map<real, real>, levels: seq<Level>): map<real, real>
  {
    if levels == [] then side
    else ApplyLevel(ApplyLevels(side, levels[..|levels| - 1]), levels[|levels| - 1])
  }

  predicate Named(levels: seq<Level>, p: real)
  {
    exists i :: 0 <= i < |levels| && levels[i].price == p
  }

  /** Prices the update does not name keep their level exactly, and no
      named price is left holding a zero quantity. */
  lemma {:induction false} ApplyLevelsFrame(side: map<real, real>, levels: seq<Level>)
    ensures forall p :: !Named(levels, p) ==>
              (p in ApplyLevels(side, levels) <==> p in side)
              && (p in side ==> ApplyLevels(side, levels)[p] == side[p])
    ensures forall p :: Named(levels, p) && p in ApplyLevels(side, levels) ==> ApplyLevels(side, levels)[p] != 0.0
  {
    if levels != [] {
      var prefix := levels[..|levels| - 1];
      ApplyLevelsFrame(side, prefix);
      forall p | Named(prefix, p)
        ensures Named(levels, p)
      {
        var i :| 0 <= i < |prefix| && prefix[i].price == p;
        assert levels[i].price == p;
      }
      forall p, i | !Named(prefix, p) && p != levels[|levels| - 1].price && 0 <= i < |levels|
        ensures levels[i].price != p
      {
        if i < |prefix| {
          assert prefix[i] == levels[i];
        }
      }
      assert Named(levels, levels[|levels| - 1].price);
    }
  }

  /** The last mention of a price decides it: after the update, a price
      whose last named quantity is zero is absent, any other holds that
      quantity. */
  lemma {:induction false} ApplyLevelsLastWins(side: map<real, real>, levels: seq<Level>, i: int)
    requires 0 <= i < |levels|
    requires forall j :: i < j < |levels| ==> levels[j].price != levels[i].price
    ensures levels[i].quantity == 0.0 ==> levels[i].price !in ApplyLevels(side, levels)
    ensures levels[i].quantity != 0.0 ==> ApplyLevels(side, levels) == ApplyLevels(side, levels)[levels[i].price := levels[i].quantity]
  {
    if i < |levels| - 1 {
      ApplyLevelsLastWins(side, levels[..|levels| - 1], i);
    }
  }

  // ---------------------------------------------------------------------------
  // Best quotes
  // ---------------------------------------------------------------------------

  predicate IsMaxKey(m: map<real, real>, p: real)
  {
    p in m && forall k :: k in m ==> k <= p
  }

  predicate IsMinKey(m: map<real, real>, p: real)
  {
    p in m && forall k :: k in m ==> p <= k
  }

  /** A non-empty side has a highest and a lowest price. */
  lemma {:induction false} ExtremesExist(m: map<real, real>)
    requires m != map[]
    ensures exists p :: IsMaxKey(m, p)
    ensures exists p :: IsMinKey(m, p)
  {
    if forall p :: p !in m {
      assert false;
    }
    var x :| x in m;
    var rest := m - {x};
    if rest == map[] {
      assert forall k :: k in m ==> k == x || k in rest;
      assert IsMaxKey(m, x) && IsMinKey(m, x);
    } else {
      ExtremesExist(rest);
      var hi :| IsMaxKey(rest, hi);
      var lo :| IsMinKey(rest, lo);
      assert forall k :: k in m ==> k == x || k in rest;
      assert IsMaxKey(m, Max(hi, x));
      assert IsMinKey(m, Min(lo, x));
    }
  }

  /** The extremes are unique, so the best quotes are determined by the book. */
  lemma ExtremesUnique(m: map<real, real>, p: real, q: real)
    ensures IsMaxKey(m, p) && IsMaxKey(m, q) ==> p == q
    ensures IsMinKey(m, p) && IsMinKey(m, q) ==> p == q
  {
  }

  /** The quotes the book reports: best bid, best ask and their quantities. */
  datatype Quote = Quote(bestBid: real, bestAsk: real, bidQty: real, askQty: real)

  const NoQuote := Quote(0.0, 0.0, 0.0, 0.0)

  /** `get_mid_price` from the reported quote: zero when either best price
      is zero, otherwise their average. */
  function QuoteMid(q: Quote): (r: real)
    ensures q.bestBid == 0.0 || q.bestAsk == 0.0 ==> r == 0.0
    ensures q.bestBid != 0.0 && q.bestAsk != 0.0 ==> r - q.bestBid == q.bestAsk - r
  {
    if q.bestBid == 0.0 || q.bestAsk == 0.0 then 0.0 else (q.bestBid + q.bestAsk) / 2.0
  }

  // ---------------------------------------------------------------------------
  // The book
  // ---------------------------------------------------------------------------

  class OrderBook {
    var bids: map<real, real>
    var asks: map<real, real>
    var lastUpdateId: int

    constructor()
      ensures bids == map[] && asks == map[] && lastUpdateId == 0
    {
      bids := map[];
      asks := map[];
      lastUpdateId := 0;
    }

    /** Replaces both sides wholesale and takes the snapshot's update id. */
    method ApplySnapshot(snapshotId: int, bidLevels: seq<Level>, askLevels: seq<Level>)
      modifies this
      ensures lastUpdateId == snapshotId
      ensures bids == Loaded(bidLevels) && asks == Loaded(askLevels)
    {
      lastUpdateId := snapshotId;
      bids := map[];
      asks := map[];
      var i := 0;
      while i < |bidLevels|
        invariant 0 <= i <= |bidLevels|
        invariant bids == Loaded(bidLevels[..i])
        invariant asks == map[] && lastUpdateId == snapshotId
      {
        assert bidLevels[..i + 1][..i] == bidLevels[..i];
        bids := bids[bidLevels[i].price := bidLevels[i].quantity];
        i := i + 1;
      }
      assert bidLevels[..i] == bidLevels;
      i := 0;
      while i < |askLevels|
        invariant 0 <= i <= |askLevels|
        invariant asks == Loaded(askLevels[..i])
        invariant bids == Loaded(bidLevels) && lastUpdateId == snapshotId
      {
        assert askLevels[..i + 1][..i] == askLevels[..i];
        asks := asks[askLevels[i].price := askLevels[i].quantity];
        i := i + 1;
      }
      assert askLevels[..i] == askLevels;
    }

    /** A depth update with final id `u`: ignored unless `u` is newer than
      the last applied id; otherwise the id advances to `u` and both sides
      apply their levels in order. */
    method Update(u: int, bidLevels: seq<Level>, askLevels: seq<Level>)
      modifies this
      ensures u <= old(lastUpdateId) ==> bids == old(bids) && asks == old(asks) && lastUpdateId == old(lastUpdateId)
      ensures u > old(lastUpdateId) ==>
                lastUpdateId == u
                && bids == ApplyLevels(old(bids), bidLevels)
                && asks == ApplyLevels(old(asks), askLevels)
      ensures lastUpdateId >= old(lastUpdateId)
    {
      if u <= lastUpdateId {
        return;
      }
      lastUpdateId := u;
      var i := 0;
      while i < |bidLevels|
        invariant 0 <= i <= |bidLevels|
        invariant bids == ApplyLevels(old(bids), bidLevels[..i])
        invariant lastUpdateId == u && asks == old(asks)
      {
        assert bidLevels[..i + 1][..i] == bidLevels[..i];
        var level := bidLevels[i];
        if level.quantity == 0.0 {
          if level.price in bids {
            bids := bids - {level.price};
          }
        } else {
          bids := bids[level.price := level.quantity];
        }
        i := i + 1;
      }
      assert bidLevels[..i] == bidLevels;
      i := 0;
      while i < |askLevels|
        invariant 0 <= i <= |askLevels|
        invariant asks == ApplyLevels(old(asks), askLevels[..i])
        invariant lastUpdateId == u && bids == ApplyLevels(old(bids), bidLevels)
      {
        assert askLevels[..i + 1][..i] == askLevels[..i];
        var level := askLevels[i];
        if level.quantity == 0.0 {
          if level.price in asks {
            asks := asks - {level.price};
          }
        } else {
          asks := asks[level.price := level.quantity];
        }
        i := i + 1;
      }
      assert askLevels[..i] == askLevels;
    }

    /** `get_best_bid_ask`: all zeros when either side is empty, otherwise
        the highest bid price, the lowest ask price and their quantities. */
    method BestBidAsk() returns (q: Quote)
      ensures (bids == map[] || asks == map[]) ==> q == NoQuote
      ensures bids != map[] && asks != map[] ==>
                IsMaxKey(bids, q.bestBid) && IsMinKey(asks, q.bestAsk)
                && q.bidQty == bids[q.bestBid] && q.askQty == asks[q.bestAsk]
    {
      if bids == map[] || asks == map[] {
        return NoQuote;
      }
      ExtremesExist(bids);
      ExtremesExist(asks);
      var bestBid :| IsMaxKey(bids, bestBid);
      var bestAsk :| IsMinKey(asks, bestAsk);
      q := Quote(bestBid, bestAsk, bids[bestBid], asks[bestAsk]);
    }

    /** `get_mid_price`. */
    method MidPrice() returns (mid: real)
      ensures (bids == map[] || asks == map[]) ==> mid == 0.0
      ensures bids != map[] && asks != map[] ==>
                exists bestBid, bestAsk :: IsMaxKey(bids, bestBid) && IsMinKey(asks, bestAsk)
                  && mid == QuoteMid(Quote(bestBid, bestAsk, 0.0, 0.0))
    {
      var q := BestBidAsk();
      mid := QuoteMid(q);
    }
  }

  // ---------------------------------------------------------------------------
  // Step OFI
  // ---------------------------------------------------------------------------

  /** The bid term: the new quantity when the bid rose, minus the old one
      when it fell, the quantity change when it held. */
  function BidTerm(prev: Quote, cur: Quote): real
  {
    if cur.bestBid > prev.bestBid then cur.bidQty
    else if cur.bestBid < prev.bestBid then -prev.bidQty
    else cur.bidQty - prev.bidQty
  }

  /** The ask term, mirrored: minus the old quantity when the ask rose, the
      new one when it fell, the change when it held. */
  function AskTerm(prev: Quote, cur: Quote): real
  {
    if cur.bestAsk > prev.bestAsk then -prev.askQty
    else if cur.bestAsk < prev.bestAsk then cur.askQty
    else cur.askQty - prev.askQty
  }

  /** The OFI of one step from the remembered quote `prev`: zero on the
      first tick (a zero previous best bid), otherwise bid term minus ask
      term. */
  function StepOfi(prev: Quote, cur: Quote): real
  {
    if prev.bestBid == 0.0 then 0.0 else BidTerm(prev, cur) - AskTerm(prev, cur)
  }

  class OfiCalculator {
    var prevBestBid: real
    var prevBestAsk: real
    var prevBidQty: real
    var prevAskQty: real

    function Previous(): Quote
      reads this
    {
      Quote(prevBestBid, prevBestAsk, prevBidQty, prevAskQty)
    }

    constructor()
      ensures Previous() == NoQuote
    {
      prevBestBid := 0.0;
      prevBestAsk := 0.0;
      prevBidQty := 0.0;
      prevAskQty := 0.0;
    }

    /** `calculate`: the step OFI against the remembered quote, which then
        becomes the given one. */
    method Calculate(bestBid: real, bestAsk: real, bidQty: real, askQty: real) returns (ofi: real)
      modifies this
      ensures ofi == StepOfi(old(Previous()), Quote(bestBid, bestAsk, bidQty, askQty))
      ensures Previous() == Quote(bestBid, bestAsk, bidQty, askQty)
    {
      if prevBestBid == 0.0 {
        prevBestBid, prevBestAsk, prevBidQty, prevAskQty := bestBid, bestAsk, bidQty, askQty;
        return 0.0;
      }
      var bidTerm: real;
      if bestBid > prevBestBid {
        bidTerm := bidQty;
      } else if bestBid < prevBestBid {
        bidTerm := -prevBidQty;
      } else {
        bidTerm := bidQty - prevBidQty;
      }
      var askTerm: real;
      if bestAsk > prevBestAsk {
        askTerm := -prevAskQty;
      } else if bestAsk < prevBestAsk {
        askTerm := askQty;
      } else {
        askTerm := askQty - prevAskQty;
      }
      ofi := bidTerm - askTerm;
      prevBestBid, prevBestAsk, prevBidQty, prevAskQty := bestBid, bestAsk, bidQty, askQty;
    }
  }

  /** An unchanged quote has zero OFI; with unchanged prices the OFI is the
      bid-quantity change minus the ask-quantity change. */
  lemma UnchangedQuoteHasNoFlow(prev: Quote, cur: Quote)
    requires cur.bestBid == prev.bestBid && cur.bestAsk == prev.bestAsk
    ensures StepOfi(prev, cur) == if prev.bestBid == 0.0 then 0.0 else (cur.bidQty - prev.bidQty) - (cur.askQty - prev.askQty)
    ensures cur == prev ==> StepOfi(prev, cur) == 0.0
  {
  }

  /** Buying pressure: a rising bid and a rising ask both push the OFI up by
      the quantities involved, a falling bid and a falling ask push it down. */
  lemma OfiDirection(prev: Quote, cur: Quote)
    requires prev.bestBid != 0.0
    ensures cur.bestBid > prev.bestBid && cur.bestAsk > prev.bestAsk ==> StepOfi(prev, cur) == cur.bidQty + prev.askQty
    ensures cur.bestBid < prev.bestBid && cur.bestAsk < prev.bestAsk ==> StepOfi(prev, cur) == -prev.bidQty - cur.askQty
  {
  }

  /** A zero previous best bid is the first tick, which reports zero; an
      empty book reports all zeros, so feeding it to the calculator puts it
      back into that state and the next step reports zero whatever the
      quotes. */
  lemma EmptyBookResets(prev: Quote, next: Quote)
    ensures prev.bestBid == 0.0 ==> StepOfi(prev, next) == 0.0
    ensures StepOfi(NoQuote, next) == 0.0
  {
  }
}
