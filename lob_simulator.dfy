/** The limit-order-book simulator used in testing and backtesting. Each
    side is a binary heap of `(key, quantity, stamp)` tuples ordered
    lexicographically, the key being the price for asks and the negated price
    for bids, so the heap's least element is the best level. The model keeps
    each side as a list sorted by that same order: its head is what a heap
    pop or peek returns. Because the tuple compares the quantity before the
    stamp, two orders at one price fill smaller-first, not oldest-first. */
module LobSimulator {
  import opened Common
  import opened Models
  import opened Events

  /** One resting order: `key` is the price for an ask and minus the price
      for a bid; `stamp` is the order counter when it was pushed. */
  datatype Entry = Entry(key: real, quantity: real, stamp: int)

  /** Python's tuple order on `(key, quantity, stamp)`. */
  predicate Le(a: Entry, b: Entry)
  {
    a.key < b.key || (a.key == b.key && (a.quantity < b.quantity || (a.quantity == b.quantity && a.stamp <= b.stamp)))
  }

  predicate Sorted(s: seq<Entry>)
  {
    forall i, j :: 0 <= i < j < |s| ==> Le(s[i], s[j])
  }

  /** At one price the smaller quantity comes first whatever the stamps, so
      a larger, older order waits behind a smaller, newer one. */
  lemma SizeBeforeTime(a: Entry, b: Entry)
    requires a.key == b.key && a.quantity < b.quantity
    ensures Le(a, b) && !Le(b, a)
  {
  }

  /** `heappush`: the side with one more entry. */
  function Insert(s: seq<Entry>, e: Entry): (r: seq<Entry>)
    ensures |r| == |s| + 1
    ensures multiset(r) == multiset(s) + multiset{e}
  {
    if s == [] || Le(e, s[0]) then [e] + s
    else
      assert s == [s[0]] + s[1..];
      [s[0]] + Insert(s[1..], e)
  }

  /** Pushing keeps the heap order. */
  lemma {:induction false} InsertSorted(s: seq<Entry>, e: Entry)
    requires Sorted(s)
    ensures Sorted(Insert(s, e))
  {
    if s != [] && !Le(e, s[0]) {
      var tail := Insert(s[1..], e);
      assert Sorted(s[1..]);
      InsertSorted(s[1..], e);
      forall x | x in tail
        ensures Le(s[0], x)
      {
        assert x in multiset(tail);
        if x != e {
          assert x in s[1..];
        }
      }
      assert Insert(s, e) == [s[0]] + tail;
    }
  }

  /** Total resting quantity of a side. */
  function Total(s: seq<Entry>): real
  {
    if s == [] then 0.0 else s[0].quantity + Total(s[1..])
  }

  lemma {:induction false} TotalInsert(s: seq<Entry>, e: Entry)
    ensures Total(Insert(s, e)) == Total(s) + e.quantity
  {
    if s != [] && !Le(e, s[0]) {
      TotalInsert(s[1..], e);
    }
  }

  // ---------------------------------------------------------------------------
  // Matching a market order
  // ---------------------------------------------------------------------------

  datatype Fill = Fill(rest: seq<Entry>, counter: int, cost: real, filled: real)

  function PriceOf(e: Entry, bidSide: bool): real
  {
    if bidSide then -e.key else e.key
  }

  /** The cost of taking `take` from entry `e`. */
  function TakeCost(take: real, e: Entry, bidSide: bool): real
  {
    take * PriceOf(e, bidSide)
  }

  /** What one pass of the matching loop leaves: the popped head's
      remainder pushed back with the next counter value when it was only
      partly taken. */
  function AfterTake(side: seq<Entry>, take: real, counter: int): (r: seq<Entry>)
    requires side != []
    ensures |r| < |side| || (side[0].quantity > take && |r| == |side|)
    ensures Total(r) == Total(side) - (if side[0].quantity > take then take else side[0].quantity)
  {
    var top := side[0];
    if top.quantity > take then
      var pushed := Entry(top.key, top.quantity - take, counter);
      TotalInsert(side[1..], pushed);
      Insert(side[1..], pushed)
    else side[1..]
  }

  /** What a pass leaves is the rest of the side, plus the head's remainder
      when it was only partly taken. */
  lemma AfterTakeContents(side: seq<Entry>, take: real, counter: int)
    requires side != []
    ensures forall x :: x in side[1..] ==> x in AfterTake(side, take, counter)
    ensures forall x :: x in AfterTake(side, take, counter) ==>
              x in side[1..] || (x.key == side[0].key && x.quantity == side[0].quantity - take && side[0].quantity > take)
  {
    var top := side[0];
    if top.quantity > take {
      var pushed := Entry(top.key, top.quantity - take, counter);
      var r := Insert(side[1..], pushed);
      assert forall x :: x in side[1..] ==> x in multiset(r);
      assert forall x :: x in r ==> x in multiset(side[1..]) + multiset{pushed};
    }
  }

  /** The matching loop against one side: while quantity remains and the
      side is not empty, pop the best entry, take the smaller of it and the
      remainder, and push back what is left of it. */
  function Match(side: seq<Entry>, remaining: real, counter: int, bidSide: bool): Fill
    decreases |side| + (if remaining > 0.0 then 1 else 0)
  {
    if remaining <= 0.0 || side == [] then Fill(side, counter, 0.0, 0.0)
    else
      var top := side[0];
      var take := Min(remaining, top.quantity);
      var next := Match(AfterTake(side, take, counter), remaining - take,
                        if top.quantity > take then counter + 1 else counter, bidSide);
      Fill(next.rest, next.counter, TakeCost(take, top, bidSide) + next.cost, take + next.filled)
  }

  /** Conservation: the quantity leaving the side is exactly the quantity
      filled. */
  lemma {:induction false} MatchConserves(side: seq<Entry>, remaining: real, counter: int, bidSide: bool)
    ensures Total(Match(side, remaining, counter, bidSide).rest) + Match(side, remaining, counter, bidSide).filled == Total(side)
    decreases |side| + (if remaining > 0.0 then 1 else 0)
  {
    if remaining > 0.0 && side != [] {
      var top := side[0];
      var take := Min(remaining, top.quantity);
      MatchConserves(AfterTake(side, take, counter), remaining - take,
                     if top.quantity > take then counter + 1 else counter, bidSide);
    }
  }

  /** Nothing is filled for a non-positive quantity; otherwise the fill
      never exceeds the quantity asked for, and falls short of it only when
      the side has run out. The counter never goes back. */
  lemma {:induction false} MatchBounds(side: seq<Entry>, remaining: real, counter: int, bidSide: bool)
    ensures var f := Match(side, remaining, counter, bidSide);
      && (remaining <= 0.0 ==> f == Fill(side, counter, 0.0, 0.0))
      && (remaining > 0.0 ==> f.filled <= remaining && (f.filled < remaining ==> f.rest == []))
      && f.counter >= counter
    decreases |side| + (if remaining > 0.0 then 1 else 0)
  {
    if remaining > 0.0 && side != [] {
      var top := side[0];
      var take := Min(remaining, top.quantity);
      MatchBounds(AfterTake(side, take, counter), remaining - take,
                  if top.quantity > take then counter + 1 else counter, bidSide);
    }
  }

  /** The loop pops the head and may push back a remainder: the side stays
      in heap order and no key drops below the popped head's. */
  lemma AfterTakeSorted(side: seq<Entry>, take: real, counter: int)
    requires Sorted(side) && side != []
    ensures Sorted(AfterTake(side, take, counter))
    ensures forall x :: x in AfterTake(side, take, counter) ==> side[0].key <= x.key
  {
    AfterTakeContents(side, take, counter);
    assert Sorted(side[1..]);
    assert forall x :: x in side[1..] ==> Le(side[0], x);
    if side[0].quantity > take {
      InsertSorted(side[1..], Entry(side[0].key, side[0].quantity - take, counter));
    }
  }

  /** A lower bound on the keys of a side survives matching. */
  lemma {:induction false} MatchKeysAbove(side: seq<Entry>, remaining: real, counter: int, bidSide: bool, bound: real)
    requires forall x :: x in side ==> bound <= x.key
    ensures forall x :: x in Match(side, remaining, counter, bidSide).rest ==> bound <= x.key
    decreases |side| + (if remaining > 0.0 then 1 else 0)
  {
    if remaining > 0.0 && side != [] {
      var take := Min(remaining, side[0].quantity);
      assert side[0] in side;
      AfterTakeContents(side, take, counter);
      MatchKeysAbove(AfterTake(side, take, counter), remaining - take,
                     if side[0].quantity > take then counter + 1 else counter, bidSide, bound);
    }
  }

  /** Matching keeps the heap order. */
  lemma {:induction false} MatchSorted(side: seq<Entry>, remaining: real, counter: int, bidSide: bool)
    requires Sorted(side)
    ensures Sorted(Match(side, remaining, counter, bidSide).rest)
    decreases |side| + (if remaining > 0.0 then 1 else 0)
  {
    if remaining > 0.0 && side != [] {
      var take := Min(remaining, side[0].quantity);
      AfterTakeSorted(side, take, counter);
      MatchSorted(AfterTake(side, take, counter), remaining - take,
                  if side[0].quantity > take then counter + 1 else counter, bidSide);
    }
  }

  /** Every entry of `side` that is not in `rest` has a key no larger than
      that of any entry in `rest`, i.e. a price no worse. */
  predicate TakenBefore(side: seq<Entry>, rest: seq<Entry>)
  {
    forall e, x :: e in side && e !in rest && x in rest ==> e.key <= x.key
  }

  /** Taking the head first, then the rest of the side in best-first order,
      is best-first order for the whole side. */
  lemma TakenBeforeStep(side: seq<Entry>, take: real, counter: int, rest: seq<Entry>)
    requires side != []
    requires forall x :: x in rest ==> side[0].key <= x.key
    requires TakenBefore(AfterTake(side, take, counter), rest)
    ensures TakenBefore(side, rest)
  {
    AfterTakeContents(side, take, counter);
    forall e, x | e in side && e !in rest && x in rest
      ensures e.key <= x.key
    {
      if e != side[0] {
        assert e in side[1..];
      }
    }
  }

  /** The best price is consumed first: every entry that left the side (or
      was cut down) has a key no larger than that of any entry still
      resting. */
  lemma {:induction false} MatchBestFirst(side: seq<Entry>, remaining: real, counter: int, bidSide: bool)
    requires Sorted(side)
    ensures TakenBefore(side, Match(side, remaining, counter, bidSide).rest)
    decreases |side| + (if remaining > 0.0 then 1 else 0)
  {
    if remaining > 0.0 && side != [] {
      var take := Min(remaining, side[0].quantity);
      var nextCounter := if side[0].quantity > take then counter + 1 else counter;
      var after := AfterTake(side, take, counter);
      var rest := Match(after, remaining - take, nextCounter, bidSide).rest;
      AfterTakeSorted(side, take, counter);
      MatchBestFirst(after, remaining - take, nextCounter, bidSide);
      assert TakenBefore(after, rest);
      MatchKeysAbove(after, remaining - take, nextCounter, bidSide, side[0].key);
      assert forall x :: x in rest ==> side[0].key <= x.key;
      TakenBeforeStep(side, take, counter, rest);
      MatchStep(side, remaining, counter, bidSide);
    }
  }

  /** With positive resting quantities the fill is non-negative and every
      entry left behind still has a positive quantity. */
  lemma {:induction false} MatchKeepsPositive(side: seq<Entry>, remaining: real, counter: int, bidSide: bool)
    requires forall i :: 0 <= i < |side| ==> side[i].quantity > 0.0
    ensures var f := Match(side, remaining, counter, bidSide);
      f.filled >= 0.0 && forall i :: 0 <= i < |f.rest| ==> f.rest[i].quantity > 0.0
    decreases |side| + (if remaining > 0.0 then 1 else 0)
  {
    if remaining > 0.0 && side != [] {
      var top := side[0];
      var take := Min(remaining, top.quantity);
      var after := AfterTake(side, take, counter);
      AfterTakeContents(side, take, counter);
      assert forall x :: x in side[1..] ==> x.quantity > 0.0;
      assert forall i :: 0 <= i < |after| ==> after[i] in after;
      MatchKeepsPositive(after, remaining - take, if top.quantity > take then counter + 1 else counter, bidSide);
    }
  }

  /** A fill with `cost` and `filled` already accumulated in front of it. */
  function Prefixed(f: Fill, cost: real, filled: real): Fill
  {
    Fill(f.rest, f.counter, cost + f.cost, filled + f.filled)
  }

  /** One unfolding of the loop: the first pass's take, counted in front of
      the rest of the fill. */
  lemma MatchStep(side: seq<Entry>, remaining: real, counter: int, bidSide: bool)
    requires remaining > 0.0 && side != []
    ensures var take := Min(remaining, side[0].quantity);
      Match(side, remaining, counter, bidSide)
      == Prefixed(Match(AfterTake(side, take, counter), remaining - take,
                        if side[0].quantity > take then counter + 1 else counter, bidSide),
                  TakeCost(take, side[0], bidSide), take)
  {
  }

  lemma PrefixedTwice(f: Fill, cost: real, filled: real, cost2: real, filled2: real)
    ensures Prefixed(Prefixed(f, cost2, filled2), cost, filled) == Prefixed(f, cost + cost2, filled + filled2)
  {
  }

  /** One pass of the loop: pop the best entry, fill what it can, push back
      its remainder. The pass leaves the overall fill unchanged once the
      totals it adds are counted in front. */
  method TakeBest(rest: seq<Entry>, remaining: real, counter: int, bidSide: bool, cost: real, filled: real)
    returns (rest': seq<Entry>, remaining': real, counter': int, cost': real, filled': real)
    requires remaining > 0.0 && rest != []
    ensures Prefixed(Match(rest', remaining', counter', bidSide), cost', filled')
         == Prefixed(Match(rest, remaining, counter, bidSide), cost, filled)
    ensures |rest'| + (if remaining' > 0.0 then 1 else 0) < |rest| + 1
  {
    var top := rest[0];
    var take := Min(remaining, top.quantity);
    rest' := AfterTake(rest, take, counter);
    counter' := if top.quantity > take then counter + 1 else counter;
    remaining' := remaining - take;
    cost' := cost + TakeCost(take, top, bidSide);
    filled' := filled + take;
    MatchStep(rest, remaining, counter, bidSide);
    PrefixedTwice(Match(rest', remaining', counter', bidSide), cost, filled, TakeCost(take, top, bidSide), take);
  }

  /** The matching loop of `execute_market_order`, on one side. */
  method MatchLoop(side: seq<Entry>, quantity: real, counter: int, bidSide: bool) returns (f: Fill)
    ensures f == Match(side, quantity, counter, bidSide)
  {
    var rest := side;
    var remaining := quantity;
    var nextCounter := counter;
    var cost := 0.0;
    var filled := 0.0;
    while remaining > 0.0 && rest != []
      invariant Match(side, quantity, counter, bidSide) == Prefixed(Match(rest, remaining, nextCounter, bidSide), cost, filled)
      decreases |rest| + (if remaining > 0.0 then 1 else 0)
    {
      rest, remaining, nextCounter, cost, filled := TakeBest(rest, remaining, nextCounter, bidSide, cost, filled);
    }
    f := Fill(rest, nextCounter, cost, filled);
  }

  /** The average fill price: total cost over filled quantity, or zero when
      nothing filled. */
  function AveragePrice(f: Fill): real
  {
    if f.filled > 0.0 then f.cost / f.filled else 0.0
  }

  /** Every resting key at or above `bound`, every quantity positive. */
  predicate AllAbove(side: seq<Entry>, bound: real)
  {
    forall x :: x in side ==> bound <= x.key && x.quantity > 0.0
  }

  /** Taking a non-negative quantity at a key no better than `bound` costs
      at least (asks) or pays at most (bids) that quantity at the bound. */
  lemma TakeCostBound(take: real, e: Entry, bidSide: bool, bound: real)
    requires take >= 0.0 && bound <= e.key
    ensures !bidSide ==> TakeCost(take, e, bidSide) >= bound * take
    ensures bidSide ==> TakeCost(take, e, bidSide) <= -bound * take
  {
    MulNonNegative(take, e.key - bound);
  }

  /** The fill's total cost is no better than `bound` per unit: at least
      that much paid on a buy, at most `-bound` received on a sell. */
  predicate NoBetterThan(f: Fill, bound: real, bidSide: bool)
  {
    if bidSide then f.cost <= -bound * f.filled else f.cost >= bound * f.filled
  }

  /** One more take at a price no better than `bound` keeps the bound on
      the accumulated fill. */
  lemma BoundStep(f: Fill, next: Fill, take: real, first: real, bound: real, bidSide: bool)
    requires f.cost == first + next.cost && f.filled == take + next.filled
    requires !bidSide ==> first >= bound * take
    requires bidSide ==> first <= -bound * take
    requires NoBetterThan(next, bound, bidSide)
    ensures NoBetterThan(f, bound, bidSide)
  {
  }

  /** A pass keeps every resting key at or above a bound and every resting
      quantity positive. */
  lemma AfterTakeAbove(side: seq<Entry>, take: real, counter: int, bound: real)
    requires side != [] && AllAbove(side, bound)
    ensures AllAbove(AfterTake(side, take, counter), bound)
  {
    AfterTakeContents(side, take, counter);
    assert side[0] in side;
  }

  /** When every resting key is at least `bound`, a buy pays at least
      `bound` per unit filled and a sell receives at most `-bound`: the
      order can never do better than the best level it started from. */
  lemma {:induction false} MatchCostBound(side: seq<Entry>, remaining: real, counter: int, bidSide: bool, bound: real, f: Fill)
    requires AllAbove(side, bound) && f == Match(side, remaining, counter, bidSide)
    ensures NoBetterThan(f, bound, bidSide)
    decreases |side| + (if remaining > 0.0 then 1 else 0)
  {
    if remaining > 0.0 && side != [] {
      var top := side[0];
      var take := Min(remaining, top.quantity);
      assert top in side;
      var after := AfterTake(side, take, counter);
      var nextCounter := if top.quantity > take then counter + 1 else counter;
      var next := Match(after, remaining - take, nextCounter, bidSide);
      AfterTakeAbove(side, take, counter, bound);
      MatchCostBound(after, remaining - take, nextCounter, bidSide, bound, next);
      TakeCostBound(take, top, bidSide, bound);
      BoundStep(f, next, take, TakeCost(take, top, bidSide), bound, bidSide);
    } else {
      assert f.cost == 0.0 && f.filled == 0.0;
    }
  }

  /** A bound on the total cost of a fill bounds its average price. */
  lemma AverageBound(f: Fill, bound: real, bidSide: bool)
    requires NoBetterThan(f, bound, bidSide)
    ensures f.filled > 0.0 && !bidSide ==> AveragePrice(f) >= bound
    ensures f.filled > 0.0 && bidSide ==> AveragePrice(f) <= -bound
  {
    if f.filled > 0.0 {
      var avg := f.cost / f.filled;
      assert avg * f.filled == f.cost;
      if !bidSide && avg < bound {
        assert (bound - avg) * f.filled > 0.0;
      }
      if bidSide && avg > -bound {
        assert (avg + bound) * f.filled > 0.0;
      }
    }
  }

  /** Every entry of a side in heap order is at or above its head. */
  lemma HeadIsLeast(side: seq<Entry>)
    requires Sorted(side) && side != []
    requires forall i :: 0 <= i < |side| ==> side[i].quantity > 0.0
    ensures AllAbove(side, side[0].key)
  {
    forall x | x in side
      ensures side[0].key <= x.key && x.quantity > 0.0
    {
      var i :| 0 <= i < |side| && side[i] == x;
      if i > 0 {
        assert Le(side[0], side[i]);
      }
    }
  }

  /** The average price of a fill against a side in heap order is never
      better than the side's best price: a buy averages at or above the best
      ask, a sell at or below the best bid. */
  lemma AverageNoBetterThanBest(side: seq<Entry>, remaining: real, counter: int, bidSide: bool, f: Fill)
    requires Sorted(side) && side != []
    requires forall i :: 0 <= i < |side| ==> side[i].quantity > 0.0
    requires f == Match(side, remaining, counter, bidSide)
    ensures f.filled > 0.0 && !bidSide ==> AveragePrice(f) >= PriceOf(side[0], false)
    ensures f.filled > 0.0 && bidSide ==> AveragePrice(f) <= PriceOf(side[0], true)
  {
    HeadIsLeast(side);
    MatchCostBound(side, remaining, counter, bidSide, side[0].key, f);
    AverageBound(f, side[0].key, bidSide);
  }

  // ---------------------------------------------------------------------------
  // Snapshot
  // ---------------------------------------------------------------------------

  /** The resting quantity at one key. */
  function QuantityAt(s: seq<Entry>, key: real): real
  {
    if s == [] then 0.0 else (if s[0].key == key then s[0].quantity else 0.0) + QuantityAt(s[1..], key)
  }

  function Keys(s: seq<Entry>): set<real>
  {
    set i | 0 <= i < |s| :: s[i].key
  }

  lemma {:induction false} LeastKeyExists(keys: set<real>)
    requires keys != {}
    ensures exists k :: k in keys && forall j :: j in keys ==> k <= j
  {
    if forall k :: k !in keys {
      assert false;
    }
    var x :| x in keys;
    var rest := keys - {x};
    if rest == {} {
      assert forall j :: j in keys ==> j == x || j in rest;
      assert forall j :: j in keys ==> x <= j;
    } else {
      LeastKeyExists(rest);
      var m :| m in rest && forall j :: j in rest ==> m <= j;
      assert forall j :: j in keys ==> j == x || j in rest;
      assert Min(m, x) in keys && forall j :: j in keys ==> Min(m, x) <= j;
    }
  }

  function LeastKey(keys: set<real>): (k: real)
    requires keys != {}
    ensures k in keys && forall j :: j in keys ==> k <= j
  {
    LeastKeyExists(keys);
    var least :| least in keys && forall j :: j in keys ==> least <= j;
    least
  }

  /** The `depth` smallest keys in increasing order (largest prices first
      for bids, smallest first for asks), as `sorted(...)[:depth]` gives them. */
  function SmallestKeys(keys: set<real>, depth: nat): (r: seq<real>)
    ensures |r| == if depth < |keys| then depth else |keys|
    ensures forall i :: 0 <= i < |r| ==> r[i] in keys
    ensures forall i, j :: 0 <= i < j < |r| ==> r[i] < r[j]
    decreases depth
  {
    if depth == 0 || keys == {} then []
    else
      var least := LeastKey(keys);
      [least] + SmallestKeys(keys - {least}, depth - 1)
  }

  /** The keys left out are all larger than the ones kept: the snapshot
      shows the best levels. */
  lemma {:induction false} SmallestKeysAreSmallest(keys: set<real>, depth: nat, k: real)
    requires k in keys && k !in SmallestKeys(keys, depth)
    ensures forall i :: 0 <= i < |SmallestKeys(keys, depth)| ==> SmallestKeys(keys, depth)[i] < k
    decreases depth
  {
    if depth != 0 && keys != {} {
      var least := LeastKey(keys);
      SmallestKeysAreSmallest(keys - {least}, depth - 1, k);
      assert SmallestKeys(keys, depth) == [least] + SmallestKeys(keys - {least}, depth - 1);
    }
  }

  /** The prices a list of levels shows. */
  function Prices(levels: seq<Level>): set<real>
  {
    set i | 0 <= i < |levels| :: levels[i].price
  }

  /** The `depth` least keys, lowest first, each with the total resting
      quantity at that key: the ask side of a snapshot, and the bid side
      before its keys are negated back into prices. */
  function KeyLevels(side: seq<Entry>, depth: nat): (r: seq<Level>)
    ensures |r| == if depth < |Keys(side)| then depth else |Keys(side)|
    ensures forall i :: 0 <= i < |r| ==> r[i].price in Keys(side) && r[i].quantity == QuantityAt(side, r[i].price)
    ensures forall i, j :: 0 <= i < j < |r| ==> r[i].price < r[j].price
  {
    var keys := SmallestKeys(Keys(side), depth);
    seq(|keys|, i requires 0 <= i < |keys| => Level(keys[i], QuantityAt(side, keys[i])))
  }

  /** Every key left out of the key levels is larger than every key shown. */
  lemma KeyLevelsShowBest(side: seq<Entry>, depth: nat)
    ensures var r := KeyLevels(side, depth);
      forall i, k :: 0 <= i < |r| && k in Keys(side) && k !in Prices(r) ==> r[i].price < k
  {
    var keys := SmallestKeys(Keys(side), depth);
    var r := KeyLevels(side, depth);
    assert forall m :: 0 <= m < |r| ==> r[m].price == keys[m];
    forall i, k | 0 <= i < |r| && k in Keys(side) && k !in Prices(r)
      ensures r[i].price < k
    {
      assert k !in keys;
      SmallestKeysAreSmallest(Keys(side), depth, k);
    }
  }

  /** The prices of the resting bids: the negated keys. */
  function BidPrices(side: seq<Entry>): set<real>
  {
    set i | 0 <= i < |side| :: -side[i].key
  }

  /** The bid side of a snapshot: the `depth` best bid prices, highest
      first, each with the total resting quantity at that price. */
  function BidLevels(side: seq<Entry>, depth: nat): (r: seq<Level>)
    ensures |r| == if depth < |Keys(side)| then depth else |Keys(side)|
    ensures forall i :: 0 <= i < |r| ==> r[i].price in BidPrices(side) && r[i].quantity == QuantityAt(side, -r[i].price)
    ensures forall i, j :: 0 <= i < j < |r| ==> r[i].price > r[j].price
  {
    var levels := KeyLevels(side, depth);
    var r := seq(|levels|, i requires 0 <= i < |levels| => Level(-levels[i].price, levels[i].quantity));
    assert forall i :: 0 <= i < |r| ==> r[i].price in BidPrices(side) by {
      forall i | 0 <= i < |r|
        ensures r[i].price in BidPrices(side)
      {
        var j :| 0 <= j < |side| && side[j].key == levels[i].price;
        assert -side[j].key == r[i].price;
      }
    }
    r
  }

  /** Every bid price left out of the bid levels is lower than every price
      shown. */
  lemma BidLevelsShowBest(side: seq<Entry>, depth: nat)
    ensures var r := BidLevels(side, depth);
      forall i, p :: 0 <= i < |r| && p in BidPrices(side) && p !in Prices(r) ==> p < r[i].price
  {
    var levels := KeyLevels(side, depth);
    var r := BidLevels(side, depth);
    assert forall m :: 0 <= m < |r| ==> r[m].price == -levels[m].price;
    forall i, p | 0 <= i < |r| && p in BidPrices(side) && p !in Prices(r)
      ensures p < r[i].price
    {
      var j :| 0 <= j < |side| && -side[j].key == p;
      assert -p in Keys(side) && -p !in Prices(levels);
      assert levels[i].price < -p by {
        KeyLevelsShowBest(side, depth);
      }
    }
  }

  // ---------------------------------------------------------------------------
  // The simulator
  // ---------------------------------------------------------------------------

  class Simulator {
    const symbol: string
    var bids: seq<Entry>
    var asks: seq<Entry>
    var orderCounter: int

    /** Both sides in heap order. */
    predicate Valid()
      reads this
    {
      Sorted(bids) && Sorted(asks)
    }

    constructor(symbol: string)
      ensures Valid() && this.symbol == symbol
      ensures bids == [] && asks == [] && orderCounter == 0
    {
      this.symbol := symbol;
      bids := [];
      asks := [];
      orderCounter := 0;
    }

    /** `add_limit_order`: a BUY rests on the bids under key -price, anything
        else on the asks under key price, stamped with the counter, which then
        advances by one. */
    method AddLimitOrder(side: OrderSide, price: real, quantity: real)
      requires Valid()
      modifies this`bids, this`asks, this`orderCounter
      ensures Valid()
      ensures orderCounter == old(orderCounter) + 1
      ensures side == Buy ==> bids == Insert(old(bids), Entry(-price, quantity, old(orderCounter))) && asks == old(asks)
      ensures side == Sell ==> asks == Insert(old(asks), Entry(price, quantity, old(orderCounter))) && bids == old(bids)
    {
      var stamp := orderCounter;
      orderCounter := orderCounter + 1;
      if side == Buy {
        InsertSorted(bids, Entry(-price, quantity, stamp));
        bids := Insert(bids, Entry(-price, quantity, stamp));
      } else {
        InsertSorted(asks, Entry(price, quantity, stamp));
        asks := Insert(asks, Entry(price, quantity, stamp));
      }
    }

    /** `execute_market_order`: a BUY is matched against the asks, a SELL
        against the bids; the other side is untouched. Returns the average
        price and the filled quantity. */
    method ExecuteMarketOrder(side: OrderSide, quantity: real) returns (averagePrice: real, filled: real)
      requires Valid()
      modifies this`bids, this`asks, this`orderCounter
      ensures Valid()
      ensures side == Buy ==>
                var f := Match(old(asks), quantity, old(orderCounter), false);
                asks == f.rest && orderCounter == f.counter && filled == f.filled
                && averagePrice == AveragePrice(f) && bids == old(bids)
      ensures side == Sell ==>
                var f := Match(old(bids), quantity, old(orderCounter), true);
                bids == f.rest && orderCounter == f.counter && filled == f.filled
                && averagePrice == AveragePrice(f) && asks == old(asks)
    {
      var f: Fill;
      if side == Buy {
        f := MatchLoop(asks, quantity, orderCounter, false);
        MatchSorted(asks, quantity, orderCounter, false);
        asks := f.rest;
      } else {
        f := MatchLoop(bids, quantity, orderCounter, true);
        MatchSorted(bids, quantity, orderCounter, true);
        bids := f.rest;
      }
      orderCounter := f.counter;
      filled := f.filled;
      averagePrice := if f.filled > 0.0 then f.cost / f.filled else 0.0;
    }

    /** `get_best_bid`: the head of the bids as (price, quantity). */
    function BestBid(): (r: Option<Level>)
      reads this
      requires Valid()
      ensures r.None? <==> bids == []
      ensures r.Some? ==> forall i :: 0 <= i < |bids| ==> -bids[i].key <= r.value.price
      ensures r.Some? ==> exists i :: 0 <= i < |bids| && -bids[i].key == r.value.price && bids[i].quantity == r.value.quantity
      ensures r.Some? ==> forall i :: 0 <= i < |bids| && -bids[i].key == r.value.price ==> r.value.quantity <= bids[i].quantity
    {
      if bids == [] then None else Some(Level(-bids[0].key, bids[0].quantity))
    }

    /** `get_best_ask`: the head of the asks. */
    function BestAsk(): (r: Option<Level>)
      reads this
      requires Valid()
      ensures r.None? <==> asks == []
      ensures r.Some? ==> forall i :: 0 <= i < |asks| ==> r.value.price <= asks[i].key
      ensures r.Some? ==> exists i :: 0 <= i < |asks| && asks[i].key == r.value.price && asks[i].quantity == r.value.quantity
      ensures r.Some? ==> forall i :: 0 <= i < |asks| && asks[i].key == r.value.price ==> r.value.quantity <= asks[i].quantity
    {
      if asks == [] then None else Some(Level(asks[0].key, asks[0].quantity))
    }

    /** `get_mid_price`: present only when both sides are. */
    function MidPrice(): (r: Option<real>)
      reads this
      requires Valid()
      ensures r.Some? <==> bids != [] && asks != []
      ensures r.Some? ==> r.value - BestBid().value.price == BestAsk().value.price - r.value
    {
      if bids != [] && asks != [] then Some((BestBid().value.price + BestAsk().value.price) / 2.0) else None
    }

    /** `get_spread`: present only when both sides are. */
    function Spread(): (r: Option<real>)
      reads this
      requires Valid()
      ensures r.Some? <==> bids != [] && asks != []
      ensures r.Some? ==> BestBid().value.price + r.value == BestAsk().value.price
    {
      if bids != [] && asks != [] then Some(BestAsk().value.price - BestBid().value.price) else None
    }

    /** `get_orderbook_snapshot`: per-price totals, bids from the highest
        price down and asks from the lowest up, at most `depth` levels each. */
    function Snapshot(depth: nat): (r: OrderbookUpdate)
      reads this
      ensures r.symbol == symbol
      ensures |r.bids| == if depth < |Keys(bids)| then depth else |Keys(bids)|
      ensures |r.asks| == if depth < |Keys(asks)| then depth else |Keys(asks)|
      ensures forall i :: 0 <= i < |r.bids| ==> -r.bids[i].price in Keys(bids)
      ensures forall i :: 0 <= i < |r.asks| ==> r.asks[i].price in Keys(asks)
      ensures forall i, j :: 0 <= i < j < |r.bids| ==> r.bids[i].price > r.bids[j].price
      ensures forall i, j :: 0 <= i < j < |r.asks| ==> r.asks[i].price < r.asks[j].price
      ensures forall i :: 0 <= i < |r.bids| ==> r.bids[i].quantity == QuantityAt(bids, -r.bids[i].price)
      ensures forall i :: 0 <= i < |r.asks| ==> r.asks[i].quantity == QuantityAt(asks, r.asks[i].price)
    {
      OrderbookUpdate(symbol, BidLevels(bids, depth), KeyLevels(asks, depth))
    }

    /** The snapshot shows the best levels: every resting bid price left out
        is lower than every bid price shown, and every resting ask price left
        out is higher than every ask price shown. */
    lemma SnapshotShowsBest(depth: nat)
      ensures var r := Snapshot(depth);
        forall i, p :: 0 <= i < |r.bids| && p in BidPrices(bids) && p !in Prices(r.bids) ==> p < r.bids[i].price
      ensures var r := Snapshot(depth);
        forall i, k :: 0 <= i < |r.asks| && k in Keys(asks) && k !in Prices(r.asks) ==> r.asks[i].price < k
    {
      BidLevelsShowBest(bids, depth);
      KeyLevelsShowBest(asks, depth);
    }

    /** `clear`: both sides emptied and the counter reset. */
    method Clear()
      modifies this`bids, this`asks, this`orderCounter
      ensures Valid() && bids == [] && asks == [] && orderCounter == 0
    {
      bids := [];
      asks := [];
      orderCounter := 0;
    }
  }
}
