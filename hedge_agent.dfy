/** The hedge agent: keeps a one-to-one futures hedge against the spot
    holding of the traded symbol by appending at most one FUTURE signal for
    the difference between the spot LONG quantity and the futures SHORT
    quantity already held. Incoming signals are passed through untouched. */
module HedgeAgent {
  import opened Common
  import opened Models

  /** Adjustments of this size or smaller are not worth a signal. */
  const HedgeTolerance: real := 0.0001

  predicate Matches(p: Position, symbol: string, kind: InstrumentType, side: PositionSide)
  {
    p.symbol == symbol && p.instrumentType == Some(kind) && p.side == side
  }

  /** The total quantity of the positions in `symbol` with the given
      instrument type and side. */
  function MatchingQuantity(positions: seq<Position>, symbol: string, kind: InstrumentType, side: PositionSide): real
  {
    if positions == [] then 0.0
    else
      var last := positions[|positions| - 1];
      MatchingQuantity(positions[..|positions| - 1], symbol, kind, side)
        + (if Matches(last, symbol, kind, side) then last.quantity else 0.0)
  }

  lemma {:induction false} MatchingQuantityAppend(positions: seq<Position>, p: Position, symbol: string, kind: InstrumentType, side: PositionSide)
    ensures MatchingQuantity(positions + [p], symbol, kind, side)
         == MatchingQuantity(positions, symbol, kind, side) + (if Matches(p, symbol, kind, side) then p.quantity else 0.0)
  {
    assert (positions + [p])[..|positions|] == positions;
  }

  /** Only matching positions count: with no matching position the total is
      zero, and with non-negative quantities it is non-negative. */
  lemma {:induction false} MatchingQuantityBounds(positions: seq<Position>, symbol: string, kind: InstrumentType, side: PositionSide)
    ensures (forall i :: 0 <= i < |positions| ==> !Matches(positions[i], symbol, kind, side)) ==>
              MatchingQuantity(positions, symbol, kind, side) == 0.0
    ensures (forall i :: 0 <= i < |positions| ==> positions[i].quantity >= 0.0) ==>
              MatchingQuantity(positions, symbol, kind, side) >= 0.0
  {
    if positions != [] {
      var prefix := positions[..|positions| - 1];
      MatchingQuantityBounds(prefix, symbol, kind, side);
      assert forall i :: 0 <= i < |prefix| ==> prefix[i] == positions[i];
    }
  }

  /** One of the two accumulation loops: the summed quantity of the matching
      positions, in list order. */
  method SumMatching(positions: seq<Position>, symbol: string, kind: InstrumentType, side: PositionSide) returns (total: real)
    ensures total == MatchingQuantity(positions, symbol, kind, side)
  {
    total := 0.0;
    var i := 0;
    while i < |positions|
      invariant 0 <= i <= |positions|
      invariant total == MatchingQuantity(positions[..i], symbol, kind, side)
    {
      MatchingQuantityAppend(positions[..i], positions[i], symbol, kind, side);
      assert positions[..i + 1] == positions[..i] + [positions[i]];
      if Matches(positions[i], symbol, kind, side) {
        total := total + positions[i].quantity;
      }
      i := i + 1;
    }
    assert positions[..i] == positions;
  }

  function Held(portfolio: Option<PortfolioState>): seq<Position>
  {
    if portfolio.Some? then portfolio.value.positions else []
  }

  /** The desired hedge (the spot LONG quantity) minus the current hedge
      (the futures SHORT quantity). */
  function HedgeDifference(portfolio: Option<PortfolioState>, symbol: string): real
  {
    MatchingQuantity(Held(portfolio), symbol, Spot, LongSide)
      - MatchingQuantity(Held(portfolio), symbol, Future, ShortSide)
  }

  /** The adjustment signal: SHORT adds to the hedge, LONG reduces it, and
      the quantity is carried in `suggestedQuantity`. */
  function HedgeSignal(symbol: string, difference: real): (s: Signal)
    ensures s.instrumentType == Some(Future) && s.strategy == "hedge" && s.symbol == symbol
    ensures s.direction == (if difference > 0.0 then Short else Long)
    ensures s.suggestedQuantity == Some(Abs(difference)) && s.strength == 1.0 && s.confidence == 1.0
  {
    Signal(symbol, Some(Future), "hedge", if difference > 0.0 then Short else Long,
           1.0, 1.0, None, None, None, None, Some(Abs(difference)))
  }

  /** The agent's output: the incoming signals, then the adjustment signal
      when the difference exceeds the tolerance. */
  function HedgeOutput(signals: seq<Signal>, portfolio: Option<PortfolioState>, symbol: string): (r: seq<Signal>)
    ensures |r| == |signals| + (if Abs(HedgeDifference(portfolio, symbol)) > HedgeTolerance then 1 else 0)
    ensures r[..|signals|] == signals
  {
    var difference := HedgeDifference(portfolio, symbol);
    if Abs(difference) > HedgeTolerance then signals + [HedgeSignal(symbol, difference)] else signals
  }

  /** `hedge_agent_node`: the two accumulation loops, then the decision. */
  method Hedge(signals: seq<Signal>, portfolio: Option<PortfolioState>, symbol: string) returns (out: seq<Signal>)
    ensures out == HedgeOutput(signals, portfolio, symbol)
  {
    var spot := 0.0;
    var hedged := 0.0;
    if portfolio.Some? && portfolio.value.positions != [] {
      spot := SumMatching(portfolio.value.positions, symbol, Spot, LongSide);
      hedged := SumMatching(portfolio.value.positions, symbol, Future, ShortSide);
    }
    var difference := spot - hedged;
    if Abs(difference) > HedgeTolerance {
      out := signals + [HedgeSignal(symbol, difference)];
    } else {
      out := signals;
    }
  }

  /** The incoming signals never change the hedge: the part of the output
      after them depends only on the portfolio and the symbol. */
  lemma SignalsDoNotAffectHedge(s1: seq<Signal>, s2: seq<Signal>, portfolio: Option<PortfolioState>, symbol: string)
    ensures HedgeOutput(s1, portfolio, symbol)[|s1|..] == HedgeOutput(s2, portfolio, symbol)[|s2|..]
  {
  }

  /** A balanced book (spot LONG and futures SHORT equal to within the
      tolerance) passes the signals through unchanged; otherwise exactly one
      signal is appended, selling futures when under-hedged and buying them
      back when over-hedged, for exactly the difference. */
  lemma AdjustmentSignal(signals: seq<Signal>, portfolio: Option<PortfolioState>, symbol: string)
    ensures var d := HedgeDifference(portfolio, symbol);
      var out := HedgeOutput(signals, portfolio, symbol);
      && (Abs(d) <= HedgeTolerance ==> out == signals)
      && (Abs(d) > HedgeTolerance ==>
            |out| == |signals| + 1
            && out[|signals|].instrumentType == Some(Future)
            && (out[|signals|].direction == Short <==> d > 0.0)
            && MatchingQuantity(Held(portfolio), symbol, Future, ShortSide) + (if d > 0.0 then 1.0 else -1.0) * out[|signals|].suggestedQuantity.value
               == MatchingQuantity(Held(portfolio), symbol, Spot, LongSide))
  {
  }

  /** The repository's example: one 1.0 LONG SPOT position and no hedge
      yields one SHORT FUTURE signal for 1.0. */
  lemma RepositoryExample(p: Position, portfolio: PortfolioState)
    requires p.symbol == "BTC/USD" && p.instrumentType == Some(Spot) && p.side == LongSide && p.quantity == 1.0
    requires portfolio.positions == [p]
    ensures var out := HedgeOutput([], Some(portfolio), "BTC/USD");
      |out| == 1 && out[0].strategy == "hedge" && out[0].instrumentType == Some(Future)
      && out[0].direction == Short && out[0].suggestedQuantity == Some(1.0)
  {
    assert [p][..0] == [];
    assert Held(Some(portfolio)) == [p];
    assert MatchingQuantity([p], "BTC/USD", Spot, LongSide) == 1.0;
    assert MatchingQuantity([p], "BTC/USD", Future, ShortSide) == 0.0;
  }
}
