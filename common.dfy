/** Small shared vocabulary: optional values, outcomes of calls that may raise,
    and a few real-number helpers used throughout the trading engine model. */
module Common {

  /** Python's `Optional[X]`: `None` or a value. */
  datatype Option<T> = None | Some(value: T)

  /** The outcome of a call into code outside the model (an exchange client,
      the language-model client, `float()`): it either returns a value or
      raises an exception carrying a message. */
  datatype Outcome<T> = Returned(value: T) | Raised(message: string)

  /** Python truthiness of an `Optional[float]`: `None` and `0.0` are falsy. */
  predicate Truthy(o: Option<real>)
  {
    o.Some? && o.value != 0.0
  }

  function Min(a: real, b: real): (r: real)
    ensures r <= a && r <= b && (r == a || r == b)
  {
    if a <= b then a else b
  }

  function Max(a: real, b: real): (r: real)
    ensures r >= a && r >= b && (r == a || r == b)
  {
    if a >= b then a else b
  }

  function Abs(x: real): (r: real)
    ensures r >= 0.0 && (r == x || r == -x)
  {
    if x < 0.0 then -x else x
  }

  /** Python's `sum(xs)` over a list of floats. */
  function Sum(xs: seq<real>): real
  {
    if xs == [] then 0.0 else Sum(xs[..|xs| - 1]) + xs[|xs| - 1]
  }

  lemma {:induction false} SumAppend(xs: seq<real>, x: real)
    ensures Sum(xs + [x]) == Sum(xs) + x
  {
    assert (xs + [x])[..|xs|] == xs;
  }

  lemma {:induction false} SumNonNegative(xs: seq<real>)
    requires forall i :: 0 <= i < |xs| ==> xs[i] >= 0.0
    ensures Sum(xs) >= 0.0
  {
    if xs != [] {
      SumNonNegative(xs[..|xs| - 1]);
    }
  }

  function Square(x: real): (r: real)
    ensures r >= 0.0
  {
    x * x
  }

  lemma MulNonNegative(a: real, b: real)
    requires a >= 0.0 && b >= 0.0
    ensures a * b >= 0.0
  {
  }

  lemma DivNonNegative(a: real, b: real)
    requires a >= 0.0 && b >= 0.0
    ensures b != 0.0 ==> a / b >= 0.0
  {
  }

  /** Dividing a positive numerator by a divisor of at least 1 gives a value
      in (0, numerator]. */
  lemma DivPositiveAtMost(a: real, b: real)
    requires a > 0.0 && b >= 1.0
    ensures 0.0 < a / b <= a
  {
    assert a / b * b == a;
  }

  /** lo * d <= n <= hi * d with d > 0 puts n / d in [lo, hi]. */
  lemma DivBetween(n: real, d: real, lo: real, hi: real)
    requires d > 0.0 && lo * d <= n <= hi * d
    ensures lo <= n / d <= hi
  {
    assert n / d * d == n;
  }

  /** The change from `start` to `end` as a fraction of `start`. */
  function RelativeChange(start: real, end: real): (r: real)
    requires start != 0.0
    ensures start > 0.0 ==> (r > 0.0 <==> end > start)
  {
    assert (end - start) / start * start == end - start;
    (end - start) / start
  }

  /** The largest element of a non-empty list. */
  function MaxOf(xs: seq<real>): (r: real)
    requires xs != []
    ensures forall i :: 0 <= i < |xs| ==> xs[i] <= r
    ensures exists i :: 0 <= i < |xs| && xs[i] == r
  {
    if |xs| == 1 then xs[0]
    else
      var prefix := xs[..|xs| - 1];
      assert forall i :: 0 <= i < |prefix| ==> prefix[i] == xs[i];
      Max(MaxOf(prefix), xs[|xs| - 1])
  }

  lemma MaxOfAppend(xs: seq<real>, x: real)
    requires xs != []
    ensures MaxOf(xs + [x]) == Max(MaxOf(xs), x)
  {
    assert (xs + [x])[..|xs|] == xs;
  }

  /** The running maximum after one more element: the maximum of the
      first i + 1 elements from that of the first i (the first element
      alone when i is 0). */
  lemma MaxOfStep(curve: seq<real>, i: nat, peak: real)
    requires i < |curve|
    requires i == 0 ==> peak == curve[0]
    requires i > 0 ==> peak == MaxOf(curve[..i])
    ensures MaxOf(curve[..i + 1]) == Max(peak, curve[i])
  {
    if i > 0 {
      MaxOfAppend(curve[..i], curve[i]);
      assert curve[..i + 1] == curve[..i] + [curve[i]];
    }
  }
}
