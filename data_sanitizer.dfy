/** The data sanitizer node: drops klines with a non-positive price, a high
    below the low or a negative volume, keeps the others in their original
    order, and replaces only the "klines" entry of the graph state. */
module DataSanitizer {
  import opened Common
  import opened Events

  /** The graph state as the node sees it: the "klines" entry (`None` when the
      key is missing) and every other entry, which the node passes through. */
  datatype GraphState<S> = GraphState(klines: Option<seq<KlineEvent>>, others: S)

  /** The sanity rule a kline must satisfy to be kept. */
  predicate Sane(k: KlineEvent)
  {
    k.close > 0.0 && k.open > 0.0 && k.high > 0.0 && k.low > 0.0
    && k.high >= k.low
    && k.volume >= 0.0
  }

  /** The kept klines, in input order. */
  function Sanitized(ks: seq<KlineEvent>): (r: seq<KlineEvent>)
    ensures |r| <= |ks|
  {
    if ks == [] then []
    else if Sane(ks[|ks| - 1]) then Sanitized(ks[..|ks| - 1]) + [ks[|ks| - 1]]
    else Sanitized(ks[..|ks| - 1])
  }

  /** A kline is kept iff it is in the input and sane. */
  lemma {:induction false} SanitizedContents(ks: seq<KlineEvent>)
    ensures forall k :: k in Sanitized(ks) <==> k in ks && Sane(k)
  {
    if ks != [] {
      var prefix := ks[..|ks| - 1];
      SanitizedContents(prefix);
      assert ks == prefix + [ks[|ks| - 1]];
    }
  }

  /** The dropped klines, in input order. */
  function Rejected(ks: seq<KlineEvent>): (r: seq<KlineEvent>)
  {
    if ks == [] then []
    else if Sane(ks[|ks| - 1]) then Rejected(ks[..|ks| - 1])
    else Rejected(ks[..|ks| - 1]) + [ks[|ks| - 1]]
  }

  /** `a` is `b` with some elements removed and the rest in the same order. */
  predicate Subsequence<T(==)>(a: seq<T>, b: seq<T>)
    decreases |b|
  {
    if a == [] then true
    else if b == [] then false
    else (a[|a| - 1] == b[|b| - 1] && Subsequence(a[..|a| - 1], b[..|b| - 1]))
         || Subsequence(a, b[..|b| - 1])
  }

  /** The output is an order-preserving subsequence of the input. */
  lemma {:induction false} SanitizedIsSubsequence(ks: seq<KlineEvent>)
    ensures Subsequence(Sanitized(ks), ks)
  {
    if ks != [] {
      var prefix := ks[..|ks| - 1];
      SanitizedIsSubsequence(prefix);
      var a := Sanitized(ks);
      if Sane(ks[|ks| - 1]) {
        assert a[..|a| - 1] == Sanitized(prefix);
      }
    }
  }

  /** Every input kline is either kept or dropped. */
  lemma {:induction false} KeptPlusDropped(ks: seq<KlineEvent>)
    ensures |Sanitized(ks)| + |Rejected(ks)| == |ks|
  {
    if ks != [] {
      KeptPlusDropped(ks[..|ks| - 1]);
    }
  }

  /** A list of sane klines passes through unchanged. */
  lemma {:induction false} SaneListUnchanged(ks: seq<KlineEvent>)
    requires forall k :: k in ks ==> Sane(k)
    ensures Sanitized(ks) == ks
  {
    if ks != [] {
      var prefix := ks[..|ks| - 1];
      assert forall k :: k in prefix ==> k in ks;
      SaneListUnchanged(prefix);
      assert ks[|ks| - 1] in ks;
      assert prefix + [ks[|ks| - 1]] == ks;
    }
  }

  /** Sanitising twice is the same as sanitising once. */
  lemma SanitizeIdempotent(ks: seq<KlineEvent>)
    ensures Sanitized(Sanitized(ks)) == Sanitized(ks)
  {
    SanitizedContents(ks);
    SaneListUnchanged(Sanitized(ks));
  }

  /** The filtering loop of `sanitize_data_node`: the kept klines and the
      number dropped, each rule checked in the order the node checks it. */
  method SanitizeKlines(klines: seq<KlineEvent>) returns (valid: seq<KlineEvent>, dropped: nat)
    ensures valid == Sanitized(klines)
    ensures dropped == |Rejected(klines)|
    ensures |valid| + dropped == |klines|
  {
    valid := [];
    dropped := 0;
    for i := 0 to |klines|
      invariant valid == Sanitized(klines[..i])
      invariant dropped == |Rejected(klines[..i])|
    {
      assert klines[..i + 1][..i] == klines[..i];
      var k := klines[i];
      if k.close <= 0.0 || k.open <= 0.0 || k.high <= 0.0 || k.low <= 0.0 {
        dropped := dropped + 1;
        continue;
      }
      if k.high < k.low {
        dropped := dropped + 1;
        continue;
      }
      if k.volume < 0.0 {
        dropped := dropped + 1;
        continue;
      }
      valid := valid + [k];
    }
    assert klines[..|klines|] == klines;
    KeptPlusDropped(klines);
  }

  /** `sanitize_data_node`: a missing or empty kline list leaves the state as
      it is; otherwise the "klines" entry becomes the sanitised list and every
      other entry is unchanged. */
  method SanitizeDataNode<S>(state: GraphState<S>) returns (r: GraphState<S>)
    ensures r.others == state.others
    ensures state.klines.None? || state.klines == Some([]) ==> r == state
    ensures state.klines.Some? && state.klines.value != [] ==> r.klines == Some(Sanitized(state.klines.value))
  {
    if state.klines.None? || state.klines.value == [] {
      return state;
    }
    var valid, dropped := SanitizeKlines(state.klines.value);
    r := state.(klines := Some(valid));
  }
}
