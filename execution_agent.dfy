/** The execution agent: submits every approved order to the trading
    provider, one at a time, and records one result per order. A provider
    call that raises is turned into a failed result and does not stop the
    batch. The provider's answers are given, one per submitted order. */
module ExecutionAgent {
  import opened Common
  import opened Models

  /** The result recorded for an order whose submission raised. */
  function ErrorResult(message: string): (r: ExecutionResult)
    ensures !r.success && r.status == "ERROR" && r.errorMessage == Some(message)
    ensures r.orderId.None? && r.filledQuantity == 0.0 && r.filledPrice.None?
  {
    ExecutionResult(false, None, 0.0, None, "ERROR", Some(message))
  }

  /** The result recorded for one submission: the provider's own result,
      successful or not, or the error result when it raised. */
  function Recorded(outcome: Outcome<ExecutionResult>): ExecutionResult
  {
    match outcome
    case Returned(result) => result
    case Raised(message) => ErrorResult(message)
  }

  /** The batch, one recorded result per order, in order. The provider is
      a client with state of its own, so its answer to an order may depend
      on the calls before it: `answers[i]` is what it answered, or raised,
      when order `i` was submitted. */
  function ExecuteAll(orders: seq<Order>, answers: seq<Outcome<ExecutionResult>>): (r: seq<ExecutionResult>)
    requires |answers| == |orders|
    ensures |r| == |orders|
  {
    if orders == [] then []
    else ExecuteAll(orders[..|orders| - 1], answers[..|answers| - 1]) + [Recorded(answers[|answers| - 1])]
  }

  lemma {:induction false} ExecuteAllAt(orders: seq<Order>, answers: seq<Outcome<ExecutionResult>>, i: int)
    requires |answers| == |orders|
    requires 0 <= i < |orders|
    ensures ExecuteAll(orders, answers)[i] == Recorded(answers[i])
  {
    if i < |orders| - 1 {
      ExecuteAllAt(orders[..|orders| - 1], answers[..|answers| - 1], i);
    }
  }

  /** `execution_agent_node`'s loop: order `i` is submitted and the
      provider's answer `answers[i]` recorded. */
  method ExecuteOrders(orders: seq<Order>, answers: seq<Outcome<ExecutionResult>>) returns (results: seq<ExecutionResult>)
    requires |answers| == |orders|
    ensures results == ExecuteAll(orders, answers)
  {
    results := [];
    if orders == [] {
      return;
    }
    var i := 0;
    while i < |orders|
      invariant 0 <= i <= |orders|
      invariant results == ExecuteAll(orders[..i], answers[..i])
    {
      assert orders[..i + 1][..i] == orders[..i];
      assert answers[..i + 1][..i] == answers[..i];
      var outcome := answers[i];
      match outcome {
        case Returned(result) =>
          results := results + [result];
        case Raised(message) =>
          results := results + [ErrorResult(message)];
      }
      i := i + 1;
    }
    assert orders[..i] == orders;
    assert answers[..i] == answers;
  }

  /** Failure isolation: a returned result is kept unchanged whether or not
      it succeeded, a raised call becomes a failed ERROR result carrying the
      message, and result `i` is the same whatever the provider answered for
      the other orders. */
  lemma FailuresAreIsolated(orders: seq<Order>, answers: seq<Outcome<ExecutionResult>>, others: seq<Outcome<ExecutionResult>>, i: int)
    requires |answers| == |orders| && |others| == |orders|
    requires 0 <= i < |orders| && others[i] == answers[i]
    ensures var r := ExecuteAll(orders, answers)[i];
      && (answers[i].Returned? ==> r == answers[i].value)
      && (answers[i].Raised? ==> !r.success && r.status == "ERROR" && r.errorMessage == Some(answers[i].message))
    ensures ExecuteAll(orders, others)[i] == ExecuteAll(orders, answers)[i]
  {
    ExecuteAllAt(orders, answers, i);
    ExecuteAllAt(orders, others, i);
  }

  /** Splitting a batch splits its results: executing `a + b` with the
      answers `x + y` records the results of `a` with `x` followed by those
      of `b` with `y`. */
  lemma {:induction false} ExecuteAllConcat(a: seq<Order>, b: seq<Order>, x: seq<Outcome<ExecutionResult>>, y: seq<Outcome<ExecutionResult>>)
    requires |x| == |a| && |y| == |b|
    ensures ExecuteAll(a + b, x + y) == ExecuteAll(a, x) + ExecuteAll(b, y)
  {
    if b != [] {
      var b' := b[..|b| - 1];
      var y' := y[..|y| - 1];
      assert (a + b)[..|a + b| - 1] == a + b';
      assert (x + y)[..|x + y| - 1] == x + y';
      ExecuteAllConcat(a, b', x, y');
    } else {
      assert a + b == a;
      assert x + y == x;
    }
  }
}
