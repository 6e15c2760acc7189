/**
 * Concrete lowerings, checked against the contract of `OnnxLoop.Lower`
 * alone: the callers below see nothing of its body.
 */
module LoopScenarios {
  import opened Wrappers
  import opened Graph
  import opened LoopOp
  import opened OnnxLoop

  /** One carried running sum, no scan outputs, trip count and condition omitted. */
  method RunningSumWithOmittedInputs()
  {
    var sum0 := Node(10, Static([]));
    var iterNum, condIn, sumIn := Node(0, Static([])), Node(1, Static([1])), Node(2, Static([]));
    var condOut := LogicalOr(condIn, Const(BooleanConstant(false)), Static([1]));
    var sumOut := Node(3, Static([]));
    var r, warned := Lower([Null, Null, sum0], [iterNum, condIn, sumIn], [condOut, sumOut]);
    assert IsTerminationConditionAlwaysTrue(condOut) == Ok(true);
    assert r.Lowered? && !warned;
    assert r.loop.tripCount == InfiniteTripCount();
    assert r.loop.executionCondition == TrueCondition();
    assert r.loop.body.value.results == [TrueCondition(), sumOut];
    assert r.loop.body.value.parameters == [iterNum, sumIn];
    assert r.loop.mergedInputs == [MergedInput(sumIn, sum0, sumOut)];
    assert r.loop.outputDescriptions == [IterValue(sumOut, -1)];
    assert r.outputs == [LoopOutput(0)];
  }

  /** A constant-false condition: the initial value twice, no Loop node. */
  method ConstantFalseCondition()
  {
    var x0 := Node(10, Static([]));
    var r, warned := Lower([Node(7, Static([])), Const(BooleanConstant(false)), x0], [], []);
    assert r == ZeroIteration([x0, x0]) && !warned;
  }

  /** No carried dependency and one scalar scan output, which is unsqueezed before concatenation. */
  method ScalarScanOutput()
  {
    var condOut := Node(9, Static([1]));
    var scan := Node(4, Static([]));
    var r, warned := Lower([Const(I64Constant(5)), Null], [Node(0, Static([])), Node(1, Static([1]))], [condOut, scan]);
    assert r.Lowered? && warned;
    assert r.loop.tripCount == Const(I64Constant(5));
    assert r.loop.body.value.results == [condOut, Unsqueeze(scan, AxisZero())];
    assert ShapeOf(r.loop.body.value.results[1]) == Static([1]);
    assert r.loop.outputDescriptions == [ConcatenatedSlices(Unsqueeze(scan, AxisZero()), 0, 1, 1, -1, 0)];
    assert r.outputs == [LoopOutput(0)];
  }

  /** A runtime condition input is never passed to the Loop. */
  method RuntimeConditionBecomesTrue()
  {
    var cond := Node(8, Static([]));
    var r, _ := Lower([Null, cond], [Node(0, Static([])), Node(1, Static([]))], [Node(9, Static([]))]);
    assert r.Lowered?;
    assert r.loop.executionCondition == TrueCondition() != cond;
  }

  /** Arity errors, and an empty output list failing at `.at(0)` before validation. */
  method ArityErrors()
  {
    var x0 := Node(10, Static([]));
    var r1, _ := Lower([Null, Null, x0], [Node(0, Static([]))], [Node(3, Static([]))]);
    assert r1 == Failed(TooFewBodyInputs(1, 3));
    var r2, _ := Lower([Null, Null, x0], [Node(0, Static([])), Node(1, Static([])), Node(2, Static([]))],
                       [Node(3, Static([]))]);
    assert r2 == Failed(TooFewBodyOutputs(1, 2));
    var r3, _ := Lower([Null, Null, x0], [], []);
    assert r3 == Failed(OutOfRange);
  }
}
