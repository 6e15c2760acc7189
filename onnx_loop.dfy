/**
 * The ONNX `Loop` operator lowered to an nGraph opset5 Loop node
 * (ngraph/frontend/onnx_import/src/op/loop.cpp).
 *
 * Operator inputs are `[trip_count?, cond?, v_0, …, v_{k-1}]`; the body
 * has parameters `[iter_num, cond_in, v_0, …]` and outputs
 * `[cond_out, v_0', …, v_{k-1}', scan_0, …, scan_{m-1}]`.
 */
module OnnxLoop {
  import opened Wrappers
  import opened Graph
  import opened LoopOp

  datatype LoweringError =
    | OutOfRange                                        // a checked `.at(0)` on an empty vector
    | TooFewBodyInputs(provided: nat, required: nat)    // first CHECK_VALID_NODE
    | TooFewBodyOutputs(provided: nat, required: nat)   // second CHECK_VALID_NODE

  datatype Lowering =
    | Failed(error: LoweringError)
    | ZeroIteration(outputs: seq<Value>)                // constant-false condition: no Loop node
    | Lowered(loop: Loop, outputs: seq<Value>)

  /** The axis scan outputs are concatenated along. */
  const ConcatAxis: int := 0

  /** The boolean constant `{true}` of shape `{1}`. */
  function TrueCondition(): (v: Value)
    ensures IsBooleanConstantWithFirst(v, true) && v.constant.shape == [1]
  {
    Const(BooleanConstant(true))
  }

  /** The i64 constant `{-1}` of shape `{1}`: an unbounded trip count. */
  function InfiniteTripCount(): (v: Value)
    ensures v.Const? && v.constant.elementType == I64 && v.constant.shape == [1] && v.constant.values == [-1]
  {
    Const(I64Constant(-1))
  }

  /**
   * Whether the body's condition output is the boolean identity
   * `LogicalOr(x, false)`. Reading the first value of an empty boolean
   * constant throws, as `.at(0)` does.
   */
  function IsTerminationConditionAlwaysTrue(cond: Value): (r: Result<bool, LoweringError>)
    ensures r == Ok(true) <==> cond.LogicalOr? && IsBooleanConstantWithFirst(cond.rhs, false)
    ensures r.Err? <==>
              cond.LogicalOr? && cond.rhs.Const? && cond.rhs.constant.elementType == Boolean
              && cond.rhs.constant.values == []
    ensures r.Err? ==> r.error == OutOfRange
  {
    if cond.LogicalOr? then
      var second := cond.rhs;
      if second.Const? && second.constant.elementType == Boolean then
        var bs := CastToBool(second.constant);
        if |bs| == 0 then Err(OutOfRange) else Ok(!bs[0])
      else
        Ok(false)
    else
      Ok(false)
  }

  /** The identity pattern evaluates to its first operand in every environment. */
  lemma IdentityPatternPassesFirstOperand(cond: Value, env: map<nat, bool>)
    requires IsTerminationConditionAlwaysTrue(cond) == Ok(true)
    ensures Truth(cond, env) == Truth(cond.lhs, env)
  {
  }

  /** The body's condition output after the identity rewrite. */
  function FoldedCondition(cond: Value): (folded: Value)
    ensures folded != cond <==> IsTerminationConditionAlwaysTrue(cond) == Ok(true)
    ensures folded != cond ==> IsBooleanConstantWithFirst(folded, true) && folded.constant.shape == [1]
  {
    if IsTerminationConditionAlwaysTrue(cond) == Ok(true) then TrueCondition() else cond
  }

  /**
   * Folding never changes the condition's truth value while the first
   * operand is true. Nothing in the lowering establishes this: the predicate
   * does not check that the first operand is the condition input (see
   * `FoldingCanTurnFalseIntoTrue`).
   */
  lemma FoldingPreservesTruth(cond: Value, env: map<nat, bool>)
    requires cond.LogicalOr? ==> Truth(cond.lhs, env) == Some(true)
    ensures FoldedCondition(cond) != cond ==> Truth(FoldedCondition(cond), env) == Truth(cond, env) == Some(true)
  {
  }

  /**
   * The predicate never looks at the first operand, so the fold can turn a
   * condition output that evaluates to false into the constant true.
   */
  lemma FoldingCanTurnFalseIntoTrue()
    ensures var cond := LogicalOr(Node(5, Static([])), Const(BooleanConstant(false)), Static([]));
            var env := map[5 := false];
            && FoldedCondition(cond) == TrueCondition()
            && Truth(cond, env) == Some(false)
            && Truth(FoldedCondition(cond), env) == Some(true)
  {
  }

  /** Body output `i` after scan normalisation (k carried dependencies). */
  function ScanNormalized(v: Value, i: nat, k: nat): (w: Value)
    ensures i <= k || !IsStaticScalar(v) ==> w == v
    ensures i > k && IsStaticScalar(v) ==> w == Unsqueeze(v, AxisZero()) && ShapeOf(w) == Static([1])
    ensures i > k ==> !IsStaticScalar(w)
  {
    if i > k && IsStaticScalar(v) then
      assert ShapeOf(Unsqueeze(v, AxisZero())) == Static([1] + []);
      Unsqueeze(v, AxisZero())
    else
      v
  }

  /**
   * Wraps every scan output (index k+1 onwards) whose shape is static and
   * scalar in an Unsqueeze at axis 0, leaving every other output alone.
   */
  method NormalizeScanOutputs(outputs: seq<Value>, k: nat) returns (normalized: seq<Value>)
    ensures |normalized| == |outputs|
    ensures forall i :: 0 <= i < |outputs| ==> normalized[i] == ScanNormalized(outputs[i], i, k)
    ensures forall i :: k < i < |outputs| ==> !IsStaticScalar(normalized[i])
  {
    normalized := outputs;
    var i := k + 1;
    while i < |normalized|
      invariant k + 1 <= i
      invariant |normalized| == |outputs|
      invariant forall j :: 0 <= j < |outputs| && j < i ==> normalized[j] == ScanNormalized(outputs[j], j, k)
      invariant forall j :: i <= j < |outputs| ==> normalized[j] == outputs[j]
    {
      if IsStaticScalar(normalized[i]) {
        normalized := normalized[i := Unsqueeze(normalized[i], AxisZero())];
      }
      i := i + 1;
    }
  }

  /** A second pass of scan normalisation changes nothing. */
  lemma ScanNormalizationIdempotent(outputs: seq<Value>, k: nat)
    ensures forall i :: 0 <= i < |outputs| ==>
              ScanNormalized(ScanNormalized(outputs[i], i, k), i, k) == ScanNormalized(outputs[i], i, k)
  {
  }

  /**
   * The `push_back` loops that build an output vector: every element of
   * `first`, then every element of `second`, in order.
   */
  method AppendAll(first: seq<Value>, second: seq<Value>) returns (outputs: seq<Value>)
    ensures |outputs| == |first| + |second|
    ensures outputs[..|first|] == first
    ensures outputs[|first|..] == second
  {
    outputs := [];
    for i := 0 to |first|
      invariant outputs == first[..i]
    {
      outputs := outputs + [first[i]];
    }
    for i := 0 to |second|
      invariant outputs == first + second[..i]
    {
      outputs := outputs + [second[i]];
    }
  }

  /**
   * The body function's parameters: the iteration number followed by the
   * carried-dependency parameters; the condition input is dropped.
   */
  function BodyParameters(bodyInputs: seq<Value>): (ps: seq<Value>)
    requires |bodyInputs| >= 2
    ensures |ps| == |bodyInputs| - 1
    ensures ps[0] == bodyInputs[0]
    ensures forall i :: 2 <= i < |bodyInputs| ==> ps[i - 1] == bodyInputs[i]
  {
    [bodyInputs[0]] + bodyInputs[2..]
  }

  /** When the body parameters are distinct, the condition input is not among the function's parameters. */
  lemma ConditionInputDropped(bodyInputs: seq<Value>)
    requires |bodyInputs| >= 2
    requires forall i, j :: 0 <= i < j < |bodyInputs| ==> bodyInputs[i] != bodyInputs[j]
    ensures bodyInputs[1] !in BodyParameters(bodyInputs)
  {
  }

  /**
   * The Loop node the lowering emits, and the operator outputs it returns,
   * for trip count `tripCount`, execution condition `condition`, carried
   * initial values `dependencies`, body parameters `bodyInputs` and body
   * results `results`: special ports {0, 0}; the body function over
   * `BodyParameters(bodyInputs)`; merged input i binding body input 2+i to
   * initial value i with back edge result 1+i; outputs 0..k-1 the last
   * iteration's values of results 1..k, the rest the concatenated slices of
   * the scan results; operator output i is Loop output i.
   */
  ghost predicate BuiltLoop(loop: Loop, tripCount: Value, condition: Value, dependencies: seq<Value>,
                            bodyInputs: seq<Value>, results: seq<Value>, outputs: seq<Value>)
    reads loop
  {
    var k := |dependencies|;
    && |bodyInputs| >= k + 2
    && |results| >= k + 1
    && loop.tripCount == tripCount
    && loop.executionCondition == condition
    && loop.specialBodyPorts == Some(SpecialBodyPorts(0, 0))
    && loop.body == Some(Function(results, BodyParameters(bodyInputs)))
    && |loop.mergedInputs| == k
    && (forall i :: 0 <= i < k ==>
          loop.mergedInputs[i] == MergedInput(bodyInputs[2 + i], dependencies[i], results[1 + i]))
    && |loop.outputDescriptions| == |results| - 1
    && (forall i :: 0 <= i < k ==> loop.outputDescriptions[i] == IterValue(results[1 + i], -1))
    && (forall j :: k <= j < |results| - 1 ==>
          loop.outputDescriptions[j] == ConcatenatedSlices(results[1 + j], 0, 1, 1, -1, ConcatAxis))
    && |outputs| == |results| - 1
    && (forall i :: 0 <= i < |outputs| ==> outputs[i] == LoopOutput(i))
  }

  /**
   * Every merged input names a parameter of the body function and a result
   * of it, so the Loop's parameter and result lookups succeed.
   */
  lemma BuiltLoopBindsBodyPorts(loop: Loop, tripCount: Value, condition: Value, dependencies: seq<Value>,
                                bodyInputs: seq<Value>, results: seq<Value>, outputs: seq<Value>)
    requires BuiltLoop(loop, tripCount, condition, dependencies, bodyInputs, results, outputs)
    ensures forall m :: m in loop.mergedInputs ==>
              m.bodyParameter in loop.body.value.parameters && m.successiveValue in loop.body.value.results
  {
  }

  /** Builds the Loop node from validated body lists (loop.cpp after the arity checks). */
  method BuildLoop(tripCount: Value, condition: Value, dependencies: seq<Value>,
                   bodyInputs: seq<Value>, results: seq<Value>)
    returns (loop: Loop, outputs: seq<Value>)
    requires |bodyInputs| >= |dependencies| + 2
    requires |results| >= |dependencies| + 1
    ensures fresh(loop)
    ensures BuiltLoop(loop, tripCount, condition, dependencies, bodyInputs, results, outputs)
  {
    var k := |dependencies|;
    var body := Function(results, BodyParameters(bodyInputs));
    loop := new Loop(tripCount, condition);
    loop.SetSpecialBodyPorts(SpecialBodyPorts(0, 0));
    loop.SetFunction(body);

    // body parameter 0 is the iteration number, 1 the condition; body result 0 is the condition
    var inputsIt := 2;
    var resultsIt := 1;

    var finalValues: seq<Value> := [];
    for i := 0 to k
      invariant inputsIt == 2 + i && resultsIt == 1 + i
      invariant loop.tripCount == tripCount && loop.executionCondition == condition
      invariant loop.specialBodyPorts == Some(SpecialBodyPorts(0, 0)) && loop.body == Some(body)
      invariant |loop.mergedInputs| == i
      invariant forall j :: 0 <= j < i ==>
                  loop.mergedInputs[j] == MergedInput(bodyInputs[2 + j], dependencies[j], results[1 + j])
      invariant |loop.outputDescriptions| == i
      invariant forall j :: 0 <= j < i ==> loop.outputDescriptions[j] == IterValue(results[1 + j], -1)
      invariant |finalValues| == i && forall j :: 0 <= j < i ==> finalValues[j] == LoopOutput(j)
    {
      loop.SetMergedInput(bodyInputs[inputsIt], dependencies[i], results[resultsIt]);
      inputsIt := inputsIt + 1;
      var v := loop.GetIterValue(results[resultsIt], -1);
      resultsIt := resultsIt + 1;
      finalValues := finalValues + [v];
    }

    var scanOutputs: seq<Value> := [];
    while resultsIt < |results|
      invariant k + 1 <= resultsIt <= |results|
      invariant loop.tripCount == tripCount && loop.executionCondition == condition
      invariant loop.specialBodyPorts == Some(SpecialBodyPorts(0, 0)) && loop.body == Some(body)
      invariant |loop.mergedInputs| == k
      invariant forall j :: 0 <= j < k ==>
                  loop.mergedInputs[j] == MergedInput(bodyInputs[2 + j], dependencies[j], results[1 + j])
      invariant |loop.outputDescriptions| == resultsIt - 1
      invariant forall j :: 0 <= j < k ==> loop.outputDescriptions[j] == IterValue(results[1 + j], -1)
      invariant forall j :: k <= j < resultsIt - 1 ==>
                  loop.outputDescriptions[j] == ConcatenatedSlices(results[1 + j], 0, 1, 1, -1, ConcatAxis)
      invariant |scanOutputs| == resultsIt - 1 - k
      invariant forall j :: 0 <= j < |scanOutputs| ==> scanOutputs[j] == LoopOutput(k + j)
    {
      // start=0, stride=1, part_size=1, end=-1, axis=0
      var v := loop.GetConcatenatedSlices(results[resultsIt], 0, 1, 1, -1, ConcatAxis);
      scanOutputs := scanOutputs + [v];
      resultsIt := resultsIt + 1;
    }

    outputs := AppendAll(finalValues, scanOutputs);
    forall i | 0 <= i < |outputs| ensures outputs[i] == LoopOutput(i) {
      if i < k {
        assert outputs[i] == outputs[..k][i];
      } else {
        assert outputs[i] == outputs[k..][i - k];
      }
    }
  }

  /** The lowering gets past the zero-iteration shortcut and the `.at(0)` reads to the arity checks. */
  predicate ReachesValidation(ngInputs: seq<Value>, bodyOutputs: seq<Value>)
    requires |ngInputs| >= 2
  {
    && !IsConstantWithFirst(ngInputs[1], false)
    && |bodyOutputs| > 0
    && IsTerminationConditionAlwaysTrue(bodyOutputs[0]).Ok?
  }

  /**
   * `loop(node)`: lowers an ONNX Loop with inputs `ngInputs`, body
   * parameters `bodyInputs` and body outputs `bodyOutputs`. `warned` records
   * whether the unsupported-condition warning was emitted.
   */
  method Lower(ngInputs: seq<Value>, bodyInputs: seq<Value>, bodyOutputs: seq<Value>)
    returns (r: Lowering, warned: bool)
    requires |ngInputs| >= 2
    requires ngInputs[1].Const? ==> |ngInputs[1].constant.values| > 0
    // constant-false condition: the carried inputs twice, nothing else looked at
    ensures r.ZeroIteration? <==> IsConstantWithFirst(ngInputs[1], false)
    ensures r.ZeroIteration? ==> r.outputs == ngInputs[2..] + ngInputs[2..] && !warned
    // errors, in the order the source meets them
    ensures r == Failed(OutOfRange) <==>
              !IsConstantWithFirst(ngInputs[1], false)
              && (|bodyOutputs| == 0 || IsTerminationConditionAlwaysTrue(bodyOutputs[0]).Err?)
    ensures ReachesValidation(ngInputs, bodyOutputs) && |bodyInputs| < |ngInputs| ==>
              r == Failed(TooFewBodyInputs(|bodyInputs|, |ngInputs|))
    ensures ReachesValidation(ngInputs, bodyOutputs) && |bodyInputs| >= |ngInputs|
            && |bodyOutputs| < |ngInputs| - 1 ==>
              r == Failed(TooFewBodyOutputs(|bodyOutputs|, |ngInputs| - 1))
    ensures r.Lowered? <==>
              ReachesValidation(ngInputs, bodyOutputs) && |bodyInputs| >= |ngInputs|
              && |bodyOutputs| >= |ngInputs| - 1
    ensures warned <==>
              ReachesValidation(ngInputs, bodyOutputs)
              && IsTerminationConditionAlwaysTrue(bodyOutputs[0]) == Ok(false)
    // the Loop node: resolved trip count, condition forced to true
    ensures r.Lowered? ==>
              && fresh(r.loop)
              && (ngInputs[0].Null? ==> r.loop.tripCount == InfiniteTripCount())
              && (!ngInputs[0].Null? ==> r.loop.tripCount == ngInputs[0])
              && r.loop.body.Some?
              && BuiltLoop(r.loop, r.loop.tripCount, TrueCondition(), ngInputs[2..], bodyInputs,
                           r.loop.body.value.results, r.outputs)
    // its body results: folded condition, carried outputs as given, normalised scan outputs
    ensures r.Lowered? ==>
              && r.loop.body.Some?
              && |r.loop.body.value.results| == |bodyOutputs|
              && r.loop.body.value.results[0] == FoldedCondition(bodyOutputs[0])
              && forall j :: 1 <= j < |bodyOutputs| ==>
                   r.loop.body.value.results[j] == ScanNormalized(bodyOutputs[j], j, |ngInputs| - 2)
    // carried dependencies: back edges are the body outputs as given; k + m outputs in all
    ensures r.Lowered? ==>
              && |r.loop.mergedInputs| == |ngInputs| - 2
              && (forall i :: 0 <= i < |ngInputs| - 2 ==>
                    r.loop.mergedInputs[i].successiveValue == bodyOutputs[1 + i])
              && |r.outputs| == |bodyOutputs| - 1
  {
    var dependencies := ngInputs[2..];
    var k := |dependencies|;
    var outs := bodyOutputs;
    warned := false;

    var tripCount: Value;
    if ngInputs[0].Null? {
      tripCount := InfiniteTripCount();
    } else {
      tripCount := ngInputs[0];
    }

    var terminationCond: Value;
    if ngInputs[1].Null? {
      terminationCond := TrueCondition();
    } else if ngInputs[1].Const? {
      if CastToBool(ngInputs[1].constant)[0] {
        terminationCond := TrueCondition();
      } else {
        // no iteration is performed, so the initial values are returned
        var zero := AppendAll(dependencies, dependencies);
        assert zero == dependencies + dependencies by {
          assert zero == zero[..k] + zero[k..];
        }
        return ZeroIteration(zero), false;
      }
    } else {
      // a runtime condition is approximated as true
      terminationCond := TrueCondition();
    }

    outs := NormalizeScanOutputs(outs, k);

    if |outs| == 0 {
      return Failed(OutOfRange), false;
    }
    var alwaysTrue := IsTerminationConditionAlwaysTrue(outs[0]);
    if alwaysTrue.Err? {
      return Failed(alwaysTrue.error), false;
    }
    if alwaysTrue.value {
      outs := outs[0 := TrueCondition()];
    } else {
      warned := true;
    }

    if |bodyInputs| < k + 2 {
      return Failed(TooFewBodyInputs(|bodyInputs|, k + 2)), warned;
    }
    if |outs| < k + 1 {
      return Failed(TooFewBodyOutputs(|outs|, k + 1)), warned;
    }

    var loop, nodeOutputs := BuildLoop(tripCount, terminationCond, dependencies, bodyInputs, outs);
    return Lowered(loop, nodeOutputs), warned;
  }
}
