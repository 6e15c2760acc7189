/**
 * The nGraph opset5 Loop node as far as the ONNX lowering builds it:
 * trip count and execution condition inputs, special body ports, the body
 * function, merged (loop-carried) inputs and output descriptions, each
 * recorded in the order the lowering sets them.
 */
module LoopOp {
  import opened Wrappers
  import opened Graph

  /** Indices of the iteration-number parameter and of the condition result in the body. */
  datatype SpecialBodyPorts = SpecialBodyPorts(currentIterationInputIdx: int, bodyConditionOutputIdx: int)

  /** An nGraph Function: its results and its parameters, in order. */
  datatype Function = Function(results: seq<Value>, parameters: seq<Value>)

  /** `set_merged_input(body_parameter, initial_value, successive_value)`. */
  datatype MergedInput = MergedInput(bodyParameter: Value, initialValue: Value, successiveValue: Value)

  datatype OutputDescription =
    | IterValue(bodyValue: Value, iteration: int)
    | ConcatenatedSlices(bodyValue: Value, start: int, stride: int, partSize: int, end: int, axis: int)

  class Loop {
    var tripCount: Value
    var executionCondition: Value
    var specialBodyPorts: Option<SpecialBodyPorts>
    var body: Option<Function>
    var mergedInputs: seq<MergedInput>
    var outputDescriptions: seq<OutputDescription>

    constructor (tripCount: Value, executionCondition: Value)
      ensures this.tripCount == tripCount && this.executionCondition == executionCondition
      ensures specialBodyPorts == None && body == None
      ensures mergedInputs == [] && outputDescriptions == []
    {
      this.tripCount := tripCount;
      this.executionCondition := executionCondition;
      specialBodyPorts := None;
      body := None;
      mergedInputs := [];
      outputDescriptions := [];
    }

    method SetSpecialBodyPorts(ports: SpecialBodyPorts)
      modifies this`specialBodyPorts
      ensures specialBodyPorts == Some(ports)
    {
      specialBodyPorts := Some(ports);
    }

    method SetFunction(f: Function)
      modifies this`body
      ensures body == Some(f)
    {
      body := Some(f);
    }

    /** Binds a body parameter to an initial value and to the body result fed back into it. */
    method SetMergedInput(bodyParameter: Value, initialValue: Value, successiveValue: Value)
      modifies this`mergedInputs
      ensures mergedInputs == old(mergedInputs) + [MergedInput(bodyParameter, initialValue, successiveValue)]
    {
      mergedInputs := mergedInputs + [MergedInput(bodyParameter, initialValue, successiveValue)];
    }

    /** Adds an output holding `bodyValue` at the given iteration (-1: the last one). */
    method GetIterValue(bodyValue: Value, iteration: int) returns (o: Value)
      modifies this`outputDescriptions
      ensures outputDescriptions == old(outputDescriptions) + [IterValue(bodyValue, iteration)]
      ensures o == LoopOutput(|old(outputDescriptions)|)
    {
      o := LoopOutput(|outputDescriptions|);
      outputDescriptions := outputDescriptions + [IterValue(bodyValue, iteration)];
    }

    /** Adds an output concatenating slices of `bodyValue` across iterations. */
    method GetConcatenatedSlices(bodyValue: Value, start: int, stride: int, partSize: int, end: int, axis: int)
      returns (o: Value)
      modifies this`outputDescriptions
      ensures outputDescriptions ==
              old(outputDescriptions) + [ConcatenatedSlices(bodyValue, start, stride, partSize, end, axis)]
      ensures o == LoopOutput(|old(outputDescriptions)|)
    {
      o := LoopOutput(|outputDescriptions|);
      outputDescriptions := outputDescriptions + [ConcatenatedSlices(bodyValue, start, stride, partSize, end, axis)];
    }
  }
}
