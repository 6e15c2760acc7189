# ONNX `Loop` lowering to an nGraph opset5 Loop

This project models how the ONNX importer of nGraph (OpenVINO) lowers the
ONNX `Loop` operator into an `opset5::Loop` node
(`ngraph/frontend/onnx_import/src/op/loop.cpp`), and proves what that
lowering promises. The inputs are the operator's inputs
`[trip_count?, cond?, v_0 … v_{k-1}]` (positions 0 and 1 may be the null
node) and the body's parameters `[iter_num, cond_in, v_0 …]` and outputs
`[cond_out, v_0' … v_{k-1}', scan_0 … scan_{m-1}]`.

The lowering:

- resolves the trip count. An omitted one becomes the i64 constant `{-1}`; a given one is used as is;
- resolves the condition. An omitted condition, a constant whose first value is true, and a runtime value all become the boolean constant `{true}`;
- takes a shortcut for a constant whose first value is false. It returns the carried inputs twice (`2k` outputs) and builds no Loop;
- wraps every scan output with a static scalar shape in `Unsqueeze(axis 0)`;
- recognises the identity pattern `LogicalOr(x, false)` on the body's condition output. When it matches, that output becomes constant `{true}`; otherwise a warning is emitted;
- checks the body's arity;
- builds the Loop. It sets special ports `{0, 0}`, gives the body function the parameters `[iter_num] ++ body_inputs[2..]`, binds one merged input per carried dependency, and adds one last-iteration output per carried dependency and one concatenated-slices output per scan output. It returns the `k + m` Loop outputs in that order.

Files:

- `wrappers.dfy`: Option and Result.
- `graph.dfy`: graph values. These are the null node, constants (element type, shape, values), `LogicalOr`, `Unsqueeze`, other nodes with a shape, and Loop output ports. The file also has `cast_vector<bool>`, the "static and scalar" test, and a truth-value reading of boolean values.
- `loop_op.dfy`: the opset5 Loop as a class. The lowering mutates it through `set_special_body_ports`, `set_function`, `set_merged_input`, `get_iter_value` and `get_concatenated_slices`.
- `onnx_loop.dfy`: the lowering itself.
- `scenarios.dfy`: concrete lowerings checked against `Lower`'s contract alone. These are a running sum with omitted inputs, a constant-false condition, a scalar scan output, a runtime condition and the arity errors.

## Model

| member | source | states |
|---|---|---|
| Graph.CastToBool | ngraph/frontend/onnx_import/src/op/loop.cpp:110-112 | `cast_vector<bool>` keeps the length; element i is true exactly when value i is nonzero |
| Graph.I64Constant | ngraph/frontend/onnx_import/src/op/loop.cpp:143-144 | `Constant::create(element::i64, {1}, {x})`: element type i64, shape {1}, the single value `x` |
| Graph.AxisZero | ngraph/frontend/onnx_import/src/op/loop.cpp:142-144 | `concat_axis_const` holds the single axis value 0 |
| Graph.ShapeOf | ngraph/frontend/onnx_import/src/op/loop.cpp:148 | the null node and Loop outputs are never static; a constant's shape is its own; a static Unsqueeze of axis 0 has its operand's dimensions with a leading 1 |
| Graph.IsStaticScalar | ngraph/frontend/onnx_import/src/op/loop.cpp:149-150 | the null node, Loop outputs and Unsqueeze results are never static scalars; a constant is one exactly when its shape is empty |
| Graph.IsConstantWithFirst | ngraph/frontend/onnx_import/src/op/loop.cpp:108-112 | holds exactly for a Constant node with at least one value whose first value is nonzero exactly when `b` |
| Graph.IsBooleanConstantWithFirst | ngraph/frontend/onnx_import/src/op/loop.cpp:64-68 | holds only for a Constant of element type boolean with a first value that is nonzero exactly when `b` |
| OnnxLoop.FoldedCondition | ngraph/frontend/onnx_import/src/op/loop.cpp:159-163 | the condition output is replaced exactly when the identity predicate returns true, and then by a boolean constant {true} of shape {1} |
| OnnxLoop.FoldingCanTurnFalseIntoTrue | ngraph/frontend/onnx_import/src/op/loop.cpp:59-68 | `LogicalOr(x, false)` with `x` false evaluates to false, yet the fold replaces it by constant true: the predicate never checks the first operand |
| Graph.BooleanConstant | ngraph/frontend/onnx_import/src/op/loop.cpp:105-106 | a boolean constant of shape {1} whose single value reads back as `b` |
| OnnxLoop.TrueCondition | ngraph/frontend/onnx_import/src/op/loop.cpp:138-139 | the synthesised condition is a boolean constant of shape {1} whose first value is true |
| OnnxLoop.InfiniteTripCount | ngraph/frontend/onnx_import/src/op/loop.cpp:92-93 | the synthesised trip count is the i64 constant {-1} of shape {1} |
| OnnxLoop.IsTerminationConditionAlwaysTrue | ngraph/frontend/onnx_import/src/op/loop.cpp:52-74 | Ok(true) exactly when the producer is LogicalOr and its second input is a boolean constant whose first value is false. It is an OutOfRange error exactly when that second input is an empty boolean constant (`.at(0)`). Otherwise it is Ok(false) |
| OnnxLoop.IdentityPatternPassesFirstOperand | ngraph/frontend/onnx_import/src/op/loop.cpp:55-58 | when the pattern matches, the condition output evaluates, in every environment, to its first operand: `LogicalOr(x, false)` is the identity |
| OnnxLoop.FoldingPreservesTruth | ngraph/frontend/onnx_import/src/op/loop.cpp:157-163 | replacing the condition output by constant true never changes its truth value while the first operand is true |
| OnnxLoop.ScanNormalized | ngraph/frontend/onnx_import/src/op/loop.cpp:148-153 | an output at index ≤ k, or one not static and scalar, is unchanged. A static scalar scan output becomes `Unsqueeze(v, {0})` of shape [1]. A scan output is never static scalar afterwards |
| OnnxLoop.NormalizeScanOutputs | ngraph/frontend/onnx_import/src/op/loop.cpp:142-155 | the loop over indices k+1.. keeps the length. It changes exactly the static scalar scan outputs, each as `ScanNormalized` says, and leaves no scan output static scalar |
| OnnxLoop.ScanNormalizationIdempotent | ngraph/frontend/onnx_import/src/op/loop.cpp:146-155 | a second normalisation pass changes nothing |
| OnnxLoop.AppendAll | ngraph/frontend/onnx_import/src/op/loop.cpp:120-130 | the two `push_back` loops give every element of the first list, then every element of the second, in order (length is the sum) |
| OnnxLoop.BodyParameters | ngraph/frontend/onnx_import/src/op/loop.cpp:189-191 | the body function's parameters are `body_inputs[0]` followed by `body_inputs[2..]`, so their length is `len(body_inputs) - 1` |
| OnnxLoop.ConditionInputDropped | ngraph/frontend/onnx_import/src/op/loop.cpp:189-191 | when the body parameters are distinct, `body_inputs[1]` (the condition input) is not a parameter of the body function |
| OnnxLoop.BuiltLoopBindsBodyPorts | ngraph/frontend/onnx_import/src/op/loop.cpp:192-208 | every merged input's body parameter is a parameter of the body function, and its back edge is one of the function's results |
| OnnxLoop.BuildLoop | ngraph/frontend/onnx_import/src/op/loop.cpp:189-230 | a fresh Loop with the given trip count and condition and special ports {0, 0}. Its body is `Function(results, BodyParameters(bodyInputs))`. Merged input i binds `body_inputs[2+i]` with initial value `v_i` and back edge `results[1+i]`. Output i < k is the iteration -1 value of `results[1+i]`. Later outputs are the slices (0, 1, 1, -1, axis 0) of the scan results in order. Operator output i is Loop output i |
| OnnxLoop.Lower | ngraph/frontend/onnx_import/src/op/loop.cpp:77-231 | the whole `loop()` lowering, stated case by case. It is a zero-iteration result exactly for a constant-false condition, with outputs `v ++ v`. It fails with OutOfRange for empty body outputs or an empty boolean identity constant, and with the two arity errors (in that order, carrying both counts). It warns exactly when the pattern does not match. When lowered, the trip count is {-1} or input 0 as given, the condition is always constant true, and the body results are the folded condition followed by the normalised outputs. Back edges are the body outputs as given, and there are `len(body_outputs) - 1` = k + m outputs |
| LoopOp.Loop.constructor | ngraph/frontend/onnx_import/src/op/loop.cpp:193 | a Loop over the trip count and condition, with no ports, no body, no bindings and no outputs yet |
| LoopOp.Loop.SetSpecialBodyPorts | ngraph/frontend/onnx_import/src/op/loop.cpp:194-195 | records the special ports and changes nothing else |
| LoopOp.Loop.SetFunction | ngraph/frontend/onnx_import/src/op/loop.cpp:196 | records the body function and changes nothing else |
| LoopOp.Loop.SetMergedInput | ngraph/frontend/onnx_import/src/op/loop.cpp:208 | appends one merged-input binding and changes nothing else |
| LoopOp.Loop.GetIterValue | ngraph/frontend/onnx_import/src/op/loop.cpp:209 | appends an iteration-value output description and returns the Loop output port it occupies |
| LoopOp.Loop.GetConcatenatedSlices | ngraph/frontend/onnx_import/src/op/loop.cpp:217-218 | appends a concatenated-slices output description and returns the Loop output port it occupies |

## Left out

- Graph objects are values. Node identity is structural equality of `Value`s, and `make_shared`, `Output<Node>` handles and the Function and Loop internals (input ports added by `set_merged_input`, validation, shape inference) are not modelled.
- Lower: requires at least two operator inputs. With fewer, `std::next(ng_inputs.begin(), 2)` runs past the end, which is undefined behaviour rather than a handled error.
- Lower: requires a constant condition input to have at least one value. The read `cast_vector<bool>()[0]` is unchecked, unlike the `.at(0)` in the identity predicate, so an empty constant there is undefined behaviour.
- ShapeOf: only an `Unsqueeze` with axes `{0}` gets a computed shape; `LogicalOr` and other nodes carry a declared shape instead of a broadcast result.
- Truth: reads only the first element of a boolean value; it exists to state what the identity pattern means, not to execute the Loop.
- Loop execution and nGraph shape inference for the Loop outputs are not modelled. This code only describes the loop.
- Parsing of the `body` subgraph attribute and of the ONNX model is not modelled: the body's parameters and outputs are inputs of `Lower`.
- The warning text (`NGRAPH_WARN`) is reduced to the `warned` flag; `CHECK_VALID_NODE` exceptions and `std::out_of_range` are reduced to `LoweringError` values carrying the counts.
- NormalizeScanOutputs: its counter is unbounded here. At loop.cpp:146 it is a signed 32-bit `int` initialised to `k + 1`, so the model diverges from the source once `k + 1` exceeds 2^31 - 1.

## Notes on the code

- The arity checks (loop.cpp:172-187) run after `body_outputs.at(0)` is read (loop.cpp:157) and after the identity predicate runs (loop.cpp:159). So empty body outputs give `OutOfRange`, not an arity error, and the model follows that order.
- The comment on loop.cpp:191 calls the kept parameter the termination-condition input. But loop.cpp:199 says `body_inputs[0]` is the iteration number, and special port 0 is the current-iteration input. The model follows the indices: it keeps `body_inputs[0]` and drops `body_inputs[1]`.
- The identity predicate (loop.cpp:59-68) checks only the second operand of the `LogicalOr`, never the first. The fold at loop.cpp:159-163 can therefore turn a condition output that evaluates to false into the constant true. `FoldingCanTurnFalseIntoTrue` exhibits such an input. `FoldingPreservesTruth` states the case in which the fold is sound: while the first operand is true. The model keeps the predicate as written.
