/**
 * The graph values the ONNX importer hands to an operator lowering:
 * an output of some nGraph node, seen only as far as the Loop lowering
 * inspects it (is it the null node, a constant, a LogicalOr, and is its
 * shape static and scalar).
 */
module Graph {
  import opened Wrappers

  datatype ElementType = Boolean | I64 | OtherElementType

  /** A partial shape, reduced to what the lowering asks of it. */
  datatype Shape = Static(dims: seq<nat>) | NotStatic

  /** A Constant node. Boolean constants hold 0 or 1 in `values`. */
  datatype Constant = Constant(elementType: ElementType, shape: seq<nat>, values: seq<int>)

  datatype Value =
    | Null                                          // the importer's NullNode: an omitted optional input
    | Const(constant: Constant)
    | LogicalOr(lhs: Value, rhs: Value, orShape: Shape)
    | Unsqueeze(data: Value, axes: Constant)
    | Node(id: nat, nodeShape: Shape)               // any other node; only its identity and shape matter here
    | LoopOutput(port: nat)                         // output `port` of the Loop node the lowering emits

  /** The axes constant `{0}` (element type i64, shape {1}). */
  function AxisZero(): (c: Constant)
    ensures c.values == [0]
  {
    I64Constant(0)
  }

  /** `Constant::create(element::i64, {1}, {x})`. */
  function I64Constant(x: int): (c: Constant)
    ensures c.elementType == I64 && c.shape == [1] && c.values == [x]
  {
    Constant(I64, [1], [x])
  }

  /** `Constant::create(element::boolean, {1}, {b})`. */
  function BooleanConstant(b: bool): (c: Constant)
    ensures c.elementType == Boolean && c.shape == [1] && |c.values| == 1
    ensures CastToBool(c) == [b]
  {
    Constant(Boolean, [1], [if b then 1 else 0])
  }

  /** `cast_vector<bool>()`: every element converted, nonzero meaning true. */
  function CastToBool(c: Constant): (bs: seq<bool>)
    ensures |bs| == |c.values|
    ensures forall i :: 0 <= i < |bs| ==> (bs[i] <==> c.values[i] != 0)
  {
    seq(|c.values|, i requires 0 <= i < |c.values| => c.values[i] != 0)
  }

  /** `get_partial_shape()`; only Unsqueeze at axis 0 is given a static result. */
  function ShapeOf(v: Value): (s: Shape)
    ensures v.Null? || v.LoopOutput? ==> s == NotStatic
    ensures v.Const? ==> s == Static(v.constant.shape)
    ensures v.Unsqueeze? && s.Static? ==>
              ShapeOf(v.data).Static? && s.dims == [1] + ShapeOf(v.data).dims
  {
    match v
    case Null => NotStatic
    case Const(c) => Static(c.shape)
    case LogicalOr(_, _, s) => s
    case Unsqueeze(d, axes) =>
      (match ShapeOf(d)
       case Static(dims) => if axes.values == [0] then Static([1] + dims) else NotStatic
       case NotStatic => NotStatic)
    case Node(_, s) => s
    case LoopOutput(_) => NotStatic
  }

  /** `is_static() && is_scalar(to_shape())`. */
  predicate IsStaticScalar(v: Value)
    ensures IsStaticScalar(v) ==> !v.Null? && !v.LoopOutput? && !v.Unsqueeze?
    ensures v.Const? ==> (IsStaticScalar(v) <==> v.constant.shape == [])
  {
    ShapeOf(v) == Static([])
  }

  /** A Constant node (of any element type) whose first value, cast to bool, is `b`. */
  predicate IsConstantWithFirst(v: Value, b: bool)
    ensures IsConstantWithFirst(v, b) <==>
              v.Const? && |v.constant.values| > 0 && (v.constant.values[0] != 0) == b
  {
    v.Const? && |v.constant.values| > 0 && CastToBool(v.constant)[0] == b
  }

  /** A boolean Constant node whose first value is `b`. */
  predicate IsBooleanConstantWithFirst(v: Value, b: bool)
    ensures IsBooleanConstantWithFirst(v, b) ==>
              && v.Const? && v.constant.elementType == Boolean
              && |v.constant.values| > 0 && (v.constant.values[0] != 0) == b
  {
    IsConstantWithFirst(v, b) && v.constant.elementType == Boolean
  }

  /**
   * The truth value a boolean value takes (its first element), given the
   * truth values of the opaque nodes; None where the model cannot say.
   */
  function Truth(v: Value, env: map<nat, bool>): Option<bool>
  {
    match v
    case Const(c) => if |c.values| > 0 then Some(c.values[0] != 0) else None
    case LogicalOr(a, b, _) =>
      (match (Truth(a, env), Truth(b, env))
       case (Some(x), Some(y)) => Some(x || y)
       case _ => None)
    case Unsqueeze(d, _) => Truth(d, env)
    case Node(id, _) => if id in env then Some(env[id]) else None
    case _ => None
  }
}
