/**
 * The Python values the metadata layer reads and writes: JSON values as Python
 * holds them (tuples and lists alike are `List`), plus the two non-JSON objects
 * that reach the same parameters, `bytes` and an instantiated codec.
 */
module Values {
  import opened Common

  type byte = x: int | 0 <= x < 256

  /** A Python float, abstracted: the three special values and a finite real. */
  datatype Flt = NaN | PosInf | NegInf | Finite(r: real)

  datatype Value =
    | Null
    | Bool(b: bool)
    | Int(i: int)
    | Float(f: Flt)
    | Str(s: string)
    | Bytes(bs: seq<byte>)
    | List(items: seq<Value>)
    | Dict(entries: map<string, Value>)
      /** A codec object, known only through its configuration mapping. */
    | Codec(config: map<string, Value>)

  /** Python's `bool(v)`. */
  predicate Truthy(v: Value) {
    match v
    case Null => false
    case Bool(b) => b
    case Int(i) => i != 0
    case Float(f) => f != Finite(0.0)
    case Str(s) => s != ""
    case Bytes(bs) => bs != []
    case List(items) => items != []
    case Dict(entries) => entries != map[]
    case Codec(_) => true
  }

  /** Python's `v == 0`; `False == 0` holds because `bool` is a subclass of `int`. */
  predicate EqualsZero(v: Value) {
    v == Bool(false) || v == Int(0) || v == Float(Finite(0.0))
  }

  /** Python's `isinstance(v, int)`, which also holds of booleans. */
  predicate IsPyInt(v: Value) {
    v.Int? || v.Bool?
  }

  /** `int(v)` of a value satisfying `IsPyInt`. */
  function PyIntValue(v: Value): int
    requires IsPyInt(v)
  {
    if v.Int? then v.i else if v.b then 1 else 0
  }

  /** A Python tuple or list of ints, such as a shape or the values of a byte string. */
  function IntList(xs: seq<int>): (v: Value)
    ensures v.List? && |v.items| == |xs|
    ensures forall k :: 0 <= k < |xs| ==> v.items[k] == Int(xs[k])
  {
    List(seq(|xs|, k requires 0 <= k < |xs| => Int(xs[k])))
  }

  /** `len(v)`, or `None` when the value has no length. */
  function LenOf(v: Value): Option<nat> {
    match v
    case Str(s) => Some(|s|)
    case Bytes(bs) => Some(|bs|)
    case List(items) => Some(|items|)
    case Dict(entries) => Some(|entries|)
    case _ => None
  }

  /** The elements of a value that is a `collections.abc.Sequence` other than `str`. */
  function SequenceItems(v: Value): Option<seq<Value>> {
    match v
    case List(items) => Some(items)
    case Bytes(bs) => Some(seq(|bs|, k requires 0 <= k < |bs| => Int(bs[k])))
    case _ => None
  }
}
