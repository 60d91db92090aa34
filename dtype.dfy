/**
 * The data-type wrappers of the zarr metadata layer: one wrapper per numpy
 * scalar kind, each converting fill values between their numpy form and the
 * JSON written into a metadata document.
 */
module DType {
  import opened Common
  import opened Values
  import Decimal

  /** The zarr format generation a conversion targets (`ZarrFormat`). */
  type ZarrFormat = f: int | f == 2 || f == 3 witness 2

  // ---------------------------------------------------------------------------
  // Endianness

  /**
   * `endianness_to_numpy_str`: the byte-order code numpy uses for an endianness
   * name; `None` (Python's `None`) means "not applicable". Any other name is a ValueError.
   */
  function EndiannessToNumpyStr(e: Option<string>): (r: Result<char>)
    ensures r == Ok('<') <==> e == Some("little")
    ensures r == Ok('>') <==> e == Some("big")
    ensures r == Ok('=') <==> e == Some("native")
    ensures r == Ok('|') <==> e == None
    ensures r.Err? ==> r.error == ValueError
  {
    match e
    case Some("little") => Ok('<')
    case Some("big") => Ok('>')
    case Some("native") => Ok('=')
    case None => Ok('|')
    case _ => Err(ValueError)
  }

  // ---------------------------------------------------------------------------
  // JSON shape predicates

  predicate CheckJsonBool(d: Value) {
    d.Bool?
  }

  predicate CheckJsonStr(d: Value) {
    d.Str?
  }

  /** `isinstance(d, int)`: booleans pass as well. */
  predicate CheckJsonInt(d: Value) {
    IsPyInt(d)
  }

  predicate IsFloatSentinel(d: Value) {
    d == Str("NaN") || d == Str("Infinity") || d == Str("-Infinity")
  }

  /** A sentinel string, or `isinstance(d, float | int)` (booleans included). */
  predicate CheckJsonFloatV2(d: Value) {
    IsFloatSentinel(d) || d.Float? || IsPyInt(d)
  }

  predicate CheckJsonFloatV3(d: Value) {
    CheckJsonFloatV2(d)
  }

  predicate CheckJsonFloat(d: Value, zarrFormat: ZarrFormat) {
    if zarrFormat == 2 then CheckJsonFloatV2(d) else CheckJsonFloatV3(d)
  }

  /** A non-string sequence of two elements that both pass the v3 float check. */
  predicate CheckJsonComplexFloatV3(d: Value) {
    match SequenceItems(d)
    case None => false
    case Some(items) => |items| == 2 && CheckJsonFloatV3(items[0]) && CheckJsonFloatV3(items[1])
  }

  /** A non-string sequence of two elements that both pass the v2 float check. */
  predicate CheckJsonComplexFloatV2(d: Value) {
    match SequenceItems(d)
    case None => false
    case Some(items) => |items| == 2 && CheckJsonFloatV2(items[0]) && CheckJsonFloatV2(items[1])
  }

  predicate CheckJsonComplexFloat(d: Value, zarrFormat: ZarrFormat) {
    if zarrFormat == 2 then CheckJsonComplexFloatV2(d) else CheckJsonComplexFloatV3(d)
  }

  // ---------------------------------------------------------------------------
  // Floats and complex numbers to and from JSON

  /** `float_to_json_v2`: NaN and the infinities become sentinel strings. */
  function FloatToJsonV2(x: Flt): (j: Value)
    ensures CheckJsonFloatV2(j)
    ensures j.Float? <==> x.Finite?
  {
    match x
    case NaN => Str("NaN")
    case PosInf => Str("Infinity")
    case NegInf => Str("-Infinity")
    case Finite(r) => Float(Finite(r))
  }

  function FloatToJsonV3(x: Flt): Value {
    FloatToJsonV2(x)
  }

  function FloatToJson(x: Flt, zarrFormat: ZarrFormat): Value {
    if zarrFormat == 2 then FloatToJsonV2(x) else FloatToJsonV3(x)
  }

  /**
   * The least magnitude of an int that `float()` refuses with OverflowError:
   * 2^1024 - 2^970, halfway between the largest float64 and 2^1024, which
   * rounding half to even carries up to 2^1024.
   */
  const Float64Overflow: int := 0xfffffffffffffc00000000000000000000000000000000000000000000000000000000000000000000000000000000000000000000000000000000000000000000000000000000000000000000000000000000000000000000000000000000000000000000000000000000000000000000000000000000000000000000000000

  /** An int (or bool) too large in magnitude for `float()`. */
  predicate FloatOverflows(d: Value) {
    IsPyInt(d) && (PyIntValue(d) <= -Float64Overflow || Float64Overflow <= PyIntValue(d))
  }

  /** `float(d)` of a number or boolean: an int beyond the float64 range is an OverflowError. */
  function PyFloat(d: Value): (r: Result<Flt>)
    requires d.Float? || IsPyInt(d)
    ensures r.Err? <==> FloatOverflows(d)
    ensures r.Err? ==> r.error == OverflowError
  {
    if d.Float? then Ok(d.f)
    else if FloatOverflows(d) then Err(OverflowError)
    else Ok(Finite(PyIntValue(d) as real))
  }

  /** `float_from_json_v2` on a value of type `JSONFloat` (a sentinel string or a number). */
  function FloatFromJsonV2(d: Value): Result<Flt>
    requires CheckJsonFloatV2(d)
  {
    match d
    case Str("NaN") => Ok(NaN)
    case Str("Infinity") => Ok(PosInf)
    case Str("-Infinity") => Ok(NegInf)
    case _ => PyFloat(d)
  }

  function FloatFromJsonV3(d: Value): Result<Flt>
    requires CheckJsonFloatV3(d)
  {
    FloatFromJsonV2(d)
  }

  function FloatFromJson(d: Value, zarrFormat: ZarrFormat): Result<Flt>
    requires CheckJsonFloat(d, zarrFormat)
  {
    if zarrFormat == 2 then FloatFromJsonV2(d) else FloatFromJsonV3(d)
  }

  predicate IsInf(x: Flt) {
    x == PosInf || x == NegInf
  }

  predicate IsPositive(x: Flt) {
    x == PosInf || (x.Finite? && x.r > 0.0)
  }

  /** numpy orders complex numbers lexicographically: `z > 0` compares the real parts first. */
  predicate ComplexGreaterThanZero(re: Flt, im: Flt) {
    IsPositive(re) || (re == Finite(0.0) && IsPositive(im))
  }

  /**
   * `complex_to_json_v2` as written: it hands the complex number to
   * `float_to_json_v2`, so NaN in either part gives "NaN", an infinite part gives
   * "Infinity" or "-Infinity" by the sign of `z > 0`, and otherwise `float(z)`
   * keeps only the real part.
   */
  function ComplexToJsonV2(re: Flt, im: Flt): Value {
    if re.NaN? || im.NaN? then Str("NaN")
    else if IsInf(re) || IsInf(im) then
      (if ComplexGreaterThanZero(re, im) then Str("Infinity") else Str("-Infinity"))
    else Float(re)
  }

  /** `complex_to_json_v3`: the pair of the encoded real and imaginary parts. */
  function ComplexToJsonV3(re: Flt, im: Flt): (j: Value)
    ensures CheckJsonComplexFloatV3(j)
  {
    List([FloatToJsonV3(re), FloatToJsonV3(im)])
  }

  function ComplexToJson(re: Flt, im: Flt, zarrFormat: ZarrFormat): Value {
    if zarrFormat == 2 then ComplexToJsonV2(re, im) else ComplexToJsonV3(re, im)
  }

  /**
   * `complex_from_json` on a checked pair. With zarr format 2 numpy's scalar
   * constructor receives the list itself and builds an array, which this model
   * does not describe. Otherwise Python's `complex(a, b)` is applied, which
   * refuses a string in either position before it converts either part, and
   * then converts each part as `float()` does.
   */
  function ComplexFromJson(d: Value, zarrFormat: ZarrFormat): (r: Result<Scalar>)
    requires CheckJsonComplexFloatV3(d)
    ensures zarrFormat == 2 ==> r == Err(Unmodelled)
    ensures zarrFormat == 3 && (SequenceItems(d).value[0].Str? || SequenceItems(d).value[1].Str?) ==> r == Err(TypeError)
    ensures zarrFormat == 3 && !SequenceItems(d).value[0].Str? && !SequenceItems(d).value[1].Str? ==>
      var re, im := SequenceItems(d).value[0], SequenceItems(d).value[1];
      && (r.Ok? <==> !FloatOverflows(re) && !FloatOverflows(im))
      && (r.Ok? ==> r == Ok(SComplex(PyFloat(re).value, PyFloat(im).value)))
      && (r.Err? ==> r == Err(OverflowError))
  {
    if zarrFormat == 2 then Err(Unmodelled)
    else
      var items := SequenceItems(d).value;
      if items[0].Str? || items[1].Str? then Err(TypeError)
      else
        var re :- PyFloat(items[0]);
        var im :- PyFloat(items[1]);
        Ok(SComplex(re, im))
  }

  // ---------------------------------------------------------------------------
  // Wrappers, numpy dtypes and scalars

  /** A numpy scalar value. `SObject` is whatever Python object an object-dtype array holds. */
  datatype Scalar =
    | SBool(b: bool)
    | SInt(i: int)
    | SFloat(f: Flt)
    | SComplex(re: Flt, im: Flt)
    | SBytes(bs: seq<byte>)
    | SVoid(bs: seq<byte>)
    | SStr(s: string)
    | SObject(v: Value)

  /** A numpy dtype, reduced to its kind character and item size in bytes. */
  datatype NDType = NDType(kind: char, itemsize: nat)

  /** `DataTypeFlavor`, the `kind` class attribute of a wrapper. */
  datatype Flavor = Boolean | Numeric | String | RawBytes

  function FlavorName(f: Flavor): string {
    match f
    case Boolean => "boolean"
    case Numeric => "numeric"
    case String => "string"
    case RawBytes => "bytes"
  }

  /** One constructor per wrapper class; the flexible kinds carry their `length`. */
  datatype Wrapper =
    | Bool
    | Int8 | UInt8 | Int16 | UInt16 | Int32 | UInt32 | Int64 | UInt64
    | Float16 | Float32 | Float64
    | Complex64 | Complex128
    | StaticByteString(length: nat)
    | StaticRawBytes(length: nat)
    | StaticUnicodeString(length: nat)
    | VlenString

  predicate IsIntWrapper(w: Wrapper) {
    w.Int8? || w.UInt8? || w.Int16? || w.UInt16? || w.Int32? || w.UInt32? || w.Int64? || w.UInt64?
  }

  predicate IsFloatWrapper(w: Wrapper) {
    w.Float16? || w.Float32? || w.Float64?
  }

  predicate IsComplexWrapper(w: Wrapper) {
    w.Complex64? || w.Complex128?
  }

  predicate IsFlexible(w: Wrapper) {
    w.StaticByteString? || w.StaticRawBytes? || w.StaticUnicodeString?
  }

  /** The smallest value of an integer wrapper's width. */
  function IntMin(w: Wrapper): int
    requires IsIntWrapper(w)
  {
    match w
    case Int8 => -0x80
    case Int16 => -0x8000
    case Int32 => -0x8000_0000
    case Int64 => -0x8000_0000_0000_0000
    case _ => 0
  }

  /** The largest value of an integer wrapper's width. */
  function IntMax(w: Wrapper): int
    requires IsIntWrapper(w)
  {
    match w
    case Int8 => 0x7F
    case UInt8 => 0xFF
    case Int16 => 0x7FFF
    case UInt16 => 0xFFFF
    case Int32 => 0x7FFF_FFFF
    case UInt32 => 0xFFFF_FFFF
    case Int64 => 0x7FFF_FFFF_FFFF_FFFF
    case _ => 0xFFFF_FFFF_FFFF_FFFF
  }

  predicate InIntRange(w: Wrapper, i: int)
    requires IsIntWrapper(w)
  {
    IntMin(w) <= i <= IntMax(w)
  }

  /** The class attribute `name`. */
  function Name(w: Wrapper): string {
    match w
    case Bool => "bool"
    case Int8 => "int8"
    case UInt8 => "uint8"
    case Int16 => "int16"
    case UInt16 => "uint16"
    case Int32 => "int32"
    case UInt32 => "uint32"
    case Int64 => "int64"
    case UInt64 => "uint64"
    case Float16 => "float16"
    case Float32 => "float32"
    case Float64 => "float64"
    case Complex64 => "complex64"
    case Complex128 => "complex128"
    case StaticByteString(_) => "numpy/static_byte_string"
    case StaticRawBytes(_) => "r*"
    case StaticUnicodeString(_) => "numpy/static_unicode_string"
    case VlenString => "numpy/vlen_string"
  }

  /** The class attribute `kind`. */
  function Kind(w: Wrapper): Flavor {
    match w
    case Bool => Boolean
    case StaticByteString(_) => String
    case StaticUnicodeString(_) => String
    case VlenString => String
    case StaticRawBytes(_) => RawBytes
    case _ => Numeric
  }

  /** Bits per unit of length of a flexible kind: a byte, or a UCS4 code point. */
  function ItemSizeBits(w: Wrapper): nat
    requires IsFlexible(w)
  {
    if w.StaticUnicodeString? then 32 else 8
  }

  /** The numpy dtype a wrapper stands for, as `to_dtype` builds it (byte order aside). */
  function NumpyDType(w: Wrapper): NDType {
    match w
    case Bool => NDType('b', 1)
    case Int8 => NDType('i', 1)
    case UInt8 => NDType('u', 1)
    case Int16 => NDType('i', 2)
    case UInt16 => NDType('u', 2)
    case Int32 => NDType('i', 4)
    case UInt32 => NDType('u', 4)
    case Int64 => NDType('i', 8)
    case UInt64 => NDType('u', 8)
    case Float16 => NDType('f', 2)
    case Float32 => NDType('f', 4)
    case Float64 => NDType('f', 8)
    case Complex64 => NDType('c', 8)
    case Complex128 => NDType('c', 16)
    case StaticByteString(n) => NDType('S', n)
    case StaticRawBytes(n) => NDType('V', n)
    case StaticUnicodeString(n) => NDType('U', 4 * n)
    case VlenString => NDType('O', 8)
  }

  /**
   * `to_dtype(endianness=e)`: the numpy dtype with the requested byte order; an
   * endianness name other than little, big, native or `None` is a ValueError.
   */
  function ToDtype(w: Wrapper, e: Option<string>): (r: Result<NDType>)
    ensures r.Ok? <==> EndiannessToNumpyStr(e).Ok?
    ensures r.Ok? ==> r.value == NumpyDType(w)
    ensures r.Err? ==> r.error == ValueError
  {
    var _ :- EndiannessToNumpyStr(e);
    Ok(NumpyDType(w))
  }

  /**
   * `from_dtype` of the wrapper class that `cls` is an instance of: flexible
   * kinds take `length = itemsize // (item_size_bits // 8)`, the others are
   * built without arguments.
   */
  function FromDtype(cls: Wrapper, dt: NDType): (w: Wrapper)
    ensures IsFlexible(cls) ==> IsFlexible(w) && ItemSizeBits(w) == ItemSizeBits(cls)
    ensures IsFlexible(cls) ==> w.length * (ItemSizeBits(cls) / 8) <= dt.itemsize < (w.length + 1) * (ItemSizeBits(cls) / 8)
    ensures !IsFlexible(cls) ==> w == cls
  {
    match cls
    case StaticByteString(_) => StaticByteString(dt.itemsize / (8 / 8))
    case StaticRawBytes(_) => StaticRawBytes(dt.itemsize / (8 / 8))
    case StaticUnicodeString(_) => StaticUnicodeString(dt.itemsize / (32 / 8))
    case _ => cls
  }

  /** `to_dict`: the name, and for the byte and unicode strings their length as configuration. */
  function ToDict(w: Wrapper): (d: map<string, Value>)
    ensures "name" in d && d["name"].Str?
    ensures "configuration" in d <==> w.StaticByteString? || w.StaticUnicodeString?
    ensures !w.StaticRawBytes? ==> d["name"] == Str(Name(w))
  {
    match w
    case StaticByteString(n) => map["name" := Str(Name(w)), "configuration" := Dict(map["length" := Int(n)])]
    case StaticUnicodeString(n) => map["name" := Str(Name(w)), "configuration" := Dict(map["length" := Int(n)])]
    case StaticRawBytes(n) => map["name" := Str("r" + Decimal.NatToString(8 * n))]
    case _ => map["name" := Str(Name(w))]
  }

  /** A scalar of the type a wrapper describes (what `to_json_value` is declared to accept). */
  predicate Holds(w: Wrapper, x: Scalar) {
    match w
    case Bool => x.SBool?
    case StaticByteString(_) => x.SBytes?
    case StaticRawBytes(_) => x.SVoid?
    case StaticUnicodeString(_) => x.SStr?
    case VlenString => x.SObject?
    case Int8 | UInt8 | Int16 | UInt16 | Int32 | UInt32 | Int64 | UInt64 => x.SInt? && InIntRange(w, x.i)
    case Float16 | Float32 | Float64 => x.SFloat?
    case Complex64 | Complex128 => x.SComplex?
  }

  /** The class attribute `default_value`: zero, false, or empty. */
  function DefaultValue(w: Wrapper): (x: Scalar)
    ensures Holds(w, x)
  {
    match w
    case Bool => SBool(false)
    case Float16 => SFloat(Finite(0.0))
    case Float32 => SFloat(Finite(0.0))
    case Float64 => SFloat(Finite(0.0))
    case Complex64 => SComplex(Finite(0.0), Finite(0.0))
    case Complex128 => SComplex(Finite(0.0), Finite(0.0))
    case StaticByteString(_) => SBytes([])
    case StaticRawBytes(_) => SVoid([])
    case StaticUnicodeString(_) => SStr("")
    case VlenString => SObject(Str(""))
    case _ => SInt(0)
  }

  // ---------------------------------------------------------------------------
  // Values to JSON

  predicate IsAscii(bs: seq<byte>) {
    forall k :: 0 <= k < |bs| ==> bs[k] < 128
  }

  function AsciiChars(bs: seq<byte>): (s: string)
    ensures |s| == |bs|
  {
    seq(|bs|, k requires 0 <= k < |bs| => bs[k] as char)
  }

  /** `data.tobytes().decode("ascii")`, failing on any byte above 127. */
  function StaticByteStringToJson(bs: seq<byte>): (r: Result<Value>)
    ensures r.Ok? <==> IsAscii(bs)
    ensures r.Ok? ==> r.value.Str? && |r.value.s| == |bs|
    ensures r.Err? ==> r.error == UnicodeDecodeError
  {
    if IsAscii(bs) then Ok(Str(AsciiChars(bs))) else Err(UnicodeDecodeError)
  }

  /**
   * `tuple(*data.tobytes())` as written: unpacking the bytes into `tuple(...)`
   * passes each byte as a separate argument, so only the empty byte string
   * succeeds (giving the empty tuple); one byte is not iterable and two or more
   * are too many arguments, both TypeError.
   */
  function StaticRawBytesToJson(bs: seq<byte>): (r: Result<Value>)
    ensures r.Ok? <==> bs == []
  {
    if bs == [] then Ok(List([])) else Err(TypeError)
  }

  /** `str(data)` of an object-dtype value; only a string renders as itself here. */
  function VlenStringToJson(v: Value): (r: Result<Value>)
    ensures v.Str? ==> r == Ok(v)
  {
    if v.Str? then Ok(v) else Err(Unmodelled)
  }

  /** `to_json_value(data, zarr_format)`, for a scalar of the wrapper's type. */
  function ToJsonValue(w: Wrapper, x: Scalar, zarrFormat: ZarrFormat): (r: Result<Value>)
    requires Holds(w, x)
    ensures w.Bool? ==> r == Ok(Value.Bool(x.b))
    ensures IsIntWrapper(w) ==> r == Ok(Int(x.i))
    ensures IsFloatWrapper(w) ==> r.Ok? && CheckJsonFloatV2(r.value)
    ensures IsComplexWrapper(w) && zarrFormat == 3 ==> r.Ok? && CheckJsonComplexFloatV3(r.value)
    ensures w.StaticUnicodeString? ==> r == Ok(Str(x.s))
  {
    match w
    case Bool => Ok(Value.Bool(x.b))
    case StaticByteString(_) => StaticByteStringToJson(x.bs)
    case StaticRawBytes(_) => StaticRawBytesToJson(x.bs)
    case StaticUnicodeString(_) => Ok(Str(x.s))
    case VlenString => VlenStringToJson(x.v)
    case Int8 | UInt8 | Int16 | UInt16 | Int32 | UInt32 | Int64 | UInt64 => Ok(Int(x.i))
    case Float16 | Float32 | Float64 => Ok(FloatToJson(x.f, zarrFormat))
    case Complex64 | Complex128 => Ok(ComplexToJson(x.re, x.im, zarrFormat))
  }

  // ---------------------------------------------------------------------------
  // Values from JSON

  /** `bytes(x)` for a list: every element an int (or bool) in 0..255, checked in order. */
  function BytesOfList(items: seq<Value>): (r: Result<seq<byte>>)
    ensures r.Ok? ==> |r.value| == |items|
    ensures r.Ok? ==> forall k :: 0 <= k < |items| ==> IsPyInt(items[k]) && PyIntValue(items[k]) == r.value[k]
    decreases |items|
  {
    if items == [] then Ok([])
    else if !IsPyInt(items[0]) then Err(TypeError)
    else if !(0 <= PyIntValue(items[0]) < 256) then Err(ValueError)
    else
      var rest :- BytesOfList(items[1..]);
      Ok([PyIntValue(items[0]) as byte] + rest)
  }

  /**
   * Python's `bytes(d)`: an int (or bool) is a count of zero bytes, bytes are
   * copied, an iterable of ints gives those bytes, and a string or a value that
   * is neither is a TypeError.
   */
  function BytesOf(d: Value): (r: Result<seq<byte>>)
    ensures d.Bytes? ==> r == Ok(d.bs)
    ensures d.Str? || d.Null? || d.Float? || d.Codec? ==> r == Err(TypeError)
  {
    match d
    case Int(n) => if n < 0 then Err(ValueError) else Ok(seq(n, _ => 0))
    case Bool(b) => Ok(if b then [0] else [])
    case Bytes(bs) => Ok(bs)
    case List(items) => BytesOfList(items)
    case Dict(entries) => if entries == map[] then Ok([]) else Err(TypeError)
    case _ => Err(TypeError)
  }

  /** `Bool.from_json_value`: only a JSON boolean is accepted. */
  function BoolFromJson(d: Value, e: Option<string>): (r: Result<Scalar>)
    ensures !CheckJsonBool(d) ==> r == Err(TypeError)
    ensures CheckJsonBool(d) && EndiannessToNumpyStr(e).Ok? ==> r == Ok(SBool(d.b))
  {
    if CheckJsonBool(d) then
      var _ :- ToDtype(Wrapper.Bool, e);
      Ok(SBool(d.b))
    else Err(TypeError)
  }

  /**
   * `IntWrapperBase.from_json_value`: a value passing `check_json_int` (booleans
   * included) becomes the numpy integer; numpy refuses one outside the width.
   */
  function IntFromJson(w: Wrapper, d: Value, e: Option<string>): (r: Result<Scalar>)
    requires IsIntWrapper(w)
    ensures !CheckJsonInt(d) ==> r == Err(TypeError)
    ensures CheckJsonInt(d) && EndiannessToNumpyStr(e).Ok? && InIntRange(w, PyIntValue(d)) ==> r == Ok(SInt(PyIntValue(d)))
    ensures CheckJsonInt(d) && EndiannessToNumpyStr(e).Ok? && !InIntRange(w, PyIntValue(d)) ==> r == Err(OverflowError)
  {
    if CheckJsonInt(d) then
      var _ :- ToDtype(w, e);
      var i := PyIntValue(d);
      if InIntRange(w, i) then Ok(SInt(i)) else Err(OverflowError)
    else Err(TypeError)
  }

  /** `FloatWrapperBase.from_json_value`: guarded by the v2 float check whatever the format. */
  function FloatFromJsonValue(w: Wrapper, d: Value, zarrFormat: ZarrFormat, e: Option<string>): (r: Result<Scalar>)
    requires IsFloatWrapper(w)
    ensures !CheckJsonFloatV2(d) ==> r == Err(TypeError)
    ensures CheckJsonFloatV2(d) && EndiannessToNumpyStr(e).Ok? ==>
      r == (match FloatFromJson(d, zarrFormat) case Ok(x) => Ok(SFloat(x)) case Err(err) => Err(err))
    ensures CheckJsonFloatV2(d) && EndiannessToNumpyStr(e).Ok? && IsPyInt(d) ==>
      r == if FloatOverflows(d) then Err(OverflowError) else Ok(SFloat(Finite(PyIntValue(d) as real)))
  {
    if CheckJsonFloatV2(d) then
      var _ :- ToDtype(w, e);
      var x :- FloatFromJson(d, zarrFormat);
      Ok(SFloat(x))
    else Err(TypeError)
  }

  /** `Complex64/128.from_json_value`: guarded by the v3 pair check whatever the format. */
  function ComplexFromJsonValue(w: Wrapper, d: Value, zarrFormat: ZarrFormat, e: Option<string>): (r: Result<Scalar>)
    requires IsComplexWrapper(w)
    ensures !CheckJsonComplexFloatV3(d) ==> r == Err(TypeError)
  {
    if CheckJsonComplexFloatV3(d) then
      var _ :- ToDtype(w, e);
      ComplexFromJson(d, zarrFormat)
    else Err(TypeError)
  }

  /**
   * `StaticByteString.from_json_value` as written: the guard is `check_json_bool`,
   * so a boolean reaches `data.encode("ascii")` (AttributeError) and every other
   * value, strings included, is refused with TypeError.
   */
  function StaticByteStringFromJson(w: Wrapper, d: Value, e: Option<string>): (r: Result<Scalar>)
    requires w.StaticByteString?
    ensures r.Err?
    ensures !CheckJsonBool(d) ==> r == Err(TypeError)
  {
    if CheckJsonBool(d) then
      var _ :- ToDtype(w, e);
      Err(AttributeError)
    else Err(TypeError)
  }

  /** `StaticRawBytes.from_json_value`: `np.void(bytes(data))`, with no check of the input. */
  function StaticRawBytesFromJson(w: Wrapper, d: Value, e: Option<string>): (r: Result<Scalar>)
    requires w.StaticRawBytes?
    ensures EndiannessToNumpyStr(e).Ok? ==> r == (match BytesOf(d) case Ok(bs) => Ok(SVoid(bs)) case Err(x) => Err(x))
  {
    var _ :- ToDtype(w, e);
    var bs :- BytesOf(d);
    Ok(SVoid(bs))
  }

  /** `StaticUnicodeString.from_json_value`: only a string is accepted. */
  function StaticUnicodeStringFromJson(w: Wrapper, d: Value, e: Option<string>): (r: Result<Scalar>)
    requires w.StaticUnicodeString?
    ensures !CheckJsonStr(d) ==> r == Err(TypeError)
    ensures CheckJsonStr(d) && EndiannessToNumpyStr(e).Ok? ==> r == Ok(SStr(d.s))
  {
    if !CheckJsonStr(d) then Err(TypeError)
    else
      var _ :- ToDtype(w, e);
      Ok(SStr(d.s))
  }

  /** `from_json_value(data, zarr_format, endianness)`, dispatched on the wrapper. */
  function FromJsonValue(w: Wrapper, d: Value, zarrFormat: ZarrFormat, e: Option<string>): (r: Result<Scalar>)
    ensures r.Ok? ==> Holds(w, r.value)
    ensures w.Bool? && !CheckJsonBool(d) ==> r == Err(TypeError)
    ensures IsIntWrapper(w) && !CheckJsonInt(d) ==> r == Err(TypeError)
    ensures IsFloatWrapper(w) && !CheckJsonFloatV2(d) ==> r == Err(TypeError)
    ensures IsComplexWrapper(w) && !CheckJsonComplexFloatV3(d) ==> r == Err(TypeError)
    ensures w.StaticUnicodeString? && !CheckJsonStr(d) ==> r == Err(TypeError)
    ensures w.StaticByteString? ==> r.Err?
  {
    match w
    case Bool => BoolFromJson(d, e)
    case StaticByteString(_) => StaticByteStringFromJson(w, d, e)
    case StaticRawBytes(_) => StaticRawBytesFromJson(w, d, e)
    case StaticUnicodeString(_) => StaticUnicodeStringFromJson(w, d, e)
    case VlenString =>
      var _ :- ToDtype(w, e);
      Ok(SObject(d))
    case Int8 | UInt8 | Int16 | UInt16 | Int32 | UInt32 | Int64 | UInt64 => IntFromJson(w, d, e)
    case Float16 | Float32 | Float64 => FloatFromJsonValue(w, d, zarrFormat, e)
    case Complex64 | Complex128 => ComplexFromJsonValue(w, d, zarrFormat, e)
  }

  // ---------------------------------------------------------------------------
  // resolve_dtype

  /** What `resolve_dtype` accepts: a wrapper, a dict description, or anything numpy reads as a dtype. */
  datatype DTypeLike = AWrapper(w: Wrapper) | ADict(entries: map<string, Value>) | ANumpy(v: Value)

  /**
   * `resolve_dtype`: a wrapper passes through unchanged; the other two forms go
   * to the registry's lookups, which are parameters here.
   */
  function ResolveDType(d: DTypeLike, fromDict: map<string, Value> -> Result<Wrapper>,
                        fromNumpy: Value -> Result<Wrapper>): (r: Result<Wrapper>)
    ensures d.AWrapper? ==> r == Ok(d.w)
    ensures d.ADict? ==> r == fromDict(d.entries)
    ensures d.ANumpy? ==> r == fromNumpy(d.v)
  {
    match d
    case AWrapper(w) => Ok(w)
    case ADict(entries) => fromDict(entries)
    case ANumpy(v) => fromNumpy(v)
  }
}
