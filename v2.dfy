/**
 * Zarr format 2 array metadata: the validating constructor, the conversions to
 * and from the metadata document, and the helpers they are built from.
 */
module V2 {
  import opened Common
  import opened Values
  import opened DType
  import Decimal
  import Base64
  import ZarrConfig

  /** A codec, known only through its configuration mapping (`get_config()`). */
  type CodecConfig = map<string, Value>

  /** `ArrayV2Metadata`, a frozen record; `zarr_format` is always 2. */
  datatype ArrayV2Metadata = ArrayV2Metadata(
    shape: seq<nat>,
    chunks: seq<nat>,
    dtype: Wrapper,
    fillValue: Option<Scalar>,
    order: string,
    filters: Option<seq<CodecConfig>>,
    dimensionSeparator: string,
    compressor: Option<CodecConfig>,
    attributes: map<string, Value>)

  /** A fill value as `__init__` receives it: a plain Python value, or a numpy scalar already parsed. */
  datatype FillArg = Raw(v: Value) | Parsed(s: Scalar)

  /** The keyword arguments of `__init__`. */
  datatype InitArgs = InitArgs(
    shape: Value,
    dtype: DTypeLike,
    chunks: Value,
    fillValue: FillArg,
    order: Value,
    dimensionSeparator: Value,
    compressor: Value,
    filters: Value,
    attributes: Value)

  // ---------------------------------------------------------------------------
  // Parsers of single fields

  /**
   * `parse_shapelike`, which this model takes on its evident contract: a
   * non-negative int is a one-dimensional shape, a list of non-negative ints is
   * the shape itself, a negative entry is a ValueError and a non-int entry a TypeError.
   */
  function ParseShapelike(v: Value): (r: Result<seq<nat>>)
    ensures v.List? && r.Ok? ==> |r.value| == |v.items| && forall k :: 0 <= k < |v.items| ==> v.items[k] == Int(r.value[k]) || v.items[k].Bool?
    ensures v.Int? ==> r == (if v.i < 0 then Err(ValueError) else Ok([v.i]))
    ensures v.Null? || v.Float? || v.Codec? ==> r == Err(TypeError)
  {
    match v
    case Int(n) => if n < 0 then Err(ValueError) else Ok([n])
    case Bool(b) => Ok([if b then 1 else 0])
    case List(items) =>
      if !(forall k :: 0 <= k < |items| ==> IsPyInt(items[k])) then Err(TypeError)
      else if !(forall k :: 0 <= k < |items| ==> PyIntValue(items[k]) >= 0) then Err(ValueError)
      else Ok(seq(|items|, k requires 0 <= k < |items| => PyIntValue(items[k]) as nat))
    case Str(_) => Err(Unmodelled)
    case Bytes(_) => Err(Unmodelled)
    case Dict(_) => Err(Unmodelled)
    case _ => Err(TypeError)
  }

  /** `parse_separator`: "." or "/", otherwise ValueError. */
  function ParseSeparator(v: Value): (r: Result<string>)
    ensures r.Ok? <==> v == Str(".") || v == Str("/")
    ensures r.Ok? ==> Str(r.value) == v
    ensures r.Err? ==> r.error == ValueError
  {
    if v == Str(".") || v == Str("/") then Ok(v.s) else Err(ValueError)
  }

  /** `parse_attributes`: `None` is the empty mapping, a mapping is kept, anything else is a TypeError. */
  function ParseAttributes(v: Value): (r: Result<map<string, Value>>)
    ensures r.Ok? <==> v.Null? || v.Dict?
    ensures v.Dict? ==> r == Ok(v.entries)
    ensures v.Null? ==> r == Ok(map[])
  {
    match v
    case Null => Ok(map[])
    case Dict(m) => Ok(m)
    case _ => Err(TypeError)
  }

  /** `parse_zarr_format`: accepts exactly the values equal to 2. */
  function ParseZarrFormat(v: Value): (r: Result<int>)
    ensures r.Ok? <==> v == Int(2) || v == Float(Finite(2.0))
    ensures r.Ok? ==> r.value == 2
    ensures r.Err? ==> r.error == ValueError
  {
    if v == Int(2) || v == Float(Finite(2.0)) then Ok(2) else Err(ValueError)
  }

  /** `parse_compressor`: `None` and codecs pass, a dict becomes its codec, anything else is a ValueError. */
  function ParseCompressor(v: Value): (r: Result<Option<CodecConfig>>)
    ensures r.Ok? <==> v.Null? || v.Codec? || v.Dict?
    ensures v.Null? ==> r == Ok(None)
    ensures v.Codec? ==> r == Ok(Some(v.config))
    ensures v.Dict? ==> r == Ok(Some(v.entries))
    ensures r.Err? ==> r.error == ValueError
  {
    match v
    case Null => Ok(None)
    case Codec(c) => Ok(Some(c))
    case Dict(d) => Ok(Some(d))
    case _ => Err(ValueError)
  }

  /** `parse_metadata`: the shape and the chunk shape must have the same length. */
  function ParseMetadata(md: ArrayV2Metadata): (r: Result<ArrayV2Metadata>)
    ensures r.Ok? <==> |md.chunks| == |md.shape|
    ensures r.Ok? ==> r.value == md
    ensures r.Err? ==> r.error == ValueError
  {
    if |md.chunks| != |md.shape| then Err(ValueError) else Ok(md)
  }

  // ---------------------------------------------------------------------------
  // parse_filters

  /** One element of a filters iterable: a codec, or a dict that `get_codec` turns into one. */
  function FilterAt(v: Value): (r: Option<CodecConfig>)
    ensures r.Some? <==> v.Codec? || v.Dict?
  {
    match v
    case Codec(c) => Some(c)
    case Dict(d) => Some(d)
    case _ => None
  }

  /** The loop of `parse_filters` over the first `n` elements: the codecs so far, or the first bad index. */
  function ParsedPrefix(items: seq<Value>, n: nat): (r: Result<seq<CodecConfig>>)
    requires n <= |items|
    ensures r.Ok? ==> |r.value| == n
    ensures r.Err? ==> r.error.InvalidFilterAt? && r.error.index < n
    decreases n
  {
    if n == 0 then Ok([])
    else
      var out :- ParsedPrefix(items, n - 1);
      match FilterAt(items[n - 1])
      case None => Err(InvalidFilterAt(n - 1))
      case Some(c) => Ok(out + [c])
  }

  /**
   * What `parse_filters` returns. Iterating a string, bytes or a dict yields
   * strings or ints, so a non-empty one fails at index 0.
   */
  function FiltersParsed(data: Value): Result<Option<seq<CodecConfig>>> {
    match data
    case Null => Ok(None)
    case List(items) =>
      var out :- ParsedPrefix(items, |items|);
      if |out| == 0 then Ok(None) else Ok(Some(out))
    case Str(s) => if |s| == 0 then Ok(None) else Err(InvalidFilterAt(0))
    case Bytes(bs) => if |bs| == 0 then Ok(None) else Err(InvalidFilterAt(0))
    case Dict(m) => if |m| == 0 then Ok(None) else Err(InvalidFilterAt(0))
    case Codec(c) => Ok(Some([c]))
    case _ => Err(TypeError)
  }

  /** Once the loop has failed, later elements do not change the outcome. */
  lemma {:induction false} ParsedPrefixErrorStays(items: seq<Value>, m: nat, n: nat)
    requires m <= n <= |items|
    requires ParsedPrefix(items, m).Err?
    ensures ParsedPrefix(items, n) == ParsedPrefix(items, m)
    decreases n
  {
    if n > m {
      ParsedPrefixErrorStays(items, m, n - 1);
    }
  }

  /** A first element that is neither a codec nor a dict fails the loop at index 0. */
  lemma ParsedPrefixFirstInvalid(items: seq<Value>)
    requires |items| >= 1 && FilterAt(items[0]).None?
    ensures ParsedPrefix(items, |items|) == Err(InvalidFilterAt(0))
  {
    assert ParsedPrefix(items, 1) == Err(InvalidFilterAt(0));
    ParsedPrefixErrorStays(items, 1, |items|);
  }

  /** The element sequence of iterating a string, bytes or the keys of a dict. */
  method IterationItems(data: Value) returns (items: seq<Value>)
    requires data.Str? || data.Bytes? || data.Dict?
    ensures |items| == LenOf(data).value
    ensures forall k :: 0 <= k < |items| ==> FilterAt(items[k]).None?
  {
    match data
    case Str(s) =>
      items := seq(|s|, k requires 0 <= k < |s| => Str([s[k]]));
    case Bytes(bs) =>
      items := seq(|bs|, k requires 0 <= k < |bs| => Int(bs[k]));
    case Dict(m) =>
      var keys := m.Keys;
      items := [];
      while keys != {}
        invariant keys <= m.Keys
        invariant |items| + |keys| == |m.Keys|
        invariant forall k :: 0 <= k < |items| ==> items[k].Str?
        decreases |keys|
      {
        var key :| key in keys;
        items := items + [Str(key)];
        keys := keys - {key};
      }
  }

  /** `parse_filters`, appending codecs one element at a time. */
  method ParseFilters(data: Value) returns (r: Result<Option<seq<CodecConfig>>>)
    ensures r == FiltersParsed(data)
  {
    if data.Null? {
      return Ok(None);
    }
    if data.List? || data.Str? || data.Bytes? || data.Dict? {
      var items: seq<Value>;
      if data.List? {
        items := data.items;
      } else {
        items := IterationItems(data);
      }
      var out: seq<CodecConfig> := [];
      var idx := 0;
      while idx < |items|
        invariant 0 <= idx <= |items|
        invariant ParsedPrefix(items, idx) == Ok(out)
      {
        var val := items[idx];
        if val.Codec? {
          out := out + [val.config];
        } else if val.Dict? {
          out := out + [val.entries];
        } else {
          assert ParsedPrefix(items, idx + 1) == Err(InvalidFilterAt(idx));
          ParsedPrefixErrorStays(items, idx + 1, |items|);
          if !data.List? {
            ParsedPrefixFirstInvalid(items);
          }
          return Err(InvalidFilterAt(idx));
        }
        idx := idx + 1;
      }
      if |out| == 0 {
        return Ok(None);
      }
      return Ok(Some(out));
    }
    if data.Codec? {
      return Ok(Some([data.config]));
    }
    return Err(TypeError);
  }

  // ---------------------------------------------------------------------------
  // parse_fill_value

  /** The range of a numpy integer dtype, for the four widths numpy has. */
  function IntLimits(dt: NDType): (r: Option<(int, int)>)
    ensures r.Some? ==> (dt.kind == 'i' || dt.kind == 'u') && r.value.0 <= 0 < r.value.1
  {
    if dt.kind == 'i' then
      if dt.itemsize == 1 then Some((-0x80, 0x7F))
      else if dt.itemsize == 2 then Some((-0x8000, 0x7FFF))
      else if dt.itemsize == 4 then Some((-0x8000_0000, 0x7FFF_FFFF))
      else if dt.itemsize == 8 then Some((-0x8000_0000_0000_0000, 0x7FFF_FFFF_FFFF_FFFF))
      else None
    else if dt.kind == 'u' then
      if dt.itemsize == 1 then Some((0, 0xFF))
      else if dt.itemsize == 2 then Some((0, 0xFFFF))
      else if dt.itemsize == 4 then Some((0, 0xFFFF_FFFF))
      else if dt.itemsize == 8 then Some((0, 0xFFFF_FFFF_FFFF_FFFF))
      else None
    else None
  }

  predicate InLimits(dt: NDType, i: int) {
    IntLimits(dt).Some? && IntLimits(dt).value.0 <= i <= IntLimits(dt).value.1
  }

  predicate NoTrailingNull(bs: seq<byte>) {
    bs == [] || bs[|bs| - 1] != 0
  }

  /** numpy drops the trailing NUL bytes of a fixed-width byte string. */
  function StripTrailingNulls(bs: seq<byte>): (r: seq<byte>)
    ensures |r| <= |bs| && r == bs[..|r|] && NoTrailingNull(r)
    ensures forall k :: |r| <= k < |bs| ==> bs[k] == 0
    decreases |bs|
  {
    if bs != [] && bs[|bs| - 1] == 0 then StripTrailingNulls(bs[..|bs| - 1]) else bs
  }

  /**
   * The numpy scalars a parsed fill value can be for a dtype: `None`, an object
   * for the object dtype, and otherwise a scalar of the dtype's kind that fits it.
   */
  predicate FillFits(f: Option<Scalar>, dt: NDType) {
    match f
    case None => true
    case Some(s) =>
      if dt.kind == 'O' then s != SObject(Null)
      else if dt.kind == 'b' then s.SBool?
      else if dt.kind == 'i' || dt.kind == 'u' then s.SInt? && InLimits(dt, s.i)
      else if dt.kind == 'f' then s.SFloat?
      else if dt.kind == 'c' then s.SComplex?
      else if dt.kind == 'S' then s.SBytes? && |s.bs| <= dt.itemsize && NoTrailingNull(s.bs)
      else if dt.kind == 'V' then s.SVoid? && |s.bs| == dt.itemsize
      else if dt.kind == 'U' then s.SStr?
      else false
  }

  /** `np.zeros((), dtype=dt)[()]`. */
  function ZeroOf(dt: NDType): (r: Result<Scalar>)
    ensures r.Ok? ==> FillFits(Some(r.value), dt)
  {
    if dt.kind == 'b' then Ok(SBool(false))
    else if (dt.kind == 'i' || dt.kind == 'u') && IntLimits(dt).Some? then Ok(SInt(0))
    else if dt.kind == 'f' then Ok(SFloat(Finite(0.0)))
    else if dt.kind == 'c' then Ok(SComplex(Finite(0.0), Finite(0.0)))
    else if dt.kind == 'S' then Ok(SBytes([]))
    else if dt.kind == 'V' then Ok(SVoid(seq(dt.itemsize, _ => 0)))
    else if dt.kind == 'U' then Ok(SStr(""))
    else Err(Unmodelled)
  }

  /** A numpy scalar's `== 0`. */
  predicate IsZeroScalar(s: Scalar) {
    s == SBool(false) || s == SInt(0) || s == SFloat(Finite(0.0)) || s == SComplex(Finite(0.0), Finite(0.0))
  }

  /**
   * `np.array(v, dtype=dt)[()]` for a Python value, with a numpy failure
   * reported as the ValueError `parse_fill_value` turns it into. Conversions
   * across families that this model does not describe are `Unmodelled`.
   */
  function CastValue(v: Value, dt: NDType): (r: Result<Scalar>)
    ensures r.Ok? ==> FillFits(Some(r.value), dt)
    ensures r.Err? ==> r.error == ValueError || r.error == Unmodelled
    ensures (dt.kind == 'f' || dt.kind == 'c') && FloatOverflows(v) ==> r == Err(ValueError)
  {
    if dt.kind == 'b' then
      match v
      case Bool(b) => Ok(SBool(b))
      case Int(i) => Ok(SBool(i != 0))
      case Float(f) => Ok(SBool(f != Finite(0.0)))
      case _ => Err(Unmodelled)
    else if dt.kind == 'i' || dt.kind == 'u' then
      if IsPyInt(v) && IntLimits(dt).Some? then
        if InLimits(dt, PyIntValue(v)) then Ok(SInt(PyIntValue(v))) else Err(ValueError)
      else Err(Unmodelled)
    else if dt.kind == 'f' then
      if IsPyInt(v) || v.Float? then
        if FloatOverflows(v) then Err(ValueError) else Ok(SFloat(PyFloat(v).value))
      else if IsFloatSentinel(v) then Ok(SFloat(FloatFromJsonV2(v).value))
      else Err(Unmodelled)
    else if dt.kind == 'c' then
      if IsPyInt(v) || v.Float? then
        if FloatOverflows(v) then Err(ValueError) else Ok(SComplex(PyFloat(v).value, Finite(0.0)))
      else Err(Unmodelled)
    else if dt.kind == 'S' then
      match v
      case Bytes(bs) => Ok(SBytes(StripTrailingNulls(bs[..if |bs| <= dt.itemsize then |bs| else dt.itemsize])))
      case Str(s) =>
        if forall k :: 0 <= k < |s| ==> s[k] as int < 128 then
          var bs := seq(|s|, k requires 0 <= k < |s| => s[k] as int as byte);
          Ok(SBytes(StripTrailingNulls(bs[..if |bs| <= dt.itemsize then |bs| else dt.itemsize])))
        else Err(ValueError)
      case _ => Err(Unmodelled)
    else Err(Unmodelled)
  }

  /** `np.array(s, dtype=dt)[()]` for a numpy scalar: one that already fits comes back unchanged. */
  function CastScalar(s: Scalar, dt: NDType): (r: Result<Scalar>)
    ensures FillFits(Some(s), dt) ==> r == Ok(s)
    ensures r.Ok? ==> FillFits(Some(r.value), dt)
  {
    if FillFits(Some(s), dt) then Ok(s) else Err(Unmodelled)
  }

  /**
   * `parse_fill_value(fill_value, dtype)`: `None` and every value for the
   * object dtype pass through; a value equal to 0 becomes the dtype's zero; the
   * unicode kind demands a string; bytes for the void kind are reinterpreted;
   * anything else goes through numpy, whose failure becomes a ValueError.
   */
  function ParseFillValue(fill: FillArg, dt: NDType): (r: Result<Option<Scalar>>)
    ensures r.Ok? ==> FillFits(r.value, dt)
    ensures fill == Raw(Null) ==> r == Ok(None)
    ensures fill.Raw? && !fill.v.Null? && dt.kind == 'O' ==> r == Ok(Some(SObject(fill.v)))
    ensures fill.Raw? && !fill.v.Null? && dt.kind != 'O' && EqualsZero(fill.v) ==>
      r == (match ZeroOf(dt) case Ok(z) => Ok(Some(z)) case Err(e) => Err(e))
    ensures fill.Raw? && dt.kind == 'U' && !EqualsZero(fill.v) ==>
      r == (if fill.v.Str? then Ok(Some(SStr(fill.v.s))) else if fill.v.Null? then Ok(None) else Err(ValueError))
    decreases fill.Parsed?
  {
    match fill
    case Raw(v) =>
      if v.Null? then Ok(None)
      else if dt.kind == 'O' then Ok(Some(SObject(v)))
      else if EqualsZero(v) then
        var z :- ZeroOf(dt);
        Ok(Some(z))
      else if dt.kind == 'U' then
        if v.Str? then Ok(Some(SStr(v.s))) else Err(ValueError)
      else if v.Bytes? && dt.kind == 'V' then
        if |v.bs| == dt.itemsize then Ok(Some(SVoid(v.bs))) else Err(Unmodelled)
      else
        var s :- CastValue(v, dt);
        Ok(Some(s))
    case Parsed(s) =>
      if s.SObject? then ParseFillValue(Raw(s.v), dt)
      else if dt.kind == 'O' then Ok(Some(s))
      else if IsZeroScalar(s) then
        var z :- ZeroOf(dt);
        Ok(Some(z))
      else if dt.kind == 'U' then
        if s.SStr? then Ok(Some(s)) else Err(ValueError)
      else if s.SBytes? && dt.kind == 'V' then
        if |s.bs| == dt.itemsize then Ok(Some(SVoid(s.bs))) else Err(Unmodelled)
      else
        var c :- CastScalar(s, dt);
        Ok(Some(c))
  }

  // ---------------------------------------------------------------------------
  // The constructor

  /** What `__init__` guarantees of every instance. */
  predicate Valid(md: ArrayV2Metadata) {
    && |md.shape| == |md.chunks|
    && (md.order == "C" || md.order == "F")
    && (md.dimensionSeparator == "." || md.dimensionSeparator == "/")
    && (md.filters.Some? ==> |md.filters.value| > 0)
    && FillFits(md.fillValue, NumpyDType(md.dtype))
  }

  /**
   * `ArrayV2Metadata.__init__`: every field parsed in the order of the source
   * (shape, chunks, the wrapper check, compressor, order, separator, filters,
   * fill value, attributes), then the length check of `parse_metadata`.
   */
  function Init(a: InitArgs): (r: Result<ArrayV2Metadata>)
    ensures r.Ok? ==> Valid(r.value)
    ensures r.Ok? ==> a.dtype.AWrapper? && r.value.dtype == a.dtype.w
    ensures r.Ok? ==> Ok(r.value.shape) == ParseShapelike(a.shape) && Ok(r.value.chunks) == ParseShapelike(a.chunks)
    ensures r.Ok? ==> Ok(r.value.compressor) == ParseCompressor(a.compressor)
    ensures r.Ok? ==> Ok(r.value.order) == ZarrConfig.ParseIndexingOrder(a.order)
    ensures r.Ok? ==> Ok(r.value.dimensionSeparator) == ParseSeparator(a.dimensionSeparator)
    ensures r.Ok? ==> Ok(r.value.filters) == FiltersParsed(a.filters)
    ensures r.Ok? ==> Ok(r.value.fillValue) == ParseFillValue(a.fillValue, NumpyDType(a.dtype.w))
    ensures r.Ok? ==> Ok(r.value.attributes) == ParseAttributes(a.attributes)
    ensures ParseShapelike(a.shape).Ok? && ParseShapelike(a.chunks).Ok? && !a.dtype.AWrapper? ==> r == Err(TypeError)
  {
    var shape :- ParseShapelike(a.shape);
    var chunks :- ParseShapelike(a.chunks);
    if !a.dtype.AWrapper? then Err(TypeError)
    else
      var dtype := a.dtype.w;
      var compressor :- ParseCompressor(a.compressor);
      var order :- ZarrConfig.ParseIndexingOrder(a.order);
      var separator :- ParseSeparator(a.dimensionSeparator);
      var filters :- FiltersParsed(a.filters);
      var fillValue :- ParseFillValue(a.fillValue, NumpyDType(dtype));
      var attributes :- ParseAttributes(a.attributes);
      ParseMetadata(ArrayV2Metadata(shape, chunks, dtype, fillValue, order, filters, separator, compressor, attributes))
  }

  // ---------------------------------------------------------------------------
  // Derived values

  /** `ndim`: the number of dimensions. */
  function Ndim(md: ArrayV2Metadata): (n: nat)
    ensures Valid(md) ==> n == |md.chunks|
  {
    |md.shape|
  }

  /** `shards`: zarr format 2 has no sharding. */
  function Shards(md: ArrayV2Metadata): (r: Option<seq<nat>>)
    ensures r.None?
  {
    None
  }

  /** `ArraySpec`, with the array configuration and buffer prototype carried as given. */
  datatype ArraySpec<C, P> = ArraySpec(shape: seq<nat>, dtype: Wrapper, fillValue: Option<Scalar>, config: C, prototype: P)

  /** `get_chunk_spec`: every chunk has the chunk shape, wherever it lies. */
  function GetChunkSpec<C, P>(md: ArrayV2Metadata, chunkCoords: seq<nat>, arrayConfig: C, prototype: P): (r: ArraySpec<C, P>)
    ensures r.shape == md.chunks && r.dtype == md.dtype && r.fillValue == md.fillValue
    ensures r.config == arrayConfig && r.prototype == prototype
  {
    ArraySpec(md.chunks, md.dtype, md.fillValue, arrayConfig, prototype)
  }

  /** `sep.join(parts)`. */
  function Join(parts: seq<string>, sep: string): string
    decreases |parts|
  {
    if parts == [] then ""
    else if |parts| == 1 then parts[0]
    else parts[0] + sep + Join(parts[1..], sep)
  }

  /** The decimal numeral of each coordinate. */
  function Numerals(coords: seq<nat>): (r: seq<string>)
    ensures |r| == |coords|
    ensures forall k :: 0 <= k < |coords| ==> r[k] == Decimal.NatToString(coords[k])
  {
    seq(|coords|, k requires 0 <= k < |coords| => Decimal.NatToString(coords[k]))
  }

  /** `encode_chunk_key`: the coordinates joined by the separator, and "0" for no coordinates. */
  function EncodeChunkKey(md: ArrayV2Metadata, chunkCoords: seq<nat>): (key: string)
    ensures chunkCoords == [] ==> key == "0"
    ensures |chunkCoords| == 1 ==> key == Decimal.NatToString(chunkCoords[0])
  {
    var identifier := Join(Numerals(chunkCoords), md.dimensionSeparator);
    if identifier == "" then "0" else identifier
  }

  /** A stored fill value handed back to `__init__`. */
  function ArgsOfFill(f: Option<Scalar>): FillArg {
    match f
    case None => Raw(Null)
    case Some(s) => Parsed(s)
  }

  /** The arguments `dataclasses.replace` passes back to `__init__`: every field as stored. */
  function ArgsOf(md: ArrayV2Metadata): InitArgs {
    InitArgs(
      IntList(md.shape),
      AWrapper(md.dtype),
      IntList(md.chunks),
      ArgsOfFill(md.fillValue),
      Str(md.order),
      Str(md.dimensionSeparator),
      match md.compressor
        case None => Null
        case Some(c) => Codec(c),
      match md.filters
        case None => Null
        case Some(cs) => List(seq(|cs|, k requires 0 <= k < |cs| => Codec(cs[k]))),
      Dict(md.attributes))
  }

  /** `update_shape`: `replace(self, shape=shape)`, which runs `__init__` again. */
  function UpdateShape(md: ArrayV2Metadata, shape: seq<nat>): Result<ArrayV2Metadata> {
    Init(ArgsOf(md).(shape := IntList(shape)))
  }

  /** `update_attributes`: `replace(self, attributes=attributes)`, which runs `__init__` again. */
  function UpdateAttributes(md: ArrayV2Metadata, attributes: map<string, Value>): Result<ArrayV2Metadata> {
    Init(ArgsOf(md).(attributes := Dict(attributes)))
  }

  // ---------------------------------------------------------------------------
  // to_dict

  /** `codec_config.get(key, default)`. */
  function GetOr(m: map<string, Value>, key: string, default: Value): Value {
    if key in m then m[key] else default
  }

  /**
   * The compressor's configuration as `to_dict` writes it: a zstd configuration
   * whose checksum is falsy loses its `checksum` key, and one with no such key
   * fails on the `pop`. A configuration without `id` fails on the lookup.
   */
  function CompressorConfig(c: CodecConfig): (r: Result<CodecConfig>)
    ensures "id" !in c ==> r == Err(KeyError("id"))
    ensures "id" in c && c["id"] == Str("zstd") && !Truthy(GetOr(c, "checksum", Value.Bool(false))) ==>
      r == (if "checksum" in c then Ok(c - {"checksum"}) else Err(KeyError("checksum")))
    ensures "id" in c && (c["id"] != Str("zstd") || Truthy(GetOr(c, "checksum", Value.Bool(false)))) ==> r == Ok(c)
  {
    if "id" !in c then Err(KeyError("id"))
    else if c["id"] == Str("zstd") && !Truthy(GetOr(c, "checksum", Value.Bool(false))) then
      if "checksum" in c then Ok(c - {"checksum"}) else Err(KeyError("checksum"))
    else Ok(c)
  }

  function CompressorJson(compressor: Option<CodecConfig>): Result<Value> {
    match compressor
    case None => Ok(Null)
    case Some(c) =>
      var config :- CompressorConfig(c);
      Ok(Dict(config))
  }

  /** The filters as their configurations, in order. */
  function FiltersJson(filters: Option<seq<CodecConfig>>): (r: Value)
    ensures filters.None? ==> r == Null
    ensures filters.Some? ==>
      r.List? && |r.items| == |filters.value| && forall k :: 0 <= k < |filters.value| ==> r.items[k] == Dict(filters.value[k])
  {
    match filters
    case None => Null
    case Some(cs) => List(seq(|cs|, k requires 0 <= k < |cs| => Dict(cs[k])))
  }

  /** The fill value as `to_json_value(.., zarr_format=2)` writes it. */
  function FillJson(w: Wrapper, fill: Option<Scalar>): (r: Result<Value>)
    ensures fill.None? ==> r == Ok(Null)
    ensures fill.Some? && Holds(w, fill.value) ==> r == ToJsonValue(w, fill.value, 2)
  {
    match fill
    case None => Ok(Null)
    case Some(s) => if Holds(w, s) then ToJsonValue(w, s, 2) else Err(Unmodelled)
  }

  /** The base class's `to_dict`: one entry per field, codecs as they are, the wrapper as its own `to_dict`. */
  function BaseDict(md: ArrayV2Metadata): map<string, Value> {
    map[
      "shape" := IntList(md.shape),
      "chunks" := IntList(md.chunks),
      "dtype" := Dict(DType.ToDict(md.dtype)),
      // A scalar fill value is always replaced below; only `None` survives from here.
      "fill_value" := Null,
      "order" := Str(md.order),
      "filters" := (match md.filters
        case None => Null
        case Some(cs) => List(seq(|cs|, k requires 0 <= k < |cs| => Codec(cs[k])))),
      "dimension_separator" := Str(md.dimensionSeparator),
      "compressor" := (match md.compressor
        case None => Null
        case Some(c) => Codec(c)),
      "attributes" := Dict(md.attributes),
      "zarr_format" := Int(2)
    ]
  }

  /** The base dictionary with the compressor, filters, fill value and dtype entries as `to_dict` rewrites them. */
  function Document(md: ArrayV2Metadata, getName: Wrapper -> string, compressor: Value, fill: Value): map<string, Value> {
    BaseDict(md)["compressor" := compressor]["filters" := FiltersJson(md.filters)]
                ["fill_value" := fill]["dtype" := Str(getName(md.dtype))]
  }

  /** The document `to_dict` returns; `getName` is the registry's name of a wrapper for zarr format 2. */
  function Serialized(md: ArrayV2Metadata, getName: Wrapper -> string): Result<map<string, Value>> {
    var compressor :- CompressorJson(md.compressor);
    var fill :- FillJson(md.dtype, md.fillValue);
    Ok(Document(md, getName, compressor, fill))
  }

  /** `to_dict`, editing the base dictionary entry by entry. */
  method ToDict(md: ArrayV2Metadata, getName: Wrapper -> string) returns (r: Result<map<string, Value>>)
    ensures r == Serialized(md, getName)
  {
    var zarrayDict := BaseDict(md);
    if md.compressor.Some? {
      var codecConfig := md.compressor.value;
      if "id" !in codecConfig {
        return Err(KeyError("id"));
      }
      if codecConfig["id"] == Str("zstd") && !Truthy(GetOr(codecConfig, "checksum", Value.Bool(false))) {
        if "checksum" !in codecConfig {
          return Err(KeyError("checksum"));
        }
        codecConfig := codecConfig - {"checksum"};
      }
      zarrayDict := zarrayDict["compressor" := Dict(codecConfig)];
    } else {
      assert zarrayDict == zarrayDict["compressor" := Null];
    }
    assert zarrayDict == BaseDict(md)["compressor" := CompressorJson(md.compressor).value];
    if md.filters.Some? {
      var rawFilters := md.filters.value;
      var newFilters: seq<Value> := [];
      var i := 0;
      while i < |rawFilters|
        invariant 0 <= i <= |rawFilters|
        invariant |newFilters| == i
        invariant forall k :: 0 <= k < i ==> newFilters[k] == Dict(rawFilters[k])
      {
        newFilters := newFilters + [Dict(rawFilters[i])];
        i := i + 1;
      }
      assert List(newFilters) == FiltersJson(md.filters);
      zarrayDict := zarrayDict["filters" := List(newFilters)];
    } else {
      assert zarrayDict == zarrayDict["filters" := Null];
    }
    assert zarrayDict == BaseDict(md)["compressor" := CompressorJson(md.compressor).value]["filters" := FiltersJson(md.filters)];
    if md.fillValue.Some? {
      var fillValue :- FillJson(md.dtype, md.fillValue);
      zarrayDict := zarrayDict["fill_value" := fillValue];
    } else {
      assert zarrayDict == zarrayDict["fill_value" := Null];
    }
    zarrayDict := zarrayDict["dtype" := Str(getName(md.dtype))];
    return Ok(zarrayDict);
  }

  // ---------------------------------------------------------------------------
  // from_dict

  /** The dataclass field names, plus the two renamed keys. */
  const Expected: set<string> :=
    {"shape", "chunks", "dtype", "fill_value", "order", "filters", "dimension_separator",
     "compressor", "attributes", "zarr_format"}

  /** The outcome of `from_dict`: the metadata or the exception, and whether a UserWarning was emitted. */
  datatype FromDictOutcome = FromDictOutcome(result: Result<ArrayV2Metadata>, warned: bool)

  /** For the byte-string and void kinds, a present non-null fill value is base64-decoded. */
  function DecodeFill(data: map<string, Value>, kind: char): (r: Result<map<string, Value>>)
    ensures r.Ok? ==> r.value.Keys == data.Keys
    ensures r.Ok? ==> forall k :: k in data && k != "fill_value" ==> r.value[k] == data[k]
    ensures (kind != 'S' && kind != 'V') || "fill_value" !in data || data["fill_value"] == Null ==> r == Ok(data)
  {
    if (kind == 'S' || kind == 'V') && "fill_value" in data && data["fill_value"] != Null then
      var fill :- Base64.StandardB64Decode(data["fill_value"]);
      Ok(data["fill_value" := Bytes(fill)])
    else Ok(data)
  }

  /** `{k: v for k, v in data.items() if k in expected}`. */
  function KeepExpected(data: map<string, Value>): (r: map<string, Value>)
    ensures r.Keys == data.Keys * Expected
    ensures forall k :: k in r ==> r[k] == data[k]
  {
    map k | k in data && k in Expected :: data[k]
  }

  /**
   * `cls(**data)` with the resolved wrapper as `dtype`: a missing required
   * keyword is a TypeError, and the others default as `__init__` declares.
   */
  function InitFromKwargs(kwargs: map<string, Value>, w: Wrapper): (r: Result<ArrayV2Metadata>)
    ensures "shape" !in kwargs || "chunks" !in kwargs || "fill_value" !in kwargs || "order" !in kwargs ==> r == Err(TypeError)
  {
    if "shape" !in kwargs || "chunks" !in kwargs || "fill_value" !in kwargs || "order" !in kwargs then Err(TypeError)
    else
      Init(InitArgs(
        kwargs["shape"], AWrapper(w), kwargs["chunks"], Raw(kwargs["fill_value"]), kwargs["order"],
        GetOr(kwargs, "dimension_separator", Str(".")), GetOr(kwargs, "compressor", Null),
        GetOr(kwargs, "filters", Null), GetOr(kwargs, "attributes", Null)))
  }

  /**
   * What `from_dict` does with a document: `resolve` is the registry's lookup of
   * the `dtype` entry (`get_data_type_from_numpy`).
   */
  function Deserialized(data: map<string, Value>, resolve: Value -> Result<Wrapper>): FromDictOutcome {
    if "zarr_format" !in data then FromDictOutcome(Err(KeyError("zarr_format")), false)
    else match ParseZarrFormat(data["zarr_format"])
    case Err(e) => FromDictOutcome(Err(e), false)
    case Ok(_) =>
      var d := data - {"zarr_format"};
      if "dtype" !in d then FromDictOutcome(Err(KeyError("dtype")), false)
      else match resolve(d["dtype"])
      case Err(e) => FromDictOutcome(Err(e), false)
      case Ok(w) =>
        match DecodeFill(d, NumpyDType(w).kind)
        case Err(e) => FromDictOutcome(Err(e), false)
        case Ok(d) =>
          if "filters" !in d then FromDictOutcome(Err(KeyError("filters")), false)
          else if d["filters"] != Null && LenOf(d["filters"]).None? then FromDictOutcome(Err(TypeError), false)
          else
            var warned := d["filters"] != Null && LenOf(d["filters"]) == Some(0);
            var d := if warned then d["filters" := Null] else d;
            FromDictOutcome(InitFromKwargs(KeepExpected(d), w), warned)
  }

  /** `from_dict`, working on its own copy of the document. */
  method FromDict(data: map<string, Value>, resolve: Value -> Result<Wrapper>)
    returns (r: Result<ArrayV2Metadata>, warned: bool)
    ensures FromDictOutcome(r, warned) == Deserialized(data, resolve)
  {
    warned := false;
    var d := data;
    if "zarr_format" !in d {
      return Err(KeyError("zarr_format")), false;
    }
    var zarrFormat := ParseZarrFormat(d["zarr_format"]);
    if zarrFormat.Err? {
      return Err(zarrFormat.error), false;
    }
    d := d - {"zarr_format"};
    if "dtype" !in d {
      return Err(KeyError("dtype")), false;
    }
    var dtype := resolve(d["dtype"]);
    if dtype.Err? {
      return Err(dtype.error), false;
    }
    var w := dtype.value;
    var kind := NumpyDType(w).kind;
    if kind == 'S' || kind == 'V' {
      if "fill_value" in d && d["fill_value"] != Null {
        var fillValue := Base64.StandardB64Decode(d["fill_value"]);
        if fillValue.Err? {
          return Err(fillValue.error), false;
        }
        d := d["fill_value" := Bytes(fillValue.value)];
      }
    }
    if "filters" !in d {
      return Err(KeyError("filters")), false;
    }
    if d["filters"] != Null {
      var n := LenOf(d["filters"]);
      if n.None? {
        return Err(TypeError), false;
      }
      if n.value == 0 {
        warned := true;
        d := d["filters" := Null];
      }
    }
    d := KeepExpected(d);
    r := InitFromKwargs(d, w);
  }

  // ---------------------------------------------------------------------------
  // Default codecs

  /** `config.get("array." + table).get(key, None)`: `Null` for a missing key. */
  function TableEntry(settings: map<string, Value>, table: string, key: string): (r: Result<Value>)
    ensures ZarrConfig.Lookup(settings, ["array", table]).Err? ==> r == ZarrConfig.Lookup(settings, ["array", table])
    ensures ZarrConfig.Lookup(settings, ["array", table]).Ok? && !ZarrConfig.Lookup(settings, ["array", table]).value.Dict? ==>
      r == Err(AttributeError)
    ensures ZarrConfig.Lookup(settings, ["array", table]).Ok? && ZarrConfig.Lookup(settings, ["array", table]).value.Dict? ==>
      var entries := ZarrConfig.Lookup(settings, ["array", table]).value.entries;
      r == Ok(if key in entries then entries[key] else Null)
  {
    var t :- ZarrConfig.Lookup(settings, ["array", table]);
    match t
    case Dict(m) => Ok(if key in m then m[key] else Null)
    case _ => Err(AttributeError)
  }

  /** `_default_compressor`: the v2 compressor table's entry for the wrapper's `kind`. */
  function DefaultCompressor(w: Wrapper, config: ZarrConfig.Config): Result<Value>
    reads config
  {
    TableEntry(config.settings, "v2_default_compressor", FlavorName(Kind(w)))
  }

  /** `_default_filters`: the v2 filters table's entry for the wrapper's `kind`. */
  function DefaultFilters(w: Wrapper, config: ZarrConfig.Config): Result<Value>
    reads config
  {
    TableEntry(config.settings, "v2_default_filters", FlavorName(Kind(w)))
  }
}
