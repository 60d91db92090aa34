/** Properties of zarr format 2 metadata: construction, updates, chunk keys and the document round trip. */
module V2Props {
  import opened Common
  import opened Values
  import opened DType
  import opened V2
  import Decimal
  import Base64
  import ZarrConfig

  // ---------------------------------------------------------------------------
  // Construction

  /** Once every field parses, the constructor fails exactly when shape and chunks differ in length. */
  lemma LengthMismatchRejected(a: InitArgs)
    requires ParseShapelike(a.shape).Ok? && ParseShapelike(a.chunks).Ok? && a.dtype.AWrapper?
    requires ParseCompressor(a.compressor).Ok? && ZarrConfig.ParseIndexingOrder(a.order).Ok?
    requires ParseSeparator(a.dimensionSeparator).Ok? && FiltersParsed(a.filters).Ok?
    requires ParseFillValue(a.fillValue, NumpyDType(a.dtype.w)).Ok? && ParseAttributes(a.attributes).Ok?
    ensures Init(a).Err? <==> |ParseShapelike(a.shape).value| != |ParseShapelike(a.chunks).value|
    ensures Init(a).Err? ==> Init(a).error == ValueError
  {
  }

  /** A shape written as a tuple parses back to itself. */
  lemma ParseShapeValue(s: seq<nat>)
    ensures ParseShapelike(IntList(s)) == Ok(s)
  {
    var items := IntList(s).items;
    assert forall k :: 0 <= k < |items| ==> items[k] == Int(s[k]);
    assert seq(|items|, k requires 0 <= k < |items| => PyIntValue(items[k]) as nat) == s;
  }

  /** The loop of `parse_filters` over codecs and dicts keeps every configuration, in order. */
  lemma {:induction false} ParsedPrefixAllCodecs(items: seq<Value>, cs: seq<CodecConfig>, n: nat)
    requires |items| == |cs| && n <= |items|
    requires forall k :: 0 <= k < |items| ==> items[k] == Codec(cs[k]) || items[k] == Dict(cs[k])
    ensures ParsedPrefix(items, n) == Ok(cs[..n])
    decreases n
  {
    if n > 0 {
      ParsedPrefixAllCodecs(items, cs, n - 1);
      assert cs[..n - 1] + [cs[n - 1]] == cs[..n];
    }
  }

  /** `parse_filters` of a non-empty sequence of codecs or their dicts is that sequence. */
  lemma FiltersParsedCodecs(items: seq<Value>, cs: seq<CodecConfig>)
    requires |items| == |cs| > 0
    requires forall k :: 0 <= k < |items| ==> items[k] == Codec(cs[k]) || items[k] == Dict(cs[k])
    ensures FiltersParsed(List(items)) == Ok(Some(cs))
  {
    ParsedPrefixAllCodecs(items, cs, |items|);
    assert cs[..|items|] == cs;
  }

  /** A fill value that fits its dtype parses back to itself. */
  lemma ReparseFill(f: Option<Scalar>, dt: NDType)
    requires FillFits(f, dt)
    ensures ParseFillValue(ArgsOfFill(f), dt) == Ok(f)
  {
  }

  /**
   * A wrapper's `default_value` is numpy's zero of its dtype, `np.zeros((), dt)[()]`,
   * for every kind but the opaque and the object one.
   */
  lemma DefaultValueIsNumpyZero(w: Wrapper)
    requires !w.StaticRawBytes? && !w.VlenString?
    ensures ZeroOf(NumpyDType(w)) == Ok(DefaultValue(w))
  {
  }

  /** `dataclasses.replace` with nothing changed rebuilds the same metadata. */
  lemma ReInit(md: ArrayV2Metadata)
    requires Valid(md)
    ensures Init(ArgsOf(md)) == Ok(md)
  {
    ParseShapeValue(md.shape);
    ParseShapeValue(md.chunks);
    ReparseFill(md.fillValue, NumpyDType(md.dtype));
    if md.filters.Some? {
      var cs := md.filters.value;
      FiltersParsedCodecs(ArgsOf(md).filters.items, cs);
    }
  }

  /**
   * `update_shape` re-runs the constructor: a shape of the chunks' rank replaces
   * the old one and nothing else changes; any other rank is a ValueError.
   */
  lemma UpdateShapeSpec(md: ArrayV2Metadata, shape: seq<nat>)
    requires Valid(md)
    ensures |shape| == |md.chunks| ==> UpdateShape(md, shape) == Ok(md.(shape := shape))
    ensures |shape| != |md.chunks| ==> UpdateShape(md, shape) == Err(ValueError)
  {
    ReInit(md);
    ParseShapeValue(shape);
  }

  /** `update_attributes` replaces the attributes and nothing else. */
  lemma UpdateAttributesSpec(md: ArrayV2Metadata, attributes: map<string, Value>)
    requires Valid(md)
    ensures UpdateAttributes(md, attributes) == Ok(md.(attributes := attributes))
  {
    ReInit(md);
  }

  // ---------------------------------------------------------------------------
  // Chunk keys

  /** `str.split(c)` for a one-character separator. */
  function Split(s: string, c: char): (r: seq<string>)
    ensures |r| >= 1
    decreases |s|
  {
    if s == [] then [""]
    else if s[0] == c then [""] + Split(s[1..], c)
    else
      var rest := Split(s[1..], c);
      [[s[0]] + rest[0]] + rest[1..]
  }

  lemma {:induction false} SplitNoSeparator(p: string, c: char)
    requires c !in p
    ensures Split(p, c) == [p]
    decreases |p|
  {
    if p != [] {
      SplitNoSeparator(p[1..], c);
      assert [p[0]] + p[1..] == p;
    }
  }

  lemma {:induction false} SplitAtSeparator(p: string, c: char, rest: string)
    requires c !in p
    ensures Split(p + [c] + rest, c) == [p] + Split(rest, c)
    decreases |p|
  {
    var s := p + [c] + rest;
    if p == [] {
      assert s[1..] == rest;
    } else {
      assert s[1..] == p[1..] + [c] + rest;
      SplitAtSeparator(p[1..], c, rest);
      assert [p[0]] + p[1..] == p;
    }
  }

  /** Splitting a join recovers the parts when no part contains the separator. */
  lemma {:induction false} SplitJoin(parts: seq<string>, c: char)
    requires |parts| >= 1
    requires forall k :: 0 <= k < |parts| ==> c !in parts[k]
    ensures Split(Join(parts, [c]), c) == parts
    decreases |parts|
  {
    if |parts| == 1 {
      SplitNoSeparator(parts[0], c);
    } else {
      SplitJoin(parts[1..], c);
      SplitAtSeparator(parts[0], c, Join(parts[1..], [c]));
      assert [parts[0]] + parts[1..] == parts;
    }
  }

  /** A join of `n` parts free of the separator holds `n - 1` separators. */
  lemma {:induction false} JoinSeparatorCount(parts: seq<string>, c: char)
    requires |parts| >= 1
    requires forall k :: 0 <= k < |parts| ==> c !in parts[k]
    ensures multiset(Join(parts, [c]))[c] == |parts| - 1
    decreases |parts|
  {
    assert multiset(parts[0])[c] == 0;
    if |parts| > 1 {
      JoinSeparatorCount(parts[1..], c);
      assert Join(parts, [c]) == parts[0] + [c] + Join(parts[1..], [c]);
      assert multiset(parts[0] + [c] + Join(parts[1..], [c])) == multiset(parts[0]) + multiset([c]) + multiset(Join(parts[1..], [c]));
    }
  }

  /** The inverse of `encode_chunk_key` on keys of at least one coordinate. */
  function DecodeChunkKey(key: string, c: char): Option<seq<nat>> {
    var parts := Split(key, c);
    if forall k :: 0 <= k < |parts| ==> Decimal.AllDigits(parts[k])
    then Some(seq(|parts|, k requires 0 <= k < |parts| => Decimal.ParseNat(parts[k])))
    else None
  }

  lemma NumeralsFreeOfSeparator(coords: seq<nat>, c: char)
    requires c == '.' || c == '/'
    ensures forall k :: 0 <= k < |coords| ==> c !in Numerals(coords)[k]
  { }

  /** A join is at least as long as its first part. */
  lemma JoinLength(parts: seq<string>, sep: string)
    requires |parts| >= 1
    ensures |Join(parts, sep)| >= |parts[0]|
  {
  }

  /** Parsing the numerals gives back the coordinates. */
  lemma ParseNumerals(coords: seq<nat>)
    ensures forall k :: 0 <= k < |coords| ==> Decimal.AllDigits(Numerals(coords)[k])
    ensures seq(|coords|, k requires 0 <= k < |coords| => Decimal.ParseNat(Numerals(coords)[k])) == coords
  {
    forall k | 0 <= k < |coords|
      ensures Decimal.ParseNat(Numerals(coords)[k]) == coords[k]
    {
      Decimal.ParseNatToString(coords[k]);
    }
  }

  /**
   * `encode_chunk_key` with either separator: one or more coordinates give
   * `n - 1` separators, and the key splits and parses back to the coordinates.
   */
  lemma ChunkKeyRoundTrip(md: ArrayV2Metadata, coords: seq<nat>)
    requires md.dimensionSeparator == "." || md.dimensionSeparator == "/"
    requires |coords| >= 1
    ensures multiset(EncodeChunkKey(md, coords))[md.dimensionSeparator[0]] == |coords| - 1
    ensures DecodeChunkKey(EncodeChunkKey(md, coords), md.dimensionSeparator[0]) == Some(coords)
  {
    var c := md.dimensionSeparator[0];
    assert md.dimensionSeparator == [c];
    var parts := Numerals(coords);
    NumeralsFreeOfSeparator(coords, c);
    JoinLength(parts, [c]);
    var key := Join(parts, [c]);
    assert EncodeChunkKey(md, coords) == key;
    SplitJoin(parts, c);
    JoinSeparatorCount(parts, c);
    ParseNumerals(coords);
  }

  /** The empty coordinate tuple and the single coordinate 0 share the key "0". */
  lemma ChunkKeyOfScalar(md: ArrayV2Metadata)
    ensures EncodeChunkKey(md, []) == EncodeChunkKey(md, [0]) == "0"
  {
  }

  /** The chunk spec is the same wherever the chunk lies. */
  lemma ChunkSpecIgnoresCoords<C, P>(md: ArrayV2Metadata, a: seq<nat>, b: seq<nat>, config: C, prototype: P)
    ensures GetChunkSpec(md, a, config, prototype) == GetChunkSpec(md, b, config, prototype)
  {
  }

  // ---------------------------------------------------------------------------
  // The document round trip

  /** The fill value `from_dict` passes on: base64-decoded for the byte-string and void kinds. */
  function DocumentFill(fill: Value, kind: char): Result<Value> {
    if (kind == 'S' || kind == 'V') && fill != Null then
      var bs :- Base64.StandardB64Decode(fill);
      Ok(Bytes(bs))
    else Ok(fill)
  }

  /** The keyword arguments `from_dict` hands to the constructor for a document written by `to_dict`. */
  function DocumentArgs(md: ArrayV2Metadata, compressor: Value, fill: Value): InitArgs {
    InitArgs(IntList(md.shape), AWrapper(md.dtype), IntList(md.chunks), Raw(fill), Str(md.order),
             Str(md.dimensionSeparator), compressor, FiltersJson(md.filters), Dict(md.attributes))
  }

  /** The document `to_dict` writes, without its `zarr_format` entry: the keyword arguments of the constructor. */
  function DocumentKwargs(md: ArrayV2Metadata, getName: Wrapper -> string, compressor: Value, fill: Value)
    : map<string, Value>
  {
    map[
      "shape" := IntList(md.shape),
      "chunks" := IntList(md.chunks),
      "dtype" := Str(getName(md.dtype)),
      "fill_value" := fill,
      "order" := Str(md.order),
      "filters" := FiltersJson(md.filters),
      "dimension_separator" := Str(md.dimensionSeparator),
      "compressor" := compressor,
      "attributes" := Dict(md.attributes)
    ]
  }

  lemma DocumentWithoutFormat(md: ArrayV2Metadata, getName: Wrapper -> string, compressor: Value, fill: Value)
    ensures "zarr_format" in Document(md, getName, compressor, fill)
    ensures Document(md, getName, compressor, fill)["zarr_format"] == Int(2)
    ensures Document(md, getName, compressor, fill) - {"zarr_format"} == DocumentKwargs(md, getName, compressor, fill)
  { }

  lemma DecodeDocumentFill(md: ArrayV2Metadata, getName: Wrapper -> string, compressor: Value, fill: Value, kind: char)
    ensures DecodeFill(DocumentKwargs(md, getName, compressor, fill), kind)
         == (match DocumentFill(fill, kind)
             case Err(e) => Err(e)
             case Ok(f) => Ok(DocumentKwargs(md, getName, compressor, f)))
  {
    var kw := DocumentKwargs(md, getName, compressor, fill);
    match DocumentFill(fill, kind)
    case Err(e) =>
    case Ok(f) =>
      if (kind == 'S' || kind == 'V') && fill != Null {
        assert kw["fill_value" := f] == DocumentKwargs(md, getName, compressor, f);
      }
  }

  lemma DocumentKwargsFilters(md: ArrayV2Metadata, getName: Wrapper -> string, compressor: Value, f: Value)
    requires Valid(md)
    ensures var kw := DocumentKwargs(md, getName, compressor, f);
      && kw["filters"] == FiltersJson(md.filters)
      && (kw["filters"] == Null || LenOf(kw["filters"]).Some?)
      && LenOf(kw["filters"]) != Some(0)
  { }

  lemma KeepDocumentKwargs(md: ArrayV2Metadata, getName: Wrapper -> string, compressor: Value, f: Value)
    ensures KeepExpected(DocumentKwargs(md, getName, compressor, f)) == DocumentKwargs(md, getName, compressor, f)
  {
    var kw := DocumentKwargs(md, getName, compressor, f);
    assert kw.Keys <= Expected;
  }

  /** With every keyword present, `cls(**kwargs)` passes each one to its parameter. */
  lemma InitFromFullKwargs(kw: map<string, Value>, w: Wrapper)
    requires "shape" in kw && "chunks" in kw && "fill_value" in kw && "order" in kw
    requires "dimension_separator" in kw && "compressor" in kw && "filters" in kw && "attributes" in kw
    ensures InitFromKwargs(kw, w)
         == Init(InitArgs(kw["shape"], AWrapper(w), kw["chunks"], Raw(kw["fill_value"]), kw["order"],
                          kw["dimension_separator"], kw["compressor"], kw["filters"], kw["attributes"]))
  { }

  lemma InitDocumentKwargs(md: ArrayV2Metadata, getName: Wrapper -> string, compressor: Value, f: Value)
    ensures InitFromKwargs(KeepExpected(DocumentKwargs(md, getName, compressor, f)), md.dtype)
         == Init(DocumentArgs(md, compressor, f))
  {
    var kw := DocumentKwargs(md, getName, compressor, f);
    KeepDocumentKwargs(md, getName, compressor, f);
    InitFromFullKwargs(kw, md.dtype);
    assert InitArgs(kw["shape"], AWrapper(md.dtype), kw["chunks"], Raw(kw["fill_value"]), kw["order"],
                    kw["dimension_separator"], kw["compressor"], kw["filters"], kw["attributes"])
        == DocumentArgs(md, compressor, f);
  }

  /**
   * Reading back a document in the shape `to_dict` writes: no warning, and the
   * constructor receives every field as written, with the fill value decoded for
   * the byte-string and void kinds.
   */
  lemma DeserializeDocument(md: ArrayV2Metadata, getName: Wrapper -> string, resolve: Value -> Result<Wrapper>,
                            compressor: Value, fill: Value)
    requires Valid(md)
    requires resolve(Str(getName(md.dtype))) == Ok(md.dtype)
    ensures Deserialized(Document(md, getName, compressor, fill), resolve)
         == FromDictOutcome(
              match DocumentFill(fill, NumpyDType(md.dtype).kind)
              case Err(e) => Err(e)
              case Ok(f) => Init(DocumentArgs(md, compressor, f)),
              false)
  {
    DocumentWithoutFormat(md, getName, compressor, fill);
    DecodeDocumentFill(md, getName, compressor, fill, NumpyDType(md.dtype).kind);
    match DocumentFill(fill, NumpyDType(md.dtype).kind)
    case Err(e) =>
    case Ok(f) =>
      DocumentKwargsFilters(md, getName, compressor, f);
      InitDocumentKwargs(md, getName, compressor, f);
  }

  /** The constructor rebuilds the metadata from its document fields, with the fill value it parses. */
  lemma InitDocumentArgs(md: ArrayV2Metadata, compressor: Value, fill: Value, parsed: Option<Scalar>)
    requires Valid(md)
    requires compressor.Null? || compressor.Dict?
    requires md.compressor.None? <==> compressor.Null?
    requires ParseFillValue(Raw(fill), NumpyDType(md.dtype)) == Ok(parsed)
    ensures Init(DocumentArgs(md, compressor, fill))
         == Ok(md.(compressor := ParseCompressor(compressor).value, fillValue := parsed))
  {
    ParseShapeValue(md.shape);
    ParseShapeValue(md.chunks);
    if md.filters.Some? {
      FiltersParsedCodecs(FiltersJson(md.filters).items, md.filters.value);
    }
  }

  /**
   * For booleans, integers, floats, unicode strings and variable-length strings
   * the JSON form of a fitting fill value parses back to that value.
   */
  lemma FillJsonReparse(w: Wrapper, f: Option<Scalar>)
    requires w.Bool? || IsIntWrapper(w) || IsFloatWrapper(w) || w.StaticUnicodeString? || w.VlenString?
    requires FillFits(f, NumpyDType(w))
    requires FillJson(w, f).Ok?
    ensures ParseFillValue(Raw(FillJson(w, f).value), NumpyDType(w)) == Ok(f)
  { }

  /** The configuration `to_dict` writes for a compressor, as the constructor reads it back. */
  function WrittenCompressor(c: Option<CodecConfig>): Option<CodecConfig>
    requires CompressorJson(c).Ok?
  {
    match c
    case None => None
    case Some(config) => Some(CompressorConfig(config).value)
  }

  /**
   * `from_dict(to_dict(m))` gives `m` back, with no warning, for boolean, integer,
   * float, unicode and variable-length string arrays; the compressor comes back
   * as the configuration `to_dict` wrote.
   */
  lemma DocumentRoundTrip(md: ArrayV2Metadata, getName: Wrapper -> string, resolve: Value -> Result<Wrapper>)
    requires Valid(md)
    requires md.dtype.Bool? || IsIntWrapper(md.dtype) || IsFloatWrapper(md.dtype)
          || md.dtype.StaticUnicodeString? || md.dtype.VlenString?
    requires resolve(Str(getName(md.dtype))) == Ok(md.dtype)
    requires Serialized(md, getName).Ok?
    ensures Deserialized(Serialized(md, getName).value, resolve)
         == FromDictOutcome(Ok(md.(compressor := WrittenCompressor(md.compressor))), false)
  {
    var compressor := CompressorJson(md.compressor).value;
    var fill := FillJson(md.dtype, md.fillValue).value;
    assert Serialized(md, getName).value == Document(md, getName, compressor, fill);
    DeserializeDocument(md, getName, resolve, compressor, fill);
    assert DocumentFill(fill, NumpyDType(md.dtype).kind) == Ok(fill);
    FillJsonReparse(md.dtype, md.fillValue);
    InitDocumentArgs(md, compressor, fill, md.fillValue);
    assert ParseCompressor(compressor).value == WrittenCompressor(md.compressor);
    assert md.(compressor := WrittenCompressor(md.compressor), fillValue := md.fillValue)
        == md.(compressor := WrittenCompressor(md.compressor));
  }

  /** Keys outside the dataclass fields do not affect `from_dict`. */
  lemma ExtraKeysIgnored(data: map<string, Value>, key: string, v: Value, resolve: Value -> Result<Wrapper>)
    requires key !in Expected
    ensures Deserialized(data[key := v], resolve) == Deserialized(data, resolve)
  {
    var data' := data[key := v];
    if "zarr_format" in data && ParseZarrFormat(data["zarr_format"]).Ok? {
      var d, d' := data - {"zarr_format"}, data' - {"zarr_format"};
      assert d' == d[key := v];
      if "dtype" in d && resolve(d["dtype"]).Ok? {
        var kind := NumpyDType(resolve(d["dtype"]).value).kind;
        if DecodeFill(d, kind).Ok? {
          var e, e' := DecodeFill(d, kind).value, DecodeFill(d', kind).value;
          assert e' == e[key := v];
          if "filters" in e {
            var f := if e["filters"] != Null && LenOf(e["filters"]) == Some(0) then e["filters" := Null] else e;
            var f' := if e'["filters"] != Null && LenOf(e'["filters"]) == Some(0) then e'["filters" := Null] else e';
            assert f' == f[key := v];
            assert KeepExpected(f') == KeepExpected(f);
          }
        }
      }
    }
  }

  /**
   * An empty `filters` list reads as `None`: the outcome is the one for `None`,
   * and a warning is emitted exactly when `from_dict` gets as far as the filters.
   */
  lemma EmptyFiltersBecomeNone(data: map<string, Value>, resolve: Value -> Result<Wrapper>)
    requires "filters" in data && LenOf(data["filters"]) == Some(0)
    ensures Deserialized(data, resolve).result == Deserialized(data["filters" := Null], resolve).result
    ensures !Deserialized(data["filters" := Null], resolve).warned
    ensures Deserialized(data, resolve).warned <==>
      "zarr_format" in data && ParseZarrFormat(data["zarr_format"]).Ok? && "dtype" in data
      && resolve(data["dtype"]).Ok?
      && DecodeFill(data - {"zarr_format"}, NumpyDType(resolve(data["dtype"]).value).kind).Ok?
  {
    var data' := data["filters" := Null];
    if "zarr_format" in data && ParseZarrFormat(data["zarr_format"]).Ok? {
      var d, d' := data - {"zarr_format"}, data' - {"zarr_format"};
      assert d' == d["filters" := Null];
      if "dtype" in d && resolve(d["dtype"]).Ok? {
        var kind := NumpyDType(resolve(d["dtype"]).value).kind;
        if DecodeFill(d, kind).Ok? {
          var e, e' := DecodeFill(d, kind).value, DecodeFill(d', kind).value;
          assert e' == e["filters" := Null];
        }
      }
    }
  }

  // ---------------------------------------------------------------------------
  // Findings

  /** The bytes whose base64 text is "test". */
  lemma EncodesToTest()
    ensures Base64.Encode([181, 235, 45]) == "test"
    ensures Base64.Decode("test") == Ok([181, 235, 45])
  {
    Base64.DecodeEncode([181, 235, 45]);
  }

  /**
   * A byte-string fill value does not survive `to_dict` then `from_dict`:
   * `to_dict` writes b"test" as the ASCII text "test", and `from_dict` reads
   * that text as base64, giving three other bytes.
   */
  lemma ByteStringFillRoundTripFails(md: ArrayV2Metadata, getName: Wrapper -> string, resolve: Value -> Result<Wrapper>)
    requires Valid(md) && md.dtype == StaticByteString(4) && md.compressor.None?
    requires md.fillValue == Some(SBytes([116, 101, 115, 116]))
    requires resolve(Str(getName(md.dtype))) == Ok(md.dtype)
    ensures Serialized(md, getName) == Ok(Document(md, getName, Null, Str("test")))
    ensures Deserialized(Serialized(md, getName).value, resolve)
         == FromDictOutcome(Ok(md.(fillValue := Some(SBytes([181, 235, 45])))), false)
  {
    ByteStringTestWritten();
    ByteStringTestRead();
    DeserializeDocument(md, getName, resolve, Null, Str("test"));
    var decoded: seq<byte> := [181, 235, 45];
    InitDocumentArgs(md, Null, Bytes(decoded), Some(SBytes(decoded)));
    assert md.(compressor := None, fillValue := Some(SBytes(decoded))) == md.(fillValue := Some(SBytes(decoded)));
  }

  lemma ByteStringTestWritten()
    ensures FillJson(StaticByteString(4), Some(SBytes([116, 101, 115, 116]))) == Ok(Str("test"))
  {
    var ascii: seq<byte> := [116, 101, 115, 116];
    assert AsciiChars(ascii) == "test";
  }

  lemma ByteStringTestRead()
    ensures DocumentFill(Str("test"), 'S') == Ok(Bytes([181, 235, 45]))
    ensures ParseFillValue(Raw(Bytes([181, 235, 45])), NDType('S', 4)) == Ok(Some(SBytes([181, 235, 45])))
  {
    EncodesToTest();
    assert Base64.StandardB64Decode(Str("test")) == Ok([181, 235, 45]);
    var decoded: seq<byte> := [181, 235, 45];
    assert decoded[..3] == decoded;
  }

  /** The fill value as `to_dict` evidently means to write it: base64 text for the byte-string and void kinds. */
  function FillJsonFixed(w: Wrapper, fill: Option<Scalar>): (r: Result<Value>)
    ensures (w.StaticByteString? || w.StaticRawBytes?) && fill.Some? && Holds(w, fill.value) ==>
      r == Ok(Str(Base64.Encode(fill.value.bs)))
    ensures !w.StaticByteString? && !w.StaticRawBytes? ==> r == FillJson(w, fill)
  {
    match fill
    case Some(s) =>
      if (w.StaticByteString? || w.StaticRawBytes?) && Holds(w, s) then Ok(Str(Base64.Encode(s.bs)))
      else FillJson(w, fill)
    case None => Ok(Null)
  }

  /** `to_dict` with the corrected fill value. */
  function SerializedFixed(md: ArrayV2Metadata, getName: Wrapper -> string): Result<map<string, Value>> {
    var compressor :- CompressorJson(md.compressor);
    var fill :- FillJsonFixed(md.dtype, md.fillValue);
    Ok(Document(md, getName, compressor, fill))
  }

  /** With base64 text written, a byte-string or void fill value is read back as it was. */
  lemma BytesFillReparse(w: Wrapper, f: Option<Scalar>)
    requires w.StaticByteString? || w.StaticRawBytes?
    requires FillFits(f, NumpyDType(w))
    ensures FillJsonFixed(w, f).Ok?
    ensures DocumentFill(FillJsonFixed(w, f).value, NumpyDType(w).kind).Ok?
    ensures ParseFillValue(Raw(DocumentFill(FillJsonFixed(w, f).value, NumpyDType(w).kind).value), NumpyDType(w)) == Ok(f)
  {
    if f.Some? {
      var bs := f.value.bs;
      Base64.DecodeEncode(bs);
      assert forall k :: 0 <= k < |Base64.Encode(bs)| ==> Base64.Encode(bs)[k] as int < 128 by {
        Base64.EncodeAscii(bs);
      }
      assert bs[..|bs|] == bs;
    }
  }

  /**
   * With the corrected fill value, `from_dict(to_dict(m))` gives `m` back for
   * every data type except the complex ones, whose format-2 JSON form is lossy.
   */
  lemma DocumentRoundTripFixed(md: ArrayV2Metadata, getName: Wrapper -> string, resolve: Value -> Result<Wrapper>)
    requires Valid(md) && !IsComplexWrapper(md.dtype)
    requires resolve(Str(getName(md.dtype))) == Ok(md.dtype)
    requires SerializedFixed(md, getName).Ok?
    ensures Deserialized(SerializedFixed(md, getName).value, resolve)
         == FromDictOutcome(Ok(md.(compressor := WrittenCompressor(md.compressor))), false)
  {
    var compressor := CompressorJson(md.compressor).value;
    var fill := FillJsonFixed(md.dtype, md.fillValue).value;
    DeserializeDocument(md, getName, resolve, compressor, fill);
    if md.dtype.StaticByteString? || md.dtype.StaticRawBytes? {
      BytesFillReparse(md.dtype, md.fillValue);
      InitDocumentArgs(md, compressor, DocumentFill(fill, NumpyDType(md.dtype).kind).value, md.fillValue);
    } else {
      FillJsonReparse(md.dtype, md.fillValue);
      InitDocumentArgs(md, compressor, fill, md.fillValue);
    }
    assert md.(compressor := WrittenCompressor(md.compressor), fillValue := md.fillValue)
        == md.(compressor := WrittenCompressor(md.compressor));
  }

  /**
   * The shipped v2 default tables are keyed by category ("default",
   * "variable-length-string") but looked up by the wrapper's flavor, so every
   * data type gets no compressor and no filters by default.
   */
  lemma DefaultCodecsNeverFound(w: Wrapper)
    ensures TableEntry(ZarrConfig.Defaults(), "v2_default_compressor", FlavorName(Kind(w))) == Ok(Null)
    ensures TableEntry(ZarrConfig.Defaults(), "v2_default_filters", FlavorName(Kind(w))) == Ok(Null)
  { }

  /** `_default_compressor` keyed by the data type's category. */
  function DefaultCompressorFixed(w: Wrapper, config: ZarrConfig.Config): Result<Value>
    reads config
  {
    TableEntry(config.settings, "v2_default_compressor", ZarrConfig.CategorizeDataType(w))
  }

  /** `_default_filters` keyed by the data type's category. */
  function DefaultFiltersFixed(w: Wrapper, config: ZarrConfig.Config): Result<Value>
    reads config
  {
    TableEntry(config.settings, "v2_default_filters", ZarrConfig.CategorizeDataType(w))
  }

  /**
   * Under the shipped defaults, the category-keyed lookups give zstd for every
   * data type and the vlen-utf8 filter for variable-length strings only.
   */
  lemma DefaultCodecsFixed(w: Wrapper, config: ZarrConfig.Config)
    requires config.settings == ZarrConfig.Defaults()
    ensures DefaultCompressorFixed(w, config) == Ok(Dict(ZarrConfig.ZstdV2()))
    ensures DefaultFiltersFixed(w, config)
         == if w.VlenString? then Ok(List([Dict(map["id" := Str("vlen-utf8")])])) else Ok(Null)
  { }

  /** A zstd configuration without a `checksum` key makes `to_dict` fail on the `pop`. */
  lemma ZstdWithoutChecksumFails()
    ensures CompressorConfig(map["id" := Str("zstd"), "level" := Int(0)]) == Err(KeyError("checksum"))
  {
  }

  /** The hotfix as evidently meant: a falsy or missing checksum is dropped, with a default for the `pop`. */
  function CompressorConfigFixed(c: CodecConfig): (r: Result<CodecConfig>)
    ensures r.Ok? <==> "id" in c
    ensures r.Ok? ==> r.value.Keys <= c.Keys && forall k :: k in r.value ==> r.value[k] == c[k]
    ensures r.Ok? && c["id"] == Str("zstd") ==> "checksum" !in r.value || Truthy(r.value["checksum"])
  {
    if "id" !in c then Err(KeyError("id"))
    else if c["id"] == Str("zstd") && !Truthy(GetOr(c, "checksum", Value.Bool(false))) then Ok(c - {"checksum"})
    else Ok(c)
  }

  /** The corrected hotfix agrees with the written one wherever that one succeeds. */
  lemma CompressorConfigFixedAgrees(c: CodecConfig)
    ensures CompressorConfig(c).Ok? ==> CompressorConfigFixed(c) == CompressorConfig(c)
    ensures CompressorConfig(c).Err? && "id" in c ==>
      CompressorConfig(c) == Err(KeyError("checksum")) && CompressorConfigFixed(c) == Ok(c)
  {
    if "id" in c && c["id"] == Str("zstd") && !Truthy(GetOr(c, "checksum", Value.Bool(false))) && "checksum" !in c {
      assert c - {"checksum"} == c;
    }
  }
}
