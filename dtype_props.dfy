/** Properties of the data-type wrappers, and the defects their conversions show. */
module DTypeProps {
  import opened Common
  import opened Values
  import opened DType
  import Decimal

  // ---------------------------------------------------------------------------
  // Shape predicates

  /** The v2 float check holds exactly of the three sentinel strings and of ints, bools and floats. */
  lemma CheckJsonFloatV2Exactly(d: Value)
    ensures CheckJsonFloatV2(d) <==>
      d == Str("NaN") || d == Str("Infinity") || d == Str("-Infinity") || d.Float? || d.Int? || d.Bool?
  {
  }

  /** Both complex checks hold exactly of non-string sequences of two float-checked elements. */
  lemma CheckJsonComplexExactly(d: Value)
    ensures CheckJsonComplexFloatV2(d) == CheckJsonComplexFloatV3(d)
    ensures CheckJsonComplexFloatV3(d) <==>
      !d.Str? && SequenceItems(d).Some? && |SequenceItems(d).value| == 2
      && CheckJsonFloatV2(SequenceItems(d).value[0]) && CheckJsonFloatV2(SequenceItems(d).value[1])
  {
  }

  /** `check_json_int` is `isinstance(.., int)`, so a JSON boolean passes it and decodes as 0 or 1. */
  lemma CheckJsonIntAcceptsBool(w: Wrapper, b: bool)
    requires IsIntWrapper(w)
    ensures CheckJsonInt(Value.Bool(b))
    ensures FromJsonValue(w, Value.Bool(b), 2, None) == Ok(SInt(if b then 1 else 0))
  {
  }

  // ---------------------------------------------------------------------------
  // Special floats

  /** `float_from_json` inverts `float_to_json`: the identity on NaN, both infinities and finite values. */
  lemma FloatJsonRoundTrip(x: Flt, zarrFormat: ZarrFormat)
    ensures CheckJsonFloat(FloatToJson(x, zarrFormat), zarrFormat)
    ensures FloatFromJson(FloatToJson(x, zarrFormat), zarrFormat) == Ok(x)
  {
  }

  /**
   * A JSON int read for a float data type is that number as a float, unless it
   * is too large in magnitude for `float()`, which raises OverflowError.
   */
  lemma FloatFromJsonInt(w: Wrapper, n: int, zarrFormat: ZarrFormat)
    requires IsFloatWrapper(w)
    ensures -Float64Overflow < n < Float64Overflow ==> FromJsonValue(w, Int(n), zarrFormat, None) == Ok(SFloat(Finite(n as real)))
    ensures n <= -Float64Overflow || Float64Overflow <= n ==> FromJsonValue(w, Int(n), zarrFormat, None) == Err(OverflowError)
  {
  }

  /** The v3 conversions are the v2 ones. */
  lemma FloatV3IsV2(x: Flt, d: Value)
    requires CheckJsonFloatV2(d)
    ensures FloatToJsonV3(x) == FloatToJsonV2(x)
    ensures FloatFromJsonV3(d) == FloatFromJsonV2(d)
  {
  }

  /** The sentinel strings, and only they, encode the special values. */
  lemma FloatToJsonSentinels(x: Flt)
    ensures FloatToJsonV2(x) == Str("NaN") <==> x == NaN
    ensures FloatToJsonV2(x) == Str("Infinity") <==> x == PosInf
    ensures FloatToJsonV2(x) == Str("-Infinity") <==> x == NegInf
    ensures x.Finite? ==> FloatToJsonV2(x) == Float(x)
  {
  }

  // ---------------------------------------------------------------------------
  // Round trips of fill values through JSON

  /**
   * For booleans, every integer width, every float width and fixed-length unicode
   * strings, decoding the JSON form of a value of the wrapper's type gives the value
   * back, in both formats and for every valid endianness.
   */
  lemma JsonValueRoundTrip(w: Wrapper, x: Scalar, zarrFormat: ZarrFormat, e: Option<string>)
    requires w.Bool? || IsIntWrapper(w) || IsFloatWrapper(w) || w.StaticUnicodeString?
    requires Holds(w, x)
    requires EndiannessToNumpyStr(e).Ok?
    ensures ToJsonValue(w, x, zarrFormat).Ok?
    ensures FromJsonValue(w, ToJsonValue(w, x, zarrFormat).value, zarrFormat, e) == Ok(x)
  { }

  /** Every wrapper's default value encodes; the numeric, boolean and unicode ones decode back. */
  lemma DefaultValueRoundTrip(w: Wrapper, zarrFormat: ZarrFormat)
    requires !w.VlenString? && !w.StaticByteString? && !w.StaticRawBytes? && !IsComplexWrapper(w)
    ensures FromJsonValue(w, ToJsonValue(w, DefaultValue(w), zarrFormat).value, zarrFormat, None) == Ok(DefaultValue(w))
  { }

  /** `default_value`: False, zero for every number, and empty for the string and byte kinds. */
  lemma DefaultValueIsZero(w: Wrapper)
    ensures w.Bool? ==> DefaultValue(w) == SBool(false)
    ensures IsIntWrapper(w) ==> DefaultValue(w) == SInt(0)
    ensures IsFloatWrapper(w) ==> DefaultValue(w) == SFloat(Finite(0.0))
    ensures IsComplexWrapper(w) ==> DefaultValue(w) == SComplex(Finite(0.0), Finite(0.0))
    ensures w.StaticByteString? ==> DefaultValue(w) == SBytes([])
    ensures w.StaticRawBytes? ==> DefaultValue(w) == SVoid([])
    ensures w.StaticUnicodeString? ==> DefaultValue(w) == SStr("")
    ensures w.VlenString? ==> DefaultValue(w) == SObject(Str(""))
  {
  }

  /** A finite complex value survives the v3 round trip. */
  lemma ComplexV3RoundTripFinite(w: Wrapper, re: real, im: real, e: Option<string>)
    requires IsComplexWrapper(w)
    requires EndiannessToNumpyStr(e).Ok?
    ensures FromJsonValue(w, ToJsonValue(w, SComplex(Finite(re), Finite(im)), 3).value, 3, e)
         == Ok(SComplex(Finite(re), Finite(im)))
  {
  }

  // ---------------------------------------------------------------------------
  // Wrapper descriptions

  /** `from_dtype` recovers a wrapper from the numpy dtype it builds, lengths included. */
  lemma FromDtypeToDtype(w: Wrapper)
    ensures FromDtype(w, NumpyDType(w)) == w
  {
  }

  /** A unicode dtype of `itemsize` bytes has `itemsize // 4` characters; a byte dtype one per byte. */
  lemma FlexibleLength(itemsize: nat)
    ensures FromDtype(StaticUnicodeString(0), NDType('U', itemsize)).length == itemsize / 4
    ensures FromDtype(StaticByteString(0), NDType('S', itemsize)).length == itemsize
    ensures FromDtype(StaticRawBytes(0), NDType('V', itemsize)).length == itemsize
  {
  }

  /** The raw-bytes name is "r" followed by the width in bits, which reads back as `8 * length`. */
  lemma RawBytesName(n: nat)
    ensures var name := ToDict(StaticRawBytes(n))["name"].s;
      |name| >= 2 && name[0] == 'r' && Decimal.AllDigits(name[1..]) && Decimal.ParseNat(name[1..]) == 8 * n
  {
    var digits := Decimal.NatToString(8 * n);
    assert ToDict(StaticRawBytes(n))["name"].s[1..] == digits;
    Decimal.ParseNatToString(8 * n);
  }

  /** Only the raw-bytes description has a name starting with 'r'. */
  lemma NameHead(w: Wrapper)
    ensures |ToDict(w)["name"].s| >= 1
    ensures ToDict(w)["name"].s[0] == 'r' <==> w.StaticRawBytes?
  {
  }

  /** `to_dict` determines the wrapper: distinct wrappers never share a description. */
  lemma ToDictInjective(w1: Wrapper, w2: Wrapper)
    requires ToDict(w1) == ToDict(w2)
    ensures w1 == w2
  {
    NameHead(w1);
    NameHead(w2);
    if w1.StaticRawBytes? {
      assert ToDict(w1)["name"].s[1..] == Decimal.NatToString(8 * w1.length);
      assert ToDict(w2)["name"].s[1..] == Decimal.NatToString(8 * w2.length);
      Decimal.NatToStringInjective(8 * w1.length, 8 * w2.length);
    } else {
      assert Name(w1) == Name(w2) by {
        assert ToDict(w1)["name"] == Str(Name(w1));
        assert ToDict(w2)["name"] == Str(Name(w2));
      }
      if w1.StaticByteString? || w1.StaticUnicodeString? {
        assert ToDict(w1)["configuration"] == Dict(map["length" := Int(w1.length)]);
        assert ToDict(w2)["configuration"] == Dict(map["length" := Int(w2.length)]);
        assert map["length" := Int(w1.length)]["length"] == Int(w1.length);
      }
    }
  }

  // ---------------------------------------------------------------------------
  // Findings: conversions that do not do what the wrappers are evidently for

  /** Python's `str.encode("ascii")`. */
  function AsciiEncode(s: string): (r: Result<seq<byte>>)
    ensures r.Ok? ==> |r.value| == |s| && forall k :: 0 <= k < |s| ==> r.value[k] == s[k] as int
  {
    if forall k :: 0 <= k < |s| ==> s[k] as int < 128
    then Ok(seq(|s|, k requires 0 <= k < |s| => s[k] as int as byte))
    else Err(UnicodeEncodeError)
  }

  /** `StaticByteString.from_json_value` as evidently intended: guarded by `check_json_str`. */
  function StaticByteStringFromJsonFixed(w: Wrapper, d: Value, e: Option<string>): (r: Result<Scalar>)
    requires w.StaticByteString?
    ensures !CheckJsonStr(d) ==> r == Err(TypeError)
  {
    if CheckJsonStr(d) then
      var _ :- ToDtype(w, e);
      var bs :- AsciiEncode(d.s);
      Ok(SBytes(bs))
    else Err(TypeError)
  }

  /** As written, the byte-string wrapper cannot read back even the JSON it writes. */
  lemma StaticByteStringRoundTripFails(n: nat)
    ensures ToJsonValue(StaticByteString(n), SBytes([116, 101, 115, 116]), 2) == Ok(Str("test"))
    ensures FromJsonValue(StaticByteString(n), Str("test"), 2, None) == Err(TypeError)
  {
    assert AsciiChars([116, 101, 115, 116]) == "test";
  }

  /** With the intended guard, every ASCII byte string survives the round trip. */
  lemma StaticByteStringRoundTripFixed(n: nat, bs: seq<byte>, zarrFormat: ZarrFormat, e: Option<string>)
    requires IsAscii(bs)
    requires EndiannessToNumpyStr(e).Ok?
    ensures ToJsonValue(StaticByteString(n), SBytes(bs), zarrFormat).Ok?
    ensures StaticByteStringFromJsonFixed(StaticByteString(n), ToJsonValue(StaticByteString(n), SBytes(bs), zarrFormat).value, e)
         == Ok(SBytes(bs))
  {
    var s := AsciiChars(bs);
    assert AsciiEncode(s).Ok?;
    assert AsciiEncode(s).value == bs;
  }

  /** As written, any non-empty opaque value fails to encode. */
  lemma StaticRawBytesToJsonFails(n: nat, bs: seq<byte>)
    requires bs != []
    ensures ToJsonValue(StaticRawBytes(n), SVoid(bs), 2).Err?
    ensures ToJsonValue(StaticRawBytes(n), SVoid(bs), 3).Err?
  {
  }

  /** `bytes()` of a list of byte values gives those bytes. */
  lemma {:induction false} BytesOfListInts(bs: seq<byte>)
    ensures BytesOfList(seq(|bs|, k requires 0 <= k < |bs| => Int(bs[k]))) == Ok(bs)
    decreases |bs|
  {
    var items := seq(|bs|, k requires 0 <= k < |bs| => Int(bs[k]));
    if bs != [] {
      assert items[1..] == seq(|bs[1..]|, k requires 0 <= k < |bs[1..]| => Int(bs[1..][k]));
      BytesOfListInts(bs[1..]);
      assert [bs[0]] + bs[1..] == bs;
    }
  }

  /**
   * With the intended encoding `tuple(data.tobytes())`, the list of byte values,
   * `from_json_value` reads every opaque value back.
   */
  lemma StaticRawBytesRoundTripFixed(n: nat, bs: seq<byte>, e: Option<string>)
    requires EndiannessToNumpyStr(e).Ok?
    ensures FromJsonValue(StaticRawBytes(n), IntList(bs), 2, e) == Ok(SVoid(bs))
  {
    BytesOfListInts(bs);
    assert IntList(bs).items == seq(|bs|, k requires 0 <= k < |bs| => Int(bs[k]));
  }

  /** With zarr format 2 a complex value is written as one float, which the pair check then refuses. */
  lemma ComplexV2RoundTripFails(w: Wrapper)
    requires IsComplexWrapper(w)
    ensures ToJsonValue(w, SComplex(Finite(1.0), Finite(2.0)), 2) == Ok(Float(Finite(1.0)))
    ensures FromJsonValue(w, Float(Finite(1.0)), 2, None) == Err(TypeError)
  {
  }

  /** With zarr format 3 a complex value with a NaN part is written with "NaN", which `complex()` refuses. */
  lemma ComplexV3RoundTripFails(w: Wrapper)
    requires IsComplexWrapper(w)
    ensures ToJsonValue(w, SComplex(NaN, Finite(0.0)), 3) == Ok(List([Str("NaN"), Float(Finite(0.0))]))
    ensures FromJsonValue(w, List([Str("NaN"), Float(Finite(0.0))]), 3, None) == Err(TypeError)
  {
  }

  /** The complex conversions as evidently intended: a pair in both formats, each part a JSON float. */
  function ComplexToJsonFixed(re: Flt, im: Flt): (j: Value)
    ensures CheckJsonComplexFloatV2(j) && CheckJsonComplexFloatV3(j)
  {
    ComplexToJsonV3(re, im)
  }

  function ComplexFromJsonFixed(d: Value): (r: Result<Scalar>)
    ensures !CheckJsonComplexFloatV3(d) ==> r == Err(TypeError)
  {
    if CheckJsonComplexFloatV3(d) then
      var items := SequenceItems(d).value;
      var re :- FloatFromJsonV3(items[0]);
      var im :- FloatFromJsonV3(items[1]);
      Ok(SComplex(re, im))
    else Err(TypeError)
  }

  /** With the intended conversions every complex value, NaN and infinite parts included, round-trips. */
  lemma ComplexRoundTripFixed(re: Flt, im: Flt)
    ensures ComplexFromJsonFixed(ComplexToJsonFixed(re, im)) == Ok(SComplex(re, im))
  { }
}
