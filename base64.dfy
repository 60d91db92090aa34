/**
 * Base64 with the standard alphabet of section 4 of RFC 4648, as Python's
 * `base64.standard_b64decode` applies it: the non-strict decoder of CPython's
 * `binascii.a2b_base64`, which skips characters outside the alphabet, stops at
 * the first complete padding and reports a dangling quantum as an error.
 */
module Base64 {
  import opened Common
  import opened Values

  /** The character that encodes the 6-bit value `v`. */
  function CharOf(v: nat): (c: char)
    requires v < 64
  {
    if v < 26 then ('A' as int + v) as char
    else if v < 52 then ('a' as int + (v - 26)) as char
    else if v < 62 then ('0' as int + (v - 52)) as char
    else if v == 62 then '+'
    else '/'
  }

  /** The 6-bit value of an alphabet character, `None` for anything else (including `=`). */
  function ValueOf(c: char): (r: Option<nat>)
    ensures r.Some? ==> r.value < 64 && CharOf(r.value) == c
  {
    if 'A' <= c <= 'Z' then Some(c as int - 'A' as int)
    else if 'a' <= c <= 'z' then Some(c as int - 'a' as int + 26)
    else if '0' <= c <= '9' then Some(c as int - '0' as int + 52)
    else if c == '+' then Some(62)
    else if c == '/' then Some(63)
    else None
  }

  lemma ValueOfCharOf(v: nat)
    requires v < 64
    ensures ValueOf(CharOf(v)) == Some(v)
  {
  }

  /** Encoding: three bytes to four characters, the last group padded with `=`. */
  function Encode(bs: seq<byte>): (s: string)
    ensures |s| == 4 * ((|bs| + 2) / 3)
    decreases |bs|
  {
    if |bs| == 0 then ""
    else
      var a := bs[0];
      if |bs| == 1 then [CharOf(a / 4), CharOf(a % 4 * 16), '=', '=']
      else
        var b := bs[1];
        if |bs| == 2 then [CharOf(a / 4), CharOf(a % 4 * 16 + b / 16), CharOf(b % 16 * 4), '=']
        else
          var c := bs[2];
          [CharOf(a / 4), CharOf(a % 4 * 16 + b / 16), CharOf(b % 16 * 4 + c / 64), CharOf(c % 64)]
          + Encode(bs[3..])
  }

  /**
   * The decoder loop from position `quadPos` (0..3) of a quantum, with the
   * pending bits `left`, the count `pads` of `=` seen since the last data
   * character, and the bytes `out` emitted so far.
   */
  function DecodeFrom(s: string, quadPos: nat, left: nat, pads: nat, out: seq<byte>): Result<seq<byte>>
    requires quadPos < 4
    requires quadPos == 0 ==> left == 0
    requires quadPos == 1 ==> left < 64
    requires quadPos == 2 ==> left < 16
    requires quadPos == 3 ==> left < 4
    decreases |s|
  {
    if s == [] then
      if quadPos == 0 then Ok(out) else Err(ValueError)
    else if s[0] == '=' then
      if quadPos >= 2 && quadPos + pads + 1 >= 4 then Ok(out)
      else DecodeFrom(s[1..], quadPos, left, if quadPos >= 2 then pads + 1 else pads, out)
    else
      match ValueOf(s[0])
      case None => DecodeFrom(s[1..], quadPos, left, pads, out)
      case Some(v) =>
        if quadPos == 0 then DecodeFrom(s[1..], 1, v, 0, out)
        else if quadPos == 1 then DecodeFrom(s[1..], 2, v % 16, 0, out + [left * 4 + v / 16])
        else if quadPos == 2 then DecodeFrom(s[1..], 3, v % 4, 0, out + [left * 16 + v / 4])
        else DecodeFrom(s[1..], 0, 0, 0, out + [left * 64 + v])
  }

  function Decode(s: string): Result<seq<byte>> {
    DecodeFrom(s, 0, 0, 0, [])
  }

  /**
   * `base64.standard_b64decode(v)`: a `str` must be ASCII, `bytes` are read as
   * ASCII codes, and anything else is refused with TypeError.
   */
  function StandardB64Decode(v: Value): (r: Result<seq<byte>>)
    ensures v.Str? && (forall k :: 0 <= k < |v.s| ==> v.s[k] as int < 128) ==> r == Decode(v.s)
    ensures v.Str? && (exists k :: 0 <= k < |v.s| && v.s[k] as int >= 128) ==> r == Err(ValueError)
    ensures !v.Str? && !v.Bytes? ==> r == Err(TypeError)
  {
    match v
    case Str(s) =>
      if forall k :: 0 <= k < |s| ==> s[k] as int < 128 then Decode(s) else Err(ValueError)
    case Bytes(bs) => Decode(seq(|bs|, k requires 0 <= k < |bs| => bs[k] as char))
    case _ => Err(TypeError)
  }

  // The three arithmetic facts behind one quantum: the 6-bit groups reassemble each byte.
  lemma FirstByte(a: byte, b: byte)
    ensures a / 4 * 4 + (a % 4 * 16 + b / 16) / 16 == a
  { }

  lemma SecondByte(b: byte, c: byte)
    ensures (b / 16 + 0) % 16 * 16 + (b % 16 * 4 + c / 64) / 4 == b
  { }

  lemma ThirdByte(b: byte, c: byte)
    ensures (b % 16 * 4 + c / 64) % 4 * 64 + c % 64 == c
  { }

  /** One full quantum: four data characters emit their three bytes and return to a boundary. */
  lemma DecodeQuantum(a: byte, b: byte, c: byte, rest: string, out: seq<byte>)
    ensures DecodeFrom([CharOf(a / 4), CharOf(a % 4 * 16 + b / 16), CharOf(b % 16 * 4 + c / 64), CharOf(c % 64)] + rest, 0, 0, 0, out)
         == DecodeFrom(rest, 0, 0, 0, out + [a, b, c])
  {
    var s0, s1, s2, s3 := a / 4, a % 4 * 16 + b / 16, b % 16 * 4 + c / 64, c % 64;
    var e := [CharOf(s0), CharOf(s1), CharOf(s2), CharOf(s3)] + rest;
    ValueOfCharOf(s0); ValueOfCharOf(s1); ValueOfCharOf(s2); ValueOfCharOf(s3);
    FirstByte(a, b); SecondByte(b, c); ThirdByte(b, c);
    assert e[1..] == [CharOf(s1), CharOf(s2), CharOf(s3)] + rest;
    assert e[1..][1..] == [CharOf(s2), CharOf(s3)] + rest;
    assert e[1..][1..][1..] == [CharOf(s3)] + rest;
    assert e[1..][1..][1..][1..] == rest;
    assert DecodeFrom(e, 0, 0, 0, out) == DecodeFrom(e[1..], 1, s0, 0, out);
    assert DecodeFrom(e[1..], 1, s0, 0, out) == DecodeFrom(e[1..][1..], 2, s1 % 16, 0, out + [a]);
    assert s1 % 16 == b / 16;
    assert DecodeFrom(e[1..][1..], 2, s1 % 16, 0, out + [a])
        == DecodeFrom(e[1..][1..][1..], 3, s2 % 4, 0, out + [a] + [b]);
    assert DecodeFrom(e[1..][1..][1..], 3, s2 % 4, 0, out + [a] + [b])
        == DecodeFrom(rest, 0, 0, 0, out + [a] + [b] + [c]);
    assert out + [a] + [b] + [c] == out + [a, b, c];
  }

  /** A final single byte: two data characters and two pads. */
  lemma DecodeOneByteTail(a: byte, out: seq<byte>)
    ensures DecodeFrom([CharOf(a / 4), CharOf(a % 4 * 16), '=', '='], 0, 0, 0, out) == Ok(out + [a])
  {
    var s0, s1 := a / 4, a % 4 * 16;
    var e := [CharOf(s0), CharOf(s1), '=', '='];
    ValueOfCharOf(s0); ValueOfCharOf(s1);
    FirstByte(a, 0);
    assert e[1..] == [CharOf(s1), '=', '='];
    assert e[1..][1..] == ['=', '='];
    assert e[1..][1..][1..] == ['='];
    assert DecodeFrom(e, 0, 0, 0, out) == DecodeFrom(e[1..], 1, s0, 0, out);
    assert DecodeFrom(e[1..], 1, s0, 0, out) == DecodeFrom(e[1..][1..], 2, s1 % 16, 0, out + [a]);
    assert DecodeFrom(e[1..][1..], 2, s1 % 16, 0, out + [a]) == DecodeFrom(e[1..][1..][1..], 2, s1 % 16, 1, out + [a]);
  }

  /** A final pair of bytes: three data characters and one pad. */
  lemma DecodeTwoByteTail(a: byte, b: byte, out: seq<byte>)
    ensures DecodeFrom([CharOf(a / 4), CharOf(a % 4 * 16 + b / 16), CharOf(b % 16 * 4), '='], 0, 0, 0, out) == Ok(out + [a, b])
  {
    var s0, s1, s2 := a / 4, a % 4 * 16 + b / 16, b % 16 * 4;
    var e := [CharOf(s0), CharOf(s1), CharOf(s2), '='];
    ValueOfCharOf(s0); ValueOfCharOf(s1); ValueOfCharOf(s2);
    FirstByte(a, b); SecondByte(b, 0);
    assert e[1..] == [CharOf(s1), CharOf(s2), '='];
    assert e[1..][1..] == [CharOf(s2), '='];
    assert e[1..][1..][1..] == ['='];
    assert DecodeFrom(e, 0, 0, 0, out) == DecodeFrom(e[1..], 1, s0, 0, out);
    assert DecodeFrom(e[1..], 1, s0, 0, out) == DecodeFrom(e[1..][1..], 2, s1 % 16, 0, out + [a]);
    assert s1 % 16 == b / 16;
    assert DecodeFrom(e[1..][1..], 2, s1 % 16, 0, out + [a])
        == DecodeFrom(e[1..][1..][1..], 3, s2 % 4, 0, out + [a] + [b]);
    assert out + [a] + [b] == out + [a, b];
  }

  /** Decoding an encoding from a quantum boundary appends exactly the encoded bytes. */
  lemma {:induction false} DecodeFromEncode(bs: seq<byte>, out: seq<byte>)
    ensures DecodeFrom(Encode(bs), 0, 0, 0, out) == Ok(out + bs)
    decreases |bs|
  {
    if |bs| == 0 {
      assert out + bs == out;
    } else if |bs| == 1 {
      DecodeOneByteTail(bs[0], out);
      assert bs == [bs[0]];
    } else if |bs| == 2 {
      DecodeTwoByteTail(bs[0], bs[1], out);
      assert bs == [bs[0], bs[1]];
    } else {
      DecodeQuantum(bs[0], bs[1], bs[2], Encode(bs[3..]), out);
      DecodeFromEncode(bs[3..], out + [bs[0], bs[1], bs[2]]);
      assert out + [bs[0], bs[1], bs[2]] + bs[3..] == out + bs;
    }
  }

  /** Decoding inverts encoding: `standard_b64decode(b64encode(x)) == x`. */
  lemma DecodeEncode(bs: seq<byte>)
    ensures Decode(Encode(bs)) == Ok(bs)
  {
    DecodeFromEncode(bs, []);
    assert [] + bs == bs;
  }

  /** Every character of an encoding is ASCII, as `standard_b64decode` of a `str` demands. */
  lemma EncodeAscii(bs: seq<byte>)
    ensures forall k :: 0 <= k < |Encode(bs)| ==> Encode(bs)[k] as int < 128
    decreases |bs|
  { }

  /** The encoding of the ASCII bytes of "test" is "dGVzdA==", and it decodes back to them. */
  lemma EncodeTest()
    ensures Encode([116, 101, 115, 116]) == "dGVzdA=="
    ensures Decode("dGVzdA==") == Ok([116, 101, 115, 116])
  {
    var bs: seq<byte> := [116, 101, 115, 116];
    assert bs[3..] == [116];
    assert Encode(bs[3..]) == "dA==";
    assert Encode(bs) == "dGVz" + "dA==";
    DecodeEncode(bs);
  }
}
