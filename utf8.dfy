/**
 * UTF-8, the encoding `setSource` uses for a POST body (`body.getBytes("UTF-8")`).
 * A Java string with a supplementary character holds it as a surrogate pair, which the
 * encoder writes as one four-byte sequence, so encoding the scalar values is the same.
 * Strings here are sequences of scalar values: an unpaired surrogate, which Java would
 * replace by `?`, cannot occur.
 */
module Utf8 {
  import opened Wrappers
  import opened Events

  function EncodeChar(c: char): (r: seq<byte>)
    ensures 1 <= |r| <= 4
    ensures |r| == 1 <==> c as int < 0x80
    ensures |r| == 1 ==> r[0] as int == c as int
  {
    var n := c as int;
    if n < 0x80 then [n as byte]
    else if n < 0x800 then [(0xC0 + n / 0x40) as byte, (0x80 + n % 0x40) as byte]
    else if n < 0x1_0000 then
      [(0xE0 + n / 0x1000) as byte, (0x80 + n / 0x40 % 0x40) as byte, (0x80 + n % 0x40) as byte]
    else
      [(0xF0 + n / 0x4_0000) as byte, (0x80 + n / 0x1000 % 0x40) as byte,
       (0x80 + n / 0x40 % 0x40) as byte, (0x80 + n % 0x40) as byte]
  }

  function Encode(s: string): (r: seq<byte>)
    ensures |s| <= |r| <= 4 * |s|
    ensures r == [] <==> s == []
  {
    if s == [] then [] else EncodeChar(s[0]) + Encode(s[1..])
  }

  /** The length of the sequence a lead byte starts, or 0 for a byte that cannot lead. */
  function SequenceLength(b: byte): nat {
    if b < 0x80 then 1
    else if 0xC0 <= b < 0xE0 then 2
    else if 0xE0 <= b < 0xF0 then 3
    else if 0xF0 <= b < 0xF8 then 4
    else 0
  }

  predicate IsContinuation(b: byte) {
    0x80 <= b < 0xC0
  }

  predicate IsScalarValue(n: int) {
    (0 <= n < 0xD800) || (0xE000 <= n < 0x11_0000)
  }

  /** Decodes one well-formed, shortest-form sequence of 1 to 4 bytes. */
  function DecodeScalar(bs: seq<byte>): Option<char>
    requires 1 <= |bs| <= 4
  {
    var n :=
      if |bs| == 1 then bs[0] as int
      else if |bs| == 2 then (bs[0] as int - 0xC0) * 0x40 + (bs[1] as int - 0x80)
      else if |bs| == 3 then ((bs[0] as int - 0xE0) * 0x40 + (bs[1] as int - 0x80)) * 0x40 + (bs[2] as int - 0x80)
      else (((bs[0] as int - 0xF0) * 0x40 + (bs[1] as int - 0x80)) * 0x40 + (bs[2] as int - 0x80)) * 0x40 + (bs[3] as int - 0x80);
    var least := if |bs| == 1 then 0 else if |bs| == 2 then 0x80 else if |bs| == 3 then 0x800 else 0x1_0000;
    if SequenceLength(bs[0]) == |bs| && (forall i :: 1 <= i < |bs| ==> IsContinuation(bs[i]))
       && least <= n && IsScalarValue(n)
    then Some(n as char)
    else None
  }

  function Decode(b: seq<byte>): Option<string>
    decreases |b|
  {
    if b == [] then Some([])
    else
      var n := SequenceLength(b[0]);
      if n == 0 || |b| < n then None
      else match DecodeScalar(b[..n])
        case None => None
        case Some(c) =>
          match Decode(b[n..])
          case None => None
          case Some(s) => Some([c] + s)
  }

  lemma Div64Twice(n: int)
    requires 0 <= n
    ensures n / 0x40 / 0x40 == n / 0x1000
    ensures n / 0x1000 / 0x40 == n / 0x4_0000
  {
  }

  lemma DecodeEncodeChar(c: char)
    ensures SequenceLength(EncodeChar(c)[0]) == |EncodeChar(c)|
    ensures DecodeScalar(EncodeChar(c)) == Some(c)
  {
    var n := c as int;
    var e := EncodeChar(c);
    Div64Twice(n);
    if n < 0x80 {
    } else if n < 0x800 {
      assert (e[0] as int - 0xC0) * 0x40 + (e[1] as int - 0x80) == n;
    } else if n < 0x1_0000 {
      assert (n / 0x40) == (n / 0x1000) * 0x40 + n / 0x40 % 0x40;
      assert ((e[0] as int - 0xE0) * 0x40 + (e[1] as int - 0x80)) == n / 0x40;
    } else {
      assert (n / 0x1000) == (n / 0x4_0000) * 0x40 + n / 0x1000 % 0x40;
      assert (n / 0x40) == (n / 0x1000) * 0x40 + n / 0x40 % 0x40;
      assert ((e[0] as int - 0xF0) * 0x40 + (e[1] as int - 0x80)) == n / 0x1000;
      assert ((e[0] as int - 0xF0) * 0x40 + (e[1] as int - 0x80)) * 0x40 + (e[2] as int - 0x80) == n / 0x40;
    }
  }

  /** Decoding the bytes of an encoded string gives the string back: no body is altered or lost. */
  lemma {:induction false} DecodeEncode(s: string)
    ensures Decode(Encode(s)) == Some(s)
  {
    if s != [] {
      var e := EncodeChar(s[0]);
      var b := Encode(s);
      DecodeEncodeChar(s[0]);
      assert b == e + Encode(s[1..]);
      assert b[..|e|] == e && b[|e|..] == Encode(s[1..]);
      DecodeEncode(s[1..]);
      assert [s[0]] + s[1..] == s;
    }
  }
}
