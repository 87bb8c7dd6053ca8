/** Go strings are UTF-8 byte strings; the query encoder works on those bytes. */
module Utf8 {

  newtype byte = x: int | 0 <= x < 256

  type Bytes = seq<byte>

  /** The UTF-8 encoding of one Unicode scalar value. */
  function EncodeChar(c: char): (b: Bytes)
    ensures 1 <= |b| <= 4
    ensures |b| == 1 <==> c as int < 0x80
    ensures |b| == 1 ==> b[0] as int == c as int
    ensures |b| == LeadLength(b[0])
  {
    var n := c as int;
    if n < 0x80 then [n as byte]
    else if n < 0x800 then [(0xC0 + n / 64) as byte, (0x80 + n % 64) as byte]
    else if n < 0x10000 then
      [(0xE0 + n / 4096) as byte, (0x80 + (n / 64) % 64) as byte, (0x80 + n % 64) as byte]
    else
      [(0xF0 + n / 262144) as byte, (0x80 + (n / 4096) % 64) as byte,
       (0x80 + (n / 64) % 64) as byte, (0x80 + n % 64) as byte]
  }

  /** How many bytes a UTF-8 sequence has, read off its first byte. */
  function LeadLength(b: byte): nat {
    if b < 0x80 then 1 else if b < 0xE0 then 2 else if b < 0xF0 then 3 else 4
  }

  /** The UTF-8 encoding of a string. */
  function Encode(s: string): (b: Bytes)
    ensures |s| == 0 <==> |b| == 0
  {
    if |s| == 0 then [] else EncodeChar(s[0]) + Encode(s[1..])
  }

  /** Reads the scalar value back from its encoding. */
  function DecodeChar(b: Bytes): int
    requires 1 <= |b| <= 4
  {
    if |b| == 1 then b[0] as int
    else if |b| == 2 then (b[0] as int - 0xC0) * 64 + (b[1] as int - 0x80)
    else if |b| == 3 then (b[0] as int - 0xE0) * 4096 + (b[1] as int - 0x80) * 64 + (b[2] as int - 0x80)
    else (b[0] as int - 0xF0) * 262144 + (b[1] as int - 0x80) * 4096 + (b[2] as int - 0x80) * 64 + (b[3] as int - 0x80)
  }

  lemma DecodeEncodeChar(c: char)
    ensures DecodeChar(EncodeChar(c)) == c as int
  {
    var n := c as int;
    if n < 0x80 {
    } else if n < 0x800 {
      assert n == (n / 64) * 64 + n % 64;
    } else if n < 0x10000 {
      assert n / 64 == (n / 4096) * 64 + (n / 64) % 64;
      assert n == (n / 64) * 64 + n % 64;
    } else {
      assert n / 4096 == (n / 262144) * 64 + (n / 4096) % 64;
      assert n / 64 == (n / 4096) * 64 + (n / 64) % 64;
      assert n == (n / 64) * 64 + n % 64;
    }
  }

  lemma EncodeCharInjective(c1: char, c2: char)
    requires EncodeChar(c1) == EncodeChar(c2)
    ensures c1 == c2
  {
    DecodeEncodeChar(c1);
    DecodeEncodeChar(c2);
  }

  /** Distinct strings have distinct encodings, so keys stay distinct once encoded. */
  lemma {:induction false} EncodeInjective(s: string, t: string)
    requires Encode(s) == Encode(t)
    ensures s == t
  {
    if |s| > 0 {
      var a, b := EncodeChar(s[0]), EncodeChar(t[0]);
      assert Encode(s)[0] == a[0] && Encode(t)[0] == b[0];
      assert |a| == |b|;
      assert Encode(s)[..|a|] == a && Encode(t)[..|b|] == b;
      EncodeCharInjective(s[0], t[0]);
      assert Encode(s)[|a|..] == Encode(s[1..]);
      assert Encode(t)[|b|..] == Encode(t[1..]);
      EncodeInjective(s[1..], t[1..]);
      assert s == [s[0]] + s[1..] && t == [t[0]] + t[1..];
    }
  }

  predicate IsAscii(s: string) {
    forall i :: 0 <= i < |s| ==> s[i] as int < 0x80
  }

  /** An ASCII string encodes byte for byte. */
  lemma {:induction false} EncodeAscii(s: string)
    requires IsAscii(s)
    ensures |Encode(s)| == |s|
    ensures forall i :: 0 <= i < |s| ==> Encode(s)[i] as int == s[i] as int
  {
    if |s| > 0 {
      assert IsAscii(s[1..]) by {
        forall i | 0 <= i < |s[1..]| ensures s[1..][i] as int < 0x80 { assert s[1..][i] == s[i + 1]; }
      }
      EncodeAscii(s[1..]);
    }
  }
}
