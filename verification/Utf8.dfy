/** UTF-8 as defined in section 3 of RFC 3629: one to four bytes a character, no overlong forms, no surrogates. */
module Utf8 {
  import opened Prelude

  type byte = x: int | 0 <= x < 256

  function EncodeChar(c: char): seq<byte> {
    var n := c as int;
    if n < 0x80 then [n]
    else if n < 0x800 then [0xC0 + n / 64, 0x80 + n % 64]
    else if n < 0x1_0000 then [0xE0 + n / 4096, 0x80 + n / 64 % 64, 0x80 + n % 64]
    else [0xF0 + n / 262144, 0x80 + n / 4096 % 64, 0x80 + n / 64 % 64, 0x80 + n % 64]
  }

  function Encode(s: string): seq<byte> {
    if s == "" then [] else EncodeChar(s[0]) + Encode(s[1..])
  }

  predicate Continues(b: seq<byte>, i: nat) {
    i < |b| && 0x80 <= b[i] < 0xC0
  }

  predicate IsScalar(n: int) {
    0 <= n < 0xD800 || 0xE000 <= n < 0x11_0000
  }

  function Value2(a: int, b: int): int { (a - 0xC0) * 64 + (b - 0x80) }

  function Value3(a: int, b: int, c: int): int { (a - 0xE0) * 4096 + (b - 0x80) * 64 + (c - 0x80) }

  function Value4(a: int, b: int, c: int, d: int): int {
    (a - 0xF0) * 262144 + (b - 0x80) * 4096 + (c - 0x80) * 64 + (d - 0x80)
  }

  /** The first character of a byte sequence and its length, if the sequence starts with a well-formed one. */
  function DecodeChar(b: seq<byte>): Option<(char, nat)> {
    if b == [] then None
    else if b[0] < 0x80 then Some((b[0] as char, 1))
    else if 0xC2 <= b[0] < 0xE0 && Continues(b, 1) then
      Some((Value2(b[0], b[1]) as char, 2))
    else if 0xE0 <= b[0] < 0xF0 && Continues(b, 1) && Continues(b, 2) then
      var n := Value3(b[0], b[1], b[2]);
      if n < 0x800 || !IsScalar(n) then None else Some((n as char, 3))
    else if 0xF0 <= b[0] < 0xF8 && Continues(b, 1) && Continues(b, 2) && Continues(b, 3) then
      var n := Value4(b[0], b[1], b[2], b[3]);
      if n < 0x1_0000 || !IsScalar(n) then None else Some((n as char, 4))
    else None
  }

  function Decode(b: seq<byte>): Option<string> {
    if b == [] then Some("") else
    match DecodeChar(b)
    case None => None
    case Some((c, n)) =>
      if n == 0 || n > |b| then None else
      match Decode(b[n..])
      case None => None
      case Some(rest) => Some([c] + rest)
  }

  lemma Split(n: int)
    requires 0 <= n
    ensures n == n / 64 * 64 + n % 64
    ensures n / 64 == n / 4096 * 64 + n / 64 % 64
    ensures n / 4096 == n / 262144 * 64 + n / 4096 % 64
  {
  }

  lemma DecodeEncodeChar(c: char, rest: seq<byte>)
    ensures DecodeChar(EncodeChar(c) + rest) == Some((c, |EncodeChar(c)|))
  {
    var n := c as int;
    Split(n);
    var b := EncodeChar(c) + rest;
    if n < 0x80 {
    } else if n < 0x800 {
      assert Value2(b[0], b[1]) == n;
    } else if n < 0x1_0000 {
      assert Value3(b[0], b[1], b[2]) == n;
    } else {
      assert Value4(b[0], b[1], b[2], b[3]) == n;
    }
  }

  lemma EncodeDecode2(a: byte, b: byte)
    requires 0xC2 <= a < 0xE0 && 0x80 <= b < 0xC0
    ensures var n := Value2(a, b); 0x80 <= n < 0x800 && EncodeChar(n as char) == [a, b]
  {
    Split(Value2(a, b));
  }

  lemma EncodeDecode3(a: byte, b: byte, c: byte)
    requires 0xE0 <= a < 0xF0 && 0x80 <= b < 0xC0 && 0x80 <= c < 0xC0
    requires Value3(a, b, c) >= 0x800 && IsScalar(Value3(a, b, c))
    ensures EncodeChar(Value3(a, b, c) as char) == [a, b, c]
  {
    var n := Value3(a, b, c);
    assert n / 64 == (a - 0xE0) * 64 + (b - 0x80);
    assert n / 4096 == a - 0xE0;
  }

  lemma EncodeDecode4(a: byte, b: byte, c: byte, d: byte)
    requires 0xF0 <= a < 0xF8 && 0x80 <= b < 0xC0 && 0x80 <= c < 0xC0 && 0x80 <= d < 0xC0
    requires Value4(a, b, c, d) >= 0x1_0000 && IsScalar(Value4(a, b, c, d))
    ensures EncodeChar(Value4(a, b, c, d) as char) == [a, b, c, d]
  {
    var n := Value4(a, b, c, d);
    assert n / 64 == (a - 0xF0) * 4096 + (b - 0x80) * 64 + (c - 0x80);
    assert n / 4096 == (a - 0xF0) * 64 + (b - 0x80);
    assert n / 262144 == a - 0xF0;
  }

  lemma EncodeDecodeChar(b: seq<byte>)
    ensures DecodeChar(b).Some? ==>
              var (c, n) := DecodeChar(b).value; 0 < n <= |b| && b[..n] == EncodeChar(c)
  {
    if DecodeChar(b).Some? {
      var n := DecodeChar(b).value.1;
      if n == 2 { EncodeDecode2(b[0], b[1]); }
      if n == 3 { EncodeDecode3(b[0], b[1], b[2]); }
      if n == 4 { EncodeDecode4(b[0], b[1], b[2], b[3]); }
    }
  }

  /** Decoding inverts encoding, for every text. */
  lemma {:induction false} DecodeEncode(s: string)
    ensures Decode(Encode(s)) == Some(s)
  {
    if s != "" {
      DecodeEncodeChar(s[0], Encode(s[1..]));
      DecodeEncode(s[1..]);
      var b := Encode(s);
      assert b == EncodeChar(s[0]) + Encode(s[1..]);
      assert b[|EncodeChar(s[0])|..] == Encode(s[1..]);
      assert [s[0]] + s[1..] == s;
    }
  }

  /** Whatever decodes was the encoding of its result: no byte sequence has a second reading. */
  lemma {:induction false} EncodeDecode(b: seq<byte>)
    ensures Decode(b).Some? ==> Encode(Decode(b).value) == b
  {
    if b != [] && Decode(b).Some? {
      EncodeDecodeChar(b);
      var (c, n) := DecodeChar(b).value;
      EncodeDecode(b[n..]);
      var rest := Decode(b[n..]).value;
      assert ([c] + rest)[1..] == rest;
      assert Encode([c] + rest) == EncodeChar(c) + Encode(rest);
      assert b == b[..n] + b[n..];
    }
  }

  lemma Associate(x: seq<byte>, y: seq<byte>, z: seq<byte>)
    ensures x + (y + z) == x + y + z
  {
  }

  lemma {:induction false} EncodeConcat(s: string, t: string)
    ensures Encode(s + t) == Encode(s) + Encode(t)
  {
    if s == "" {
      assert s + t == t;
    } else {
      EncodeConcat(s[1..], t);
      assert (s + t)[1..] == s[1..] + t;
      Associate(EncodeChar(s[0]), Encode(s[1..]), Encode(t));
    }
  }
}
