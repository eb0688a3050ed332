/** UTF-8 (RFC 3629): the strict codec Python's `str.encode` and `bytes.decode` use. */
module Utf8 {
  import opened Wrappers

  type byte = n: int | 0 <= n < 256

  /** The bytes of one character. */
  function EncodeChar(c: char): (b: seq<byte>)
    ensures 1 <= |b| <= 4
  {
    var n := c as int;
    if n < 0x80 then [n]
    else if n < 0x800 then [0xC0 + n / 64, 0x80 + n % 64]
    else if n < 0x10000 then [0xE0 + n / 4096, 0x80 + n / 64 % 64, 0x80 + n % 64]
    else [0xF0 + n / 262144, 0x80 + n / 4096 % 64, 0x80 + n / 64 % 64, 0x80 + n % 64]
  }

  function Encode(s: string): seq<byte> {
    if s == "" then [] else EncodeChar(s[0]) + Encode(s[1..])
  }

  predicate Continuation(b: byte) {
    0x80 <= b < 0xC0
  }

  /** A scalar value: neither a surrogate nor above U+10FFFF. */
  predicate Scalar(n: int) {
    0 <= n < 0xD800 || 0xE000 <= n < 0x110000
  }

  function Value2(a: byte, b: byte): int {
    (a as int - 0xC0) * 64 + (b as int - 0x80)
  }

  function Value3(a: byte, b: byte, c: byte): int {
    (a as int - 0xE0) * 4096 + (b as int - 0x80) * 64 + (c as int - 0x80)
  }

  function Value4(a: byte, b: byte, c: byte, d: byte): int {
    (a as int - 0xF0) * 262144 + (b as int - 0x80) * 4096 + (c as int - 0x80) * 64 + (d as int - 0x80)
  }

  /** The first character of `b` and the number of its bytes; overlong forms and surrogates are errors. */
  function DecodeChar(b: seq<byte>): (r: Option<(char, nat)>)
    requires b != []
    ensures r.Some? ==> 1 <= r.value.1 <= |b|
  {
    if b[0] < 0x80 then Some((b[0] as char, 1))
    else if 0xC0 <= b[0] < 0xE0 && |b| >= 2 && Continuation(b[1]) then
      if 0x80 <= Value2(b[0], b[1]) < 0x800 then Some((Value2(b[0], b[1]) as char, 2)) else None
    else if 0xE0 <= b[0] < 0xF0 && |b| >= 3 && Continuation(b[1]) && Continuation(b[2]) then
      var n := Value3(b[0], b[1], b[2]);
      if 0x800 <= n && Scalar(n) then Some((n as char, 3)) else None
    else if 0xF0 <= b[0] < 0xF8 && |b| >= 4 && Continuation(b[1]) && Continuation(b[2]) && Continuation(b[3]) then
      var n := Value4(b[0], b[1], b[2], b[3]);
      if 0x10000 <= n && Scalar(n) then Some((n as char, 4)) else None
    else None
  }

  function Decode(b: seq<byte>): Option<string> {
    if b == [] then Some("")
    else
      match DecodeChar(b)
      case None => None
      case Some((c, n)) =>
        match Decode(b[n..])
        case None => None
        case Some(rest) => Some([c] + rest)
  }

  /** The bits that `k` continuation bytes from `i` on carry, high end first. */
  function Carried(b: seq<byte>, i: nat, k: nat, high: int): int
    requires i + k <= |b|
    decreases k
  {
    if k == 0 then high else Carried(b, i + 1, k - 1, high * 64 + (b[i] as int - 0x80))
  }

  /** The shape of the bytes `b` of a character with number `n` (section 3 of RFC 3629), `first` being the first byte's mark. */
  predicate Shaped(b: seq<byte>, n: int, count: nat, first: int, limit: int) {
    && |b| == count > 0 && first <= b[0] < limit
    && (forall k | 1 <= k < |b| :: 0x80 <= b[k] < 0xC0)
    && Carried(b, 1, count - 1, b[0] as int - first) == n
  }

  /**
   * A character has one to four bytes, by its number; the first says how many, the others are continuation bytes, and
   * together they carry the bits of the number.
   */
  lemma EncodedShape(c: char)
    ensures var b, n := EncodeChar(c), c as int;
      if n < 0x80 then Shaped(b, n, 1, 0, 0x80)
      else if n < 0x800 then Shaped(b, n, 2, 0xC0, 0xE0)
      else if n < 0x10000 then Shaped(b, n, 3, 0xE0, 0xF0)
      else Shaped(b, n, 4, 0xF0, 0xF8)
  {
    var b, n := EncodeChar(c), c as int;
    if n < 0x80 {
    } else if n < 0x800 {
      Parts2(n);
      assert Carried(b, 1, 1, b[0] as int - 0xC0) == Carried(b, 2, 0, Value2(b[0], b[1]));
    } else if n < 0x10000 {
      Parts3(n);
      Carried3(b);
    } else {
      Parts4(n);
      Carried4(b);
    }
  }

  lemma Carried3(b: seq<byte>)
    requires |b| == 3
    ensures Carried(b, 1, 2, b[0] as int - 0xE0) == Value3(b[0], b[1], b[2])
  {
    var high := (b[0] as int - 0xE0) * 64 + (b[1] as int - 0x80);
    assert Carried(b, 1, 2, b[0] as int - 0xE0) == Carried(b, 2, 1, high);
    assert Carried(b, 2, 1, high) == Carried(b, 3, 0, high * 64 + (b[2] as int - 0x80));
  }

  lemma Carried4(b: seq<byte>)
    requires |b| == 4
    ensures Carried(b, 1, 3, b[0] as int - 0xF0) == Value4(b[0], b[1], b[2], b[3])
  {
    var high := (b[0] as int - 0xF0) * 64 + (b[1] as int - 0x80);
    var next := high * 64 + (b[2] as int - 0x80);
    assert Carried(b, 1, 3, b[0] as int - 0xF0) == Carried(b, 2, 2, high);
    assert Carried(b, 2, 2, high) == Carried(b, 3, 1, next);
    assert Carried(b, 3, 1, next) == Carried(b, 4, 0, next * 64 + (b[3] as int - 0x80));
  }

  lemma Parts2(n: int)
    requires 0x80 <= n < 0x800
    ensures 0xC0 <= 0xC0 + n / 64 < 0xE0 && Value2(0xC0 + n / 64, 0x80 + n % 64) == n
  {
  }

  lemma Parts3(n: int)
    requires 0x800 <= n < 0x10000
    ensures 0xE0 <= 0xE0 + n / 4096 < 0xF0 && Value3(0xE0 + n / 4096, 0x80 + n / 64 % 64, 0x80 + n % 64) == n
  {
    assert n == n / 64 * 64 + n % 64;
    assert n / 64 == n / 4096 * 64 + n / 64 % 64;
  }

  lemma Parts4(n: int)
    requires 0x10000 <= n < 0x110000
    ensures 0xF0 <= 0xF0 + n / 262144 < 0xF8
    ensures Value4(0xF0 + n / 262144, 0x80 + n / 4096 % 64, 0x80 + n / 64 % 64, 0x80 + n % 64) == n
  {
    assert n == n / 64 * 64 + n % 64;
    assert n / 64 == n / 4096 * 64 + n / 64 % 64;
    assert n / 4096 == n / 262144 * 64 + n / 4096 % 64;
  }

  lemma DecodeEncodedChar(c: char, rest: seq<byte>)
    ensures DecodeChar(EncodeChar(c) + rest) == Some((c, |EncodeChar(c)|))
  {
    var e := EncodeChar(c);
    var b := e + rest;
    var n := c as int;
    assert b[0] == e[0];
    if n < 0x80 {
    } else if n < 0x800 {
      Parts2(n);
      assert b[1] == e[1];
    } else if n < 0x10000 {
      Parts3(n);
      assert b[1] == e[1] && b[2] == e[2];
    } else {
      Parts4(n);
      assert b[1] == e[1] && b[2] == e[2] && b[3] == e[3];
    }
  }

  /** What is encoded decodes to itself. */
  lemma {:induction false} RoundTrip(s: string)
    ensures Decode(Encode(s)) == Some(s)
  {
    if s != "" {
      var b := Encode(s);
      DecodeEncodedChar(s[0], Encode(s[1..]));
      assert b[|EncodeChar(s[0])|..] == Encode(s[1..]);
      RoundTrip(s[1..]);
      assert [s[0]] + s[1..] == s;
    }
  }

  lemma Whole2(a: byte, b: byte)
    requires 0xC0 <= a < 0xE0 && Continuation(b)
    ensures var n := Value2(a, b); n / 64 == a - 0xC0 && n % 64 == b - 0x80
  {
  }

  lemma Whole3(a: byte, b: byte, c: byte)
    requires 0xE0 <= a < 0xF0 && Continuation(b) && Continuation(c)
    ensures var n := Value3(a, b, c); n / 4096 == a - 0xE0 && n / 64 % 64 == b - 0x80 && n % 64 == c - 0x80
  {
    var n := Value3(a, b, c);
    assert n / 64 == (a as int - 0xE0) * 64 + (b as int - 0x80);
  }

  lemma Whole4(a: byte, b: byte, c: byte, d: byte)
    requires 0xF0 <= a < 0xF8 && Continuation(b) && Continuation(c) && Continuation(d)
    ensures var n := Value4(a, b, c, d);
      n / 262144 == a - 0xF0 && n / 4096 % 64 == b - 0x80 && n / 64 % 64 == c - 0x80 && n % 64 == d - 0x80
  {
    var n := Value4(a, b, c, d);
    assert n / 64 == (a as int - 0xF0) * 4096 + (b as int - 0x80) * 64 + (c as int - 0x80);
    assert n / 4096 == (a as int - 0xF0) * 64 + (b as int - 0x80);
  }

  lemma EncodeDecodedChar(b: seq<byte>)
    requires b != [] && DecodeChar(b).Some?
    ensures EncodeChar(DecodeChar(b).value.0) == b[..DecodeChar(b).value.1]
  {
    if b[0] < 0x80 {
    } else if b[0] < 0xE0 {
      Whole2(b[0], b[1]);
    } else if b[0] < 0xF0 {
      Whole3(b[0], b[1], b[2]);
    } else {
      Whole4(b[0], b[1], b[2], b[3]);
    }
  }

  /** Every text has one encoding: bytes that decode are the encoding of what they decode to. */
  lemma {:induction false} Canonical(b: seq<byte>)
    requires Decode(b).Some?
    ensures Encode(Decode(b).value) == b
    decreases |b|
  {
    if b != [] {
      var n := DecodeChar(b).value.1;
      EncodeDecodedChar(b);
      Canonical(b[n..]);
      var s := Decode(b).value;
      assert s[1..] == Decode(b[n..]).value;
      assert b == b[..n] + b[n..];
    }
  }
}
