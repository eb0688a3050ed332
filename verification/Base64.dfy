/** Base64 (section 4 of RFC 4648), with the padding and unused bits of its last group. */
module Base64 {
  import opened Wrappers
  import opened Utf8

  type index = n: int | 0 <= n < 64

  /** Table 1 of RFC 4648 */
  function CharOf(n: index): char {
    if n < 26 then 'A' + n as char
    else if n < 52 then 'a' + (n - 26) as char
    else if n < 62 then '0' + (n - 52) as char
    else if n == 62 then '+' else '/'
  }

  predicate InAlphabet(c: char) {
    'A' <= c <= 'Z' || 'a' <= c <= 'z' || '0' <= c <= '9' || c == '+' || c == '/'
  }

  function IndexOf(c: char): index
    requires InAlphabet(c)
  {
    if 'A' <= c <= 'Z' then (c - 'A') as int
    else if 'a' <= c <= 'z' then (c - 'a') as int + 26
    else if '0' <= c <= '9' then (c - '0') as int + 52
    else if c == '+' then 62 else 63
  }

  lemma CharIndex(n: index)
    ensures InAlphabet(CharOf(n)) && IndexOf(CharOf(n)) == n
    ensures CharOf(n) != '='
  {
  }

  /** The characters are those of Table 1 of RFC 4648, in its order, and no others. */
  lemma AlphabetIs(n: index, c: char)
    ensures CharOf(0) == 'A' && CharOf(25) == 'Z' && CharOf(26) == 'a' && CharOf(51) == 'z'
    ensures CharOf(52) == '0' && CharOf(61) == '9' && CharOf(62) == '+' && CharOf(63) == '/'
    ensures n < 61 && n != 25 && n != 51 ==> CharOf(n + 1) as int == CharOf(n) as int + 1
    ensures InAlphabet(c) <==> exists m: index :: CharOf(m) == c
  {
    if InAlphabet(c) {
      assert CharOf(IndexOf(c)) == c;
    }
    forall m: index
      ensures InAlphabet(CharOf(m))
    {
      CharIndex(m);
    }
  }

  /** Four characters write the number that three bytes write, both with the high end first. */
  lemma GroupNumber(a: byte, b: byte, c: byte)
    ensures var s := EncodeGroup(a, b, c);
      && |s| == 4 && InAlphabet(s[0]) && InAlphabet(s[1]) && InAlphabet(s[2]) && InAlphabet(s[3])
      && IndexOf(s[0]) * 0x4_0000 + IndexOf(s[1]) * 0x1000 + IndexOf(s[2]) * 0x40 + IndexOf(s[3])
         == a as int * 0x1_0000 + b as int * 0x100 + c as int
  {
    GroupRoundTrip(a, b, c);
    CharIndex(a / 4);
    CharIndex(a % 4 * 16 + b / 16);
    CharIndex(b % 16 * 4 + c / 64);
    CharIndex(c % 64);
  }

  function EncodeGroup(a: byte, b: byte, c: byte): string {
    [CharOf(a / 4), CharOf(a % 4 * 16 + b / 16), CharOf(b % 16 * 4 + c / 64), CharOf(c % 64)]
  }

  function Encode(b: seq<byte>): string {
    if b == [] then ""
    else if |b| == 1 then [CharOf(b[0] / 4), CharOf(b[0] % 4 * 16), '=', '=']
    else if |b| == 2 then [CharOf(b[0] / 4), CharOf(b[0] % 4 * 16 + b[1] / 16), CharOf(b[1] % 16 * 4), '=']
    else EncodeGroup(b[0], b[1], b[2]) + Encode(b[3..])
  }

  /** Groups of four; only the last may be padded, and its unused bits are ignored. */
  function Decode(s: string): Option<seq<byte>> {
    if s == "" then Some([])
    else if |s| < 4 || !InAlphabet(s[0]) || !InAlphabet(s[1]) then None
    else
      var i, j := IndexOf(s[0]), IndexOf(s[1]);
      if InAlphabet(s[2]) && InAlphabet(s[3]) then
        var k, l := IndexOf(s[2]), IndexOf(s[3]);
        match Decode(s[4..])
        case None => None
        case Some(rest) => Some([i * 4 + j / 16, j % 16 * 16 + k / 4, k % 4 * 64 + l] + rest)
      else if |s| != 4 || s[3] != '=' then None
      else if InAlphabet(s[2]) then Some([i * 4 + j / 16, j % 16 * 16 + IndexOf(s[2]) / 4])
      else if s[2] == '=' then Some([i * 4 + j / 16])
      else None
  }

  lemma GroupRoundTrip(a: byte, b: byte, c: byte)
    ensures var i, j, k, l := a / 4, a % 4 * 16 + b / 16, b % 16 * 4 + c / 64, c % 64;
      && 0 <= i < 64 && 0 <= j < 64 && 0 <= k < 64 && 0 <= l < 64
      && i * 4 + j / 16 == a && j % 16 * 16 + k / 4 == b && k % 4 * 64 + l == c
  {
  }

  /** Decoding a whole group, by the index of each character. */
  lemma FourDecode(p: char, q: char, r: char, t: char, rest: string)
    requires InAlphabet(p) && InAlphabet(q) && InAlphabet(r) && InAlphabet(t) && Decode(rest).Some?
    ensures var i, j, k, l := IndexOf(p), IndexOf(q), IndexOf(r), IndexOf(t);
      Decode([p, q, r, t] + rest) == Some([i * 4 + j / 16, j % 16 * 16 + k / 4, k % 4 * 64 + l] + Decode(rest).value)
  {
    var s := [p, q, r, t] + rest;
    assert |s| >= 4 && s != "";
    assert s[0] == p && s[1] == q && s[2] == r && s[3] == t && s[4..] == rest;
  }

  lemma OneRoundTrip(a: byte)
    ensures Decode(Encode([a])) == Some([a])
  {
    GroupRoundTrip(a, 0, 0);
    CharIndex(a / 4);
    CharIndex(a % 4 * 16);
    assert Encode([a]) == [CharOf(a / 4), CharOf(a % 4 * 16), '=', '='];
  }

  lemma TwoRoundTrip(a: byte, b: byte)
    ensures Decode(Encode([a, b])) == Some([a, b])
  {
    GroupRoundTrip(a, b, 0);
    CharIndex(a / 4);
    CharIndex(a % 4 * 16 + b / 16);
    CharIndex(b % 16 * 4);
    assert Encode([a, b]) == [CharOf(a / 4), CharOf(a % 4 * 16 + b / 16), CharOf(b % 16 * 4), '='];
  }

  lemma GroupDecodes(a: byte, b: byte, c: byte, rest: string)
    requires Decode(rest).Some?
    ensures Decode(EncodeGroup(a, b, c) + rest) == Some([a, b, c] + Decode(rest).value)
  {
    GroupRoundTrip(a, b, c);
    var i, j, k, l := a / 4, a % 4 * 16 + b / 16, b % 16 * 4 + c / 64, c % 64;
    CharIndex(i);
    CharIndex(j);
    CharIndex(k);
    CharIndex(l);
    FourDecode(CharOf(i), CharOf(j), CharOf(k), CharOf(l), rest);
  }

  /** What is encoded decodes to itself. */
  lemma {:induction false} RoundTrip(b: seq<byte>)
    ensures Decode(Encode(b)) == Some(b)
    decreases |b|
  {
    if |b| == 1 {
      OneRoundTrip(b[0]);
      assert b == [b[0]];
    } else if |b| == 2 {
      TwoRoundTrip(b[0], b[1]);
      assert b == [b[0], b[1]];
    } else if |b| > 2 {
      RoundTrip(b[3..]);
      GroupDecodes(b[0], b[1], b[2], Encode(b[3..]));
      assert [b[0], b[1], b[2]] + b[3..] == b;
    }
  }

  lemma GroupChars(a: byte, b: byte, c: byte)
    ensures forall x :: x in EncodeGroup(a, b, c) ==> InAlphabet(x)
  {
    GroupRoundTrip(a, b, c);
    CharIndex(a / 4);
    CharIndex(a % 4 * 16 + b / 16);
    CharIndex(b % 16 * 4 + c / 64);
    CharIndex(c % 64);
  }

  /** Encoded text has nothing but alphabet characters and padding, and fills whole groups. */
  lemma {:induction false} EncodedChars(b: seq<byte>)
    ensures |Encode(b)| % 4 == 0
    ensures forall x :: x in Encode(b) ==> InAlphabet(x) || x == '='
    decreases |b|
  {
    if 1 <= |b| <= 2 {
      GroupChars(b[0], if |b| == 2 then b[1] else 0, 0);
      assert Encode(b)[..2] == EncodeGroup(b[0], if |b| == 2 then b[1] else 0, 0)[..2];
    } else if |b| > 2 {
      GroupChars(b[0], b[1], b[2]);
      EncodedChars(b[3..]);
    }
  }

  /** A text of whole groups and a last one short of a character decodes, with one "=" added, to three bytes a group but one. */
  lemma {:induction false} DecodesPadded(s: string)
    requires |s| % 4 == 3 && forall k :: 0 <= k < |s| ==> InAlphabet(s[k])
    ensures Decode(s + "=").Some? && |Decode(s + "=").value| == |s| / 4 * 3 + 2
    decreases |s|
  {
    var p := s + "=";
    assert InAlphabet(p[0]) && InAlphabet(p[1]) && InAlphabet(p[2]);
    if |s| > 3 {
      assert InAlphabet(p[3]);
      assert p[4..] == s[4..] + "=";
      DecodesPadded(s[4..]);
    }
  }
}
