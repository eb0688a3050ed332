/** The string operations the bug assistant uses on user text. */
module Text {

  predicate IsSpace(c: char) {
    c == ' ' || '\t' <= c <= '\r' || '\U{1C}' <= c <= '\U{1F}' || c == '\U{85}' || c == '\U{A0}'
    || c == '\U{1680}' || '\U{2000}' <= c <= '\U{200A}' || c == '\U{2028}' || c == '\U{2029}'
    || c == '\U{202F}' || c == '\U{205F}' || c == '\U{3000}'
  }

  function LeftStrip(s: string): string {
    if s != "" && IsSpace(s[0]) then LeftStrip(s[1..]) else s
  }

  function RightStrip(s: string): string {
    if s != "" && IsSpace(s[|s| - 1]) then RightStrip(s[..|s| - 1]) else s
  }

  /** str.strip() */
  function Strip(s: string): string {
    RightStrip(LeftStrip(s))
  }

  predicate Blank(s: string) {
    Strip(s) == ""
  }

  lemma {:induction false} LeftStripStarts(s: string)
    ensures var t := LeftStrip(s); t == "" || !IsSpace(t[0])
  {
    if s != "" && IsSpace(s[0]) {
      LeftStripStarts(s[1..]);
    }
  }

  lemma {:induction false} RightStripEnds(s: string)
    ensures var t := RightStrip(s);
      && (t == "" || !IsSpace(t[|t| - 1]))
      && (s != "" && !IsSpace(s[0]) ==> t != "" && t[0] == s[0])
  {
    if s != "" && IsSpace(s[|s| - 1]) {
      RightStripEnds(s[..|s| - 1]);
    }
  }

  predicate AllSpace(s: string) {
    forall c :: c in s ==> IsSpace(c)
  }

  lemma {:induction false} LeftStripIs(s: string) returns (left: string)
    ensures s == left + LeftStrip(s) && AllSpace(left)
  {
    if s != "" && IsSpace(s[0]) {
      var rest := LeftStripIs(s[1..]);
      left := s[..1] + rest;
    } else {
      left := "";
    }
  }

  lemma {:induction false} RightStripIs(s: string) returns (right: string)
    ensures s == RightStrip(s) + right && AllSpace(right)
  {
    if s != "" && IsSpace(s[|s| - 1]) {
      var rest := RightStripIs(s[..|s| - 1]);
      right := rest + s[|s| - 1..];
    } else {
      right := "";
    }
  }

  /** Stripping takes spaces off both ends and nothing else. */
  lemma StripIs(s: string) returns (left: string, right: string)
    ensures s == left + Strip(s) + right && AllSpace(left) && AllSpace(right)
  {
    left := LeftStripIs(s);
    right := RightStripIs(LeftStrip(s));
  }

  /** Stripping twice is stripping once. */
  lemma StripTwice(s: string)
    ensures Strip(Strip(s)) == Strip(s)
  {
    LeftStripStarts(s);
    RightStripEnds(LeftStrip(s));
  }

  /** What stripping leaves, if anything, has no space at either end. */
  lemma StripEnds(s: string)
    ensures var t := Strip(s); t == "" || (!IsSpace(t[0]) && !IsSpace(t[|t| - 1]))
  {
    LeftStripStarts(s);
    RightStripEnds(LeftStrip(s));
  }

  /** `s or default` */
  function Or(s: string, default: string): string {
    if s == "" then default else s
  }

  /** str.__contains__ */
  predicate Contains(s: string, part: string) {
    exists i: nat :: i <= |s| && part <= s[i..]
  }
}
