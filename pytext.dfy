/** The few pieces of Python's `str` behaviour the program relies on:
    `isspace`, `strip`, `replace` of a single character, `splitlines`,
    `lower` (as far as it matters for file extensions), `str(int)` and the
    ordering `<=` on strings. */
module PyText {

  /** `c.isspace()`: Unicode white space plus the ASCII separators U+001C..U+001F. */
  predicate IsSpace(c: char) {
    ('\t' <= c <= '\r') || ('\U{1C}' <= c <= ' ') || c == '\U{85}' || c == '\U{A0}'
    || c == '\U{1680}' || ('\U{2000}' <= c <= '\U{200A}') || c == '\U{2028}'
    || c == '\U{2029}' || c == '\U{202F}' || c == '\U{205F}' || c == '\U{3000}'
  }

  /** `s.lstrip()`: what is removed is white space, what is left does not start with it. */
  function StripLeft(s: string): (r: string)
    ensures |r| <= |s| && r == s[|s| - |r|..]
    ensures r == [] || !IsSpace(r[0])
    ensures forall i :: 0 <= i < |s| - |r| ==> IsSpace(s[i])
  {
    if s != [] && IsSpace(s[0]) then StripLeft(s[1..]) else s
  }

  /** `s.rstrip()`: what is removed is white space, what is left does not end with it. */
  function StripRight(s: string): (r: string)
    ensures |r| <= |s| && r == s[..|r|]
    ensures r == [] || !IsSpace(r[|r| - 1])
    ensures forall i :: |r| <= i < |s| ==> IsSpace(s[i])
  {
    if s != [] && IsSpace(s[|s| - 1]) then StripRight(s[..|s| - 1]) else s
  }

  /** `s.strip()` */
  function Strip(s: string): string {
    StripRight(StripLeft(s))
  }

  /** `not s.strip()`: the string holds nothing but white space. */
  predicate IsBlank(s: string) {
    s == [] || (IsSpace(s[0]) && IsBlank(s[1..]))
  }

  /** A string is blank exactly when stripping it leaves nothing. */
  lemma {:induction false} BlankIffStripEmpty(s: string)
    ensures IsBlank(s) <==> Strip(s) == []
  {
    if s != [] {
      if IsSpace(s[0]) {
        assert StripLeft(s) == StripLeft(s[1..]);
        BlankIffStripEmpty(s[1..]);
      } else {
        assert StripLeft(s) == s;
        assert StripRight(s) != [];
      }
    }
  }

  /** `s.replace(k, v)` for a one-character `k`: every occurrence of `k` becomes `v`. */
  function ReplaceChar(s: string, k: char, v: string): (r: string)
    ensures k !in v ==> k !in r
    ensures k !in s ==> r == s
  {
    if s == [] then [] else (if s[0] == k then v else [s[0]]) + ReplaceChar(s[1..], k, v)
  }

  /** Every character of `s.replace(k, v)` comes from `s` or from `v`. */
  lemma {:induction false} ReplaceCharFrom(s: string, k: char, v: string)
    ensures forall c :: c in ReplaceChar(s, k, v) ==> c in s || c in v
  {
    if s != [] {
      ReplaceCharFrom(s[1..], k, v);
      assert ReplaceChar(s, k, v) == (if s[0] == k then v else [s[0]]) + ReplaceChar(s[1..], k, v);
    }
  }

  lemma {:induction false} ReplaceCharConcat(a: string, b: string, k: char, v: string)
    ensures ReplaceChar(a + b, k, v) == ReplaceChar(a, k, v) + ReplaceChar(b, k, v)
  {
    if a != [] {
      var head := if a[0] == k then v else [a[0]];
      assert (a + b)[1..] == a[1..] + b;
      calc {
        ReplaceChar(a + b, k, v);
        head + ReplaceChar(a[1..] + b, k, v);
        { ReplaceCharConcat(a[1..], b, k, v); }
        head + (ReplaceChar(a[1..], k, v) + ReplaceChar(b, k, v));
        (head + ReplaceChar(a[1..], k, v)) + ReplaceChar(b, k, v);
      }
    } else {
      assert a + b == b;
    }
  }

  /** Characters at which `str.splitlines` ends a line. */
  predicate IsLineBreak(c: char) {
    c == '\n' || c == '\r' || c == '\U{0B}' || c == '\U{0C}' || c == '\U{1C}'
    || c == '\U{1D}' || c == '\U{1E}' || c == '\U{85}' || c == '\U{2028}' || c == '\U{2029}'
  }

  /** Index of the first line break of `s`, or `|s|` when there is none. */
  function FirstBreak(s: string): (i: nat)
    ensures i <= |s| && (i < |s| ==> IsLineBreak(s[i]))
    ensures forall j :: 0 <= j < i ==> !IsLineBreak(s[j])
  {
    if s == [] then 0 else if IsLineBreak(s[0]) then 0 else 1 + FirstBreak(s[1..])
  }

  /** `s.splitlines()`: lines without their terminators; "\r\n" is one terminator
      and a terminator at the very end does not open an empty last line. */
  function SplitLines(s: string): (r: seq<string>)
    ensures r == [] <==> s == []
    ensures forall l, c :: l in r && c in l ==> !IsLineBreak(c)
    decreases |s|
  {
    if s == [] then []
    else
      var e := FirstBreak(s);
      if e == |s| then [s]
      else
        var next := if s[e] == '\r' && e + 1 < |s| && s[e + 1] == '\n' then e + 2 else e + 1;
        [s[..e]] + SplitLines(s[next..])
  }

  /** What `splitlines` consumed after each line: a terminator ("\r\n"
      counting as one), or nothing after a last line that has none. */
  function LineEnds(s: string): (r: seq<string>)
    decreases |s|
  {
    if s == [] then []
    else
      var e := FirstBreak(s);
      if e == |s| then [""]
      else
        var next := if s[e] == '\r' && e + 1 < |s| && s[e + 1] == '\n' then e + 2 else e + 1;
        [s[e..next]] + LineEnds(s[next..])
  }

  /** A single line-break character, or "\r\n". */
  predicate IsTerminator(t: string) {
    (|t| == 1 && IsLineBreak(t[0])) || t == "\r\n"
  }

  /** Each line followed by what ends it. */
  function Interleave(lines: seq<string>, ends: seq<string>): string
    requires |lines| == |ends|
  {
    if lines == [] then [] else lines[0] + ends[0] + Interleave(lines[1..], ends[1..])
  }

  /** Every line but the last ends with a terminator, the last one with a
      terminator or nothing, a last line that ends with nothing is not empty
      (a terminator at the very end opens no further line), and a "\r" is
      never a line end when a "\n" follows it. */
  predicate WellEnded(lines: seq<string>, ends: seq<string>) {
    |ends| == |lines|
    && (forall i :: 0 <= i < |ends| - 1 ==> IsTerminator(ends[i]))
    && (ends != [] ==> IsTerminator(ends[|ends| - 1]) || ends[|ends| - 1] == [])
    && (ends != [] && ends[|ends| - 1] == [] ==> lines[|lines| - 1] != [])
    && (forall i :: 0 <= i < |ends| - 1 && ends[i] == "\r" ==> !(lines[i + 1] == [] && ends[i + 1] == "\n"))
  }

  /** The lines of `splitlines`, each followed by the terminator it consumed,
      give back the text, and they are well ended. */
  lemma {:induction false} SplitLinesReassemble(s: string)
    ensures WellEnded(SplitLines(s), LineEnds(s))
    ensures Interleave(SplitLines(s), LineEnds(s)) == s
    decreases |s|
  {
    if s != [] {
      if FirstBreak(s) == |s| {
        assert s + "" + [] == s;
      } else {
        var line, end, rest := FirstLine(s);
        SplitLinesReassemble(rest);
        if end == "\r" && rest != [] && SplitLines(rest)[0] == [] {
          FirstLineEnd(rest);
        }
        LineBefore(s, line, end, rest, SplitLines(rest), LineEnds(rest));
      }
    }
  }

  /** A text with a line break: its first line, the terminator after it, and
      what follows, where a "\r" terminator is not followed by "\n". */
  lemma FirstLine(s: string) returns (line: string, end: string, rest: string)
    requires FirstBreak(s) < |s|
    ensures |rest| < |s| && s == line + end + rest && IsTerminator(end)
    ensures SplitLines(s) == [line] + SplitLines(rest) && LineEnds(s) == [end] + LineEnds(rest)
    ensures end == "\r" && rest != [] ==> rest[0] != '\n'
  {
    var e := FirstBreak(s);
    var next := if s[e] == '\r' && e + 1 < |s| && s[e + 1] == '\n' then e + 2 else e + 1;
    line, end, rest := s[..e], s[e..next], s[next..];
    assert s == line + end + rest;
  }

  /** One more line in front of well-ended lines. */
  lemma LineBefore(s: string, line: string, end: string, rest: string, lines: seq<string>, ends: seq<string>)
    requires WellEnded(lines, ends) && Interleave(lines, ends) == rest && s == line + end + rest
    requires IsTerminator(end)
    requires end == "\r" && lines != [] ==> !(lines[0] == [] && ends[0] == "\n")
    ensures WellEnded([line] + lines, [end] + ends)
    ensures Interleave([line] + lines, [end] + ends) == s
  {
    assert ([line] + lines)[1..] == lines && ([end] + ends)[1..] == ends;
  }

  /** When the first line is empty, its end starts with the text's first character. */
  lemma FirstLineEnd(s: string)
    requires s != [] && SplitLines(s)[0] == []
    ensures LineEnds(s)[0][0] == s[0]
  {
    assert SplitLines(s)[0] == s[..FirstBreak(s)];
  }

  /** The part of `str.lower()` that can turn a character into an ASCII letter:
      A-Z and the Kelvin sign U+212A, whose lower case is `k`. */
  function LowerChar(c: char): char {
    if 'A' <= c <= 'Z' then (c as int + 32) as char
    else if c == '\U{212A}' then 'k'
    else c
  }

  /** `s.lower()` restricted to LowerChar: each of A-Z becomes its lower-case
      letter, the Kelvin sign becomes `k`, and every other character stays
      where it was. */
  function Lower(s: string): (r: string)
    ensures |r| == |s|
    ensures forall i :: 0 <= i < |s| && 'A' <= s[i] <= 'Z' ==> r[i] as int == s[i] as int + 32
    ensures forall i :: 0 <= i < |s| && s[i] == '\U{212A}' ==> r[i] == 'k'
    ensures forall c :: c in r ==> !('A' <= c <= 'Z') && c != '\U{212A}'
    ensures forall i :: 0 <= i < |s| && !('A' <= s[i] <= 'Z') && s[i] != '\U{212A}' ==> r[i] == s[i]
  {
    seq(|s|, i requires 0 <= i < |s| => LowerChar(s[i]))
  }

  /** Lowering twice is lowering once. */
  lemma LowerIdempotent(s: string)
    ensures Lower(Lower(s)) == Lower(s)
  {
    var r := Lower(s);
    assert forall c :: c in r ==> LowerChar(c) == c;
    LowerUnchanged(r);
  }

  /** Text with no upper-case letter (in the sense of LowerChar) is its own lower case. */
  lemma LowerUnchanged(s: string)
    requires forall c :: c in s ==> LowerChar(c) == c
    ensures Lower(s) == s
  {
  }

  function Digit(d: nat): char
    requires d < 10
  {
    ('0' as int + d) as char
  }

  /** `str(n)` for a natural number. */
  function NatToString(n: nat): (r: string)
    ensures |r| >= 1 && forall i :: 0 <= i < |r| ==> '0' <= r[i] <= '9'
  {
    if n < 10 then [Digit(n)] else NatToString(n / 10) + [Digit(n % 10)]
  }

  /** `int(s)` for a string of decimal digits, the inverse of NatToString. */
  function ParseNat(s: string): nat
    requires forall i :: 0 <= i < |s| ==> '0' <= s[i] <= '9'
  {
    if s == [] then 0 else 10 * ParseNat(s[..|s| - 1]) + (s[|s| - 1] as int - '0' as int)
  }

  lemma {:induction false} ParseNatToString(n: nat)
    ensures ParseNat(NatToString(n)) == n
  {
    if n >= 10 {
      var p, d := NatToString(n / 10), n % 10;
      ParseNatToString(n / 10);
      ParseNatSnoc(p, Digit(d));
      assert ParseNat(NatToString(n)) == 10 * (n / 10) + d;
    }
  }

  lemma ParseNatSnoc(p: string, c: char)
    requires forall i :: 0 <= i < |p| ==> '0' <= p[i] <= '9'
    requires '0' <= c <= '9'
    ensures ParseNat(p + [c]) == 10 * ParseNat(p) + (c as int - '0' as int)
  {
    assert (p + [c])[..|p|] == p;
  }

  /** Python's `a <= b` on strings: lexicographic by code point. */
  predicate LexLe(a: string, b: string) {
    a == [] || (b != [] && (a[0] < b[0] || (a[0] == b[0] && LexLe(a[1..], b[1..]))))
  }

  lemma {:induction false} LexLeReflexive(a: string)
    ensures LexLe(a, a)
  {
    if a != [] {
      LexLeReflexive(a[1..]);
    }
  }

  lemma {:induction false} LexLeTotal(a: string, b: string)
    ensures LexLe(a, b) || LexLe(b, a)
  {
    if a != [] && b != [] && a[0] == b[0] {
      LexLeTotal(a[1..], b[1..]);
    }
  }

  lemma {:induction false} LexLeAntisymmetric(a: string, b: string)
    requires LexLe(a, b) && LexLe(b, a)
    ensures a == b
  {
    if a != [] && b != [] {
      LexLeAntisymmetric(a[1..], b[1..]);
      assert a == [a[0]] + a[1..] && b == [b[0]] + b[1..];
    }
  }

  lemma {:induction false} LexLeTransitive(a: string, b: string, c: string)
    requires LexLe(a, b) && LexLe(b, c)
    ensures LexLe(a, c)
  {
    if a != [] && b != [] && c != [] && a[0] == b[0] && b[0] == c[0] {
      LexLeTransitive(a[1..], b[1..], c[1..]);
    }
  }
}
