/** `_sanitize_for_core_fonts`: what the renderer does to a text fragment before
    writing it with a built-in (Latin-1 only) font.  The source applies a fixed
    table of substitutions one entry after the other, then re-encodes the result
    as ISO/IEC 8859-1 with the `'replace'` error handler. */
module CoreFonts {
  import opened PyText
  import opened Wrappers

  /** The substitution table, in the source's dictionary order. */
  const Replacements: seq<(char, string)> := [
    ('\U{2014}', "-"),    // em dash
    ('\U{2013}', "-"),    // en dash
    ('\U{2026}', "..."),  // horizontal ellipsis
    ('\U{201C}', "\""),   // left double quotation mark
    ('\U{201D}', "\""),   // right double quotation mark
    ('\U{2018}', "'"),    // left single quotation mark
    ('\U{2019}', "'"),    // right single quotation mark
    ('\U{A0}', " "),      // no-break space
    ('\U{200B}', "")      // zero width space
  ]

  /** The characters the table rewrites. */
  predicate IsReplaced(c: char) {
    c == '\U{2014}' || c == '\U{2013}' || c == '\U{2026}' || c == '\U{201C}' || c == '\U{201D}'
    || c == '\U{2018}' || c == '\U{2019}' || c == '\U{A0}' || c == '\U{200B}'
  }

  predicate IsLatin1(c: char) {
    c as int <= 0xFF
  }

  /** Applying the first `|t|` table entries in order, each as a `str.replace`. */
  function ApplyTable(t: seq<(char, string)>, s: string): string {
    if t == [] then s else ReplaceChar(ApplyTable(t[..|t| - 1], s), t[|t| - 1].0, t[|t| - 1].1)
  }

  /** `s.encode('latin-1', 'replace').decode('latin-1')`: every code point above
      U+00FF becomes one `?`, every other one is kept. */
  function ToLatin1(s: string): (r: string)
    ensures |r| == |s|
  {
    seq(|s|, i requires 0 <= i < |s| => if IsLatin1(s[i]) then s[i] else '?')
  }

  /** Reference definition, one character at a time: what the sanitiser turns a
      single character into. */
  function SanitizeChar(c: char): string {
    if c == '\U{2014}' || c == '\U{2013}' then "-"
    else if c == '\U{2026}' then "..."
    else if c == '\U{201C}' || c == '\U{201D}' then "\""
    else if c == '\U{2018}' || c == '\U{2019}' then "'"
    else if c == '\U{A0}' then " "
    else if c == '\U{200B}' then ""
    else if IsLatin1(c) then [c]
    else "?"
  }

  /** The sanitised text: the concatenation of SanitizeChar over the input.
      Nothing outside Latin-1 and nothing the table rewrites survives. */
  function Sanitize(s: string): (r: string)
    ensures forall c :: c in r ==> IsLatin1(c) && !IsReplaced(c)
  {
    if s == [] then [] else SanitizeChar(s[0]) + Sanitize(s[1..])
  }

  /** The table-driven loop of the source; proved to compute Sanitize. */
  method SanitizeForCoreFonts(s: string) returns (r: string)
    ensures r == Sanitize(s)
  {
    var cur := s;
    var i := 0;
    while i < |Replacements|
      invariant 0 <= i <= |Replacements|
      invariant cur == ApplyTable(Replacements[..i], s)
    {
      var (k, v) := Replacements[i];
      assert Replacements[..i + 1][..i] == Replacements[..i];
      cur := ReplaceChar(cur, k, v);
      i := i + 1;
    }
    assert Replacements[..|Replacements|] == Replacements;
    r := ToLatin1(cur);
    TableMatchesReference(s);
  }

  // ---- The table, applied to a whole string, acts character by character ----

  lemma {:induction false} ApplyTableConcat(t: seq<(char, string)>, a: string, b: string)
    ensures ApplyTable(t, a + b) == ApplyTable(t, a) + ApplyTable(t, b)
  {
    if t != [] {
      var k, v := t[|t| - 1].0, t[|t| - 1].1;
      ApplyTableConcat(t[..|t| - 1], a, b);
      ReplaceCharConcat(ApplyTable(t[..|t| - 1], a), ApplyTable(t[..|t| - 1], b), k, v);
    }
  }

  lemma ToLatin1Concat(a: string, b: string)
    ensures ToLatin1(a + b) == ToLatin1(a) + ToLatin1(b)
  {
  }

  /** The value of the first entry of `t` for `c`, if any. */
  function FirstValue(t: seq<(char, string)>, c: char): (r: Option<string>)
    ensures r.Some? ==> exists j :: 0 <= j < |t| && t[j] == (c, r.value)
  {
    if t == [] then None
    else
      var r := FirstValue(t[..|t| - 1], c);
      if r.Some? then r else if t[|t| - 1].0 == c then Some(t[|t| - 1].1) else None
  }

  /** Keys outside ASCII and values inside it: no entry can rewrite what an
      earlier entry produced. */
  predicate Separated(t: seq<(char, string)>) {
    forall j :: 0 <= j < |t| ==> t[j].0 >= '\U{80}' && forall ch :: ch in t[j].1 ==> ch < '\U{80}'
  }

  lemma ReplaceCharSingle(c: char, k: char, v: string)
    ensures ReplaceChar([c], k, v) == if c == k then v else [c]
  {
    assert [c][1..] == [];
  }

  /** On a single character the whole table acts as a lookup. */
  lemma {:induction false} ApplyTableOnChar(t: seq<(char, string)>, c: char)
    requires Separated(t)
    ensures ApplyTable(t, [c]) == if FirstValue(t, c).Some? then FirstValue(t, c).value else [c]
  {
    if t != [] {
      var t', k, v := t[..|t| - 1], t[|t| - 1].0, t[|t| - 1].1;
      assert Separated(t') by {
        assert forall j :: 0 <= j < |t'| ==> t'[j] == t[j];
      }
      ApplyTableOnChar(t', c);
      var r := FirstValue(t', c);
      if r.Some? {
        var j :| 0 <= j < |t'| && t'[j] == (c, r.value);
        assert t[j] == t'[j];
        assert k !in r.value by {
          assert k >= '\U{80}';
        }
      } else {
        ReplaceCharSingle(c, k, v);
      }
    }
  }

  function ReferenceValue(c: char): Option<string> {
    if c == '\U{2014}' || c == '\U{2013}' then Some("-")
    else if c == '\U{2026}' then Some("...")
    else if c == '\U{201C}' || c == '\U{201D}' then Some("\"")
    else if c == '\U{2018}' || c == '\U{2019}' then Some("'")
    else if c == '\U{A0}' then Some(" ")
    else if c == '\U{200B}' then Some("")
    else None
  }

  /** The lookup over the first five entries (the dashes, the ellipsis and the
      double quotes). */
  lemma FirstFiveEntries(c: char)
    ensures FirstValue(Replacements[..5], c)
        == (if c == '\U{2014}' then Some("-")
        else if c == '\U{2013}' then Some("-")
        else if c == '\U{2026}' then Some("...")
        else if c == '\U{201C}' then Some("\"")
        else if c == '\U{201D}' then Some("\"")
        else None)
  {
    var t := Replacements;
    assert FirstValue(t[..1], c)
        == (if c == '\U{2014}' then Some("-")
        else None) by {
      assert t[..1][..0] == t[..0];
    }
    assert FirstValue(t[..2], c)
        == (if c == '\U{2014}' then Some("-")
        else if c == '\U{2013}' then Some("-")
        else None) by {
      assert t[..2][..1] == t[..1];
    }
    assert FirstValue(t[..3], c)
        == (if c == '\U{2014}' then Some("-")
        else if c == '\U{2013}' then Some("-")
        else if c == '\U{2026}' then Some("...")
        else None) by {
      assert t[..3][..2] == t[..2];
    }
    assert FirstValue(t[..4], c)
        == (if c == '\U{2014}' then Some("-")
        else if c == '\U{2013}' then Some("-")
        else if c == '\U{2026}' then Some("...")
        else if c == '\U{201C}' then Some("\"")
        else None) by {
      assert t[..4][..3] == t[..3];
    }
    assert t[..5][..4] == t[..4];
  }

  lemma FirstValueOfTable(c: char)
    ensures FirstValue(Replacements, c) == ReferenceValue(c)
  {
    var t := Replacements;
    FirstFiveEntries(c);
    assert FirstValue(t[..6], c)
        == (if c == '\U{2014}' then Some("-")
        else if c == '\U{2013}' then Some("-")
        else if c == '\U{2026}' then Some("...")
        else if c == '\U{201C}' then Some("\"")
        else if c == '\U{201D}' then Some("\"")
        else if c == '\U{2018}' then Some("'")
        else None) by {
      assert t[..6][..5] == t[..5];
    }
    assert FirstValue(t[..7], c)
        == (if c == '\U{2014}' then Some("-")
        else if c == '\U{2013}' then Some("-")
        else if c == '\U{2026}' then Some("...")
        else if c == '\U{201C}' then Some("\"")
        else if c == '\U{201D}' then Some("\"")
        else if c == '\U{2018}' then Some("'")
        else if c == '\U{2019}' then Some("'")
        else None) by {
      assert t[..7][..6] == t[..6];
    }
    assert FirstValue(t[..8], c)
        == (if c == '\U{2014}' then Some("-")
        else if c == '\U{2013}' then Some("-")
        else if c == '\U{2026}' then Some("...")
        else if c == '\U{201C}' then Some("\"")
        else if c == '\U{201D}' then Some("\"")
        else if c == '\U{2018}' then Some("'")
        else if c == '\U{2019}' then Some("'")
        else if c == '\U{A0}' then Some(" ")
        else None) by {
      assert t[..8][..7] == t[..7];
    }
    assert FirstValue(t[..9], c)
        == (if c == '\U{2014}' then Some("-")
        else if c == '\U{2013}' then Some("-")
        else if c == '\U{2026}' then Some("...")
        else if c == '\U{201C}' then Some("\"")
        else if c == '\U{201D}' then Some("\"")
        else if c == '\U{2018}' then Some("'")
        else if c == '\U{2019}' then Some("'")
        else if c == '\U{A0}' then Some(" ")
        else if c == '\U{200B}' then Some("")
        else None) by {
      assert t[..9][..8] == t[..8];
    }
    assert t[..9] == t;
  }

  lemma ReplacementsSeparated()
    ensures Separated(Replacements)
  {
  }

  /** The Latin-1 step keeps every replacement and every Latin-1 character and
      turns the rest into `?`. */
  lemma ReferenceToLatin1(c: char)
    ensures ToLatin1(if ReferenceValue(c).Some? then ReferenceValue(c).value else [c]) == SanitizeChar(c)
  {
    if ReferenceValue(c).None? {
      assert ToLatin1([c]) == if IsLatin1(c) then [c] else "?";
    } else {
      var v := ReferenceValue(c).value;
      assert forall i :: 0 <= i < |v| ==> IsLatin1(v[i]);
      assert ToLatin1(v) == v;
    }
  }

  lemma TableOnChar(c: char)
    ensures ToLatin1(ApplyTable(Replacements, [c])) == SanitizeChar(c)
  {
    ReplacementsSeparated();
    ApplyTableOnChar(Replacements, c);
    FirstValueOfTable(c);
    ReferenceToLatin1(c);
  }

  lemma {:induction false} ApplyTableEmpty(t: seq<(char, string)>)
    ensures ApplyTable(t, []) == []
  {
    if t != [] {
      ApplyTableEmpty(t[..|t| - 1]);
    }
  }

  lemma {:induction false} TableMatchesReference(s: string)
    ensures ToLatin1(ApplyTable(Replacements, s)) == Sanitize(s)
  {
    if s != [] {
      var a, b := ApplyTable(Replacements, [s[0]]), ApplyTable(Replacements, s[1..]);
      calc {
        ToLatin1(ApplyTable(Replacements, s));
        { assert s == [s[0]] + s[1..]; ApplyTableConcat(Replacements, [s[0]], s[1..]); }
        ToLatin1(a + b);
        { ToLatin1Concat(a, b); }
        ToLatin1(a) + ToLatin1(b);
        { TableOnChar(s[0]); TableMatchesReference(s[1..]); }
        SanitizeChar(s[0]) + Sanitize(s[1..]);
      }
    } else {
      ApplyTableEmpty(Replacements);
    }
  }

  // ---- What the sanitiser promises ----

  /** On text without any character from the table, every Latin-1 character is
      kept and every other character becomes exactly one `?`. */
  lemma {:induction false} SanitizeOutsideTable(s: string)
    requires forall c :: c in s ==> !IsReplaced(c)
    ensures |Sanitize(s)| == |s|
    ensures forall i :: 0 <= i < |s| ==> Sanitize(s)[i] == if IsLatin1(s[i]) then s[i] else '?'
  {
    if s != [] {
      SanitizeOutsideTable(s[1..]);
      assert s[0] in s;
      assert forall i :: 1 <= i < |s| ==> Sanitize(s)[i] == Sanitize(s[1..])[i - 1];
    }
  }

  /** A sanitised text is left as it is by a second pass. */
  lemma SanitizeIdempotent(s: string)
    ensures Sanitize(Sanitize(s)) == Sanitize(s)
  {
    var r := Sanitize(s);
    SanitizeOutsideTable(r);
  }

  /** The text is already fit for a core font exactly when sanitising leaves it
      unchanged. */
  lemma SanitizeFixpoint(s: string)
    ensures Sanitize(s) == s <==> forall c :: c in s ==> IsLatin1(c) && !IsReplaced(c)
  {
    if forall c :: c in s ==> IsLatin1(c) && !IsReplaced(c) {
      SanitizeOutsideTable(s);
    }
  }
}
