/** File-name handling: `Path.stem` / `Path.suffix` of a final path component,
    and `clean_filename`, which derives the base name of the three artifacts. */
module FileNames {
  import opened PyText

  /** `name.rfind('.')`: the last dot, or -1. */
  function LastDot(name: string): (i: int)
    ensures -1 <= i < |name|
    ensures i >= 0 ==> name[i] == '.'
    ensures forall j :: i < j < |name| ==> name[j] != '.'
  {
    if name == [] then -1
    else if name[|name| - 1] == '.' then |name| - 1
    else LastDot(name[..|name| - 1])
  }

  /** A dot that starts a suffix: not the first character, not the last. */
  predicate HasSuffix(name: string) {
    0 < LastDot(name) < |name| - 1
  }

  /** `Path(name).suffix` */
  function Suffix(name: string): string {
    if HasSuffix(name) then name[LastDot(name)..] else ""
  }

  /** `Path(name).stem` */
  function Stem(name: string): string {
    if HasSuffix(name) then name[..LastDot(name)] else name
  }

  /** A name is its stem followed by its suffix; a non-empty suffix is a dot
      followed by at least one dot-free character, and comes after a non-empty stem. */
  lemma StemSuffix(name: string)
    ensures Stem(name) + Suffix(name) == name
    ensures Suffix(name) != [] ==>
      |Suffix(name)| >= 2 && Suffix(name)[0] == '.' && '.' !in Suffix(name)[1..] && Stem(name) != []
  {
  }

  /** Joining a non-empty stem and a dot-led, dot-free extension gives back both. */
  lemma {:induction false} SuffixOfJoin(stem: string, ext: string)
    requires stem != [] && |ext| >= 2 && ext[0] == '.' && '.' !in ext[1..]
    ensures LastDot(stem + ext) == |stem|
    ensures Suffix(stem + ext) == ext && Stem(stem + ext) == stem
  {
    var n := stem + ext;
    LastDotAfter(n, |stem|);
    assert n[..|stem|] == stem && n[|stem|..] == ext;
  }

  lemma {:induction false} LastDotAfter(n: string, k: nat)
    requires k < |n| && n[k] == '.' && forall j :: k < j < |n| ==> n[j] != '.'
    ensures LastDot(n) == k
  {
    if k < |n| - 1 {
      LastDotAfter(n[..|n| - 1], k);
    }
  }

  /** `str.isalnum` is left to the caller; all the model relies on is that a
      space is not alphanumeric and an alphanumeric character is not white space. */
  predicate AlnumOracle(isAlnum: char -> bool) {
    !isAlnum(' ') && forall c :: isAlnum(c) ==> !IsSpace(c)
  }

  /** A character the filter of `clean_filename` keeps. */
  predicate Kept(isAlnum: char -> bool, c: char) {
    isAlnum(c) || c == ' ' || c == '-' || c == '_' || c == '.'
  }

  /** `"".join(ch for ch in name if ch.isalnum() or ch in (" ", "-", "_", "."))` */
  function KeepSafe(isAlnum: char -> bool, name: string): (r: string)
    ensures |r| <= |name|
    ensures forall c :: c in r ==> Kept(isAlnum, c)
  {
    if name == [] then []
    else (if Kept(isAlnum, name[0]) then [name[0]] else []) + KeepSafe(isAlnum, name[1..])
  }

  /** `clean_filename(name)`: filter, strip, then one underscore per space. */
  function CleanFilename(isAlnum: char -> bool, name: string): string {
    ReplaceChar(Strip(KeepSafe(isAlnum, name)), ' ', "_")
  }

  lemma {:induction false} ReplaceSpaceShape(s: string)
    ensures |ReplaceChar(s, ' ', "_")| == |s|
    ensures forall i :: 0 <= i < |s| ==> ReplaceChar(s, ' ', "_")[i] == if s[i] == ' ' then '_' else s[i]
  {
    if s != [] {
      ReplaceSpaceShape(s[1..]);
    }
  }

  /** What strip leaves is a slice of its input. */
  lemma StripSlice(k: string)
    ensures forall c :: c in Strip(k) ==> c in k
  {
    var l := StripLeft(k);
    assert forall c :: c in StripRight(l) ==> c in l;
    assert forall c :: c in l ==> c in k;
  }

  /** Every character of a cleaned name is alphanumeric or one of `-`, `_`, `.`;
      no space is left; each space that survives the strip became exactly one
      underscore, so the result is never longer than the input. */
  lemma CleanFilenameShape(isAlnum: char -> bool, name: string)
    ensures var r := CleanFilename(isAlnum, name);
      |r| == |Strip(KeepSafe(isAlnum, name))| <= |name|
      && ' ' !in r
      && forall c :: c in r ==> isAlnum(c) || c == '-' || c == '_' || c == '.'
  {
    var k := KeepSafe(isAlnum, name);
    var s := Strip(k);
    var r := ReplaceChar(s, ' ', "_");
    StripSlice(k);
    ReplaceSpaceShape(s);
    forall c | c in r
      ensures c != ' ' && (isAlnum(c) || c == '-' || c == '_' || c == '.')
    {
      var i :| 0 <= i < |r| && r[i] == c;
      assert s[i] in k;
    }
  }

  /** Cleaning a cleaned name changes nothing. */
  lemma CleanFilenameIdempotent(isAlnum: char -> bool, name: string)
    requires AlnumOracle(isAlnum)
    ensures CleanFilename(isAlnum, CleanFilename(isAlnum, name)) == CleanFilename(isAlnum, name)
  {
    var r := CleanFilename(isAlnum, name);
    CleanFilenameShape(isAlnum, name);
    assert forall c :: c in r ==> !IsSpace(c) by {
      forall c | c in r
        ensures !IsSpace(c)
      {
        if isAlnum(c) {
          assert !IsSpace(c);
        }
      }
    }
    calc {
      CleanFilename(isAlnum, r);
      ReplaceChar(Strip(KeepSafe(isAlnum, r)), ' ', "_");
      { KeepSafeKeepsSafe(isAlnum, r); }
      ReplaceChar(Strip(r), ' ', "_");
      { StripNothing(r); }
      ReplaceChar(r, ' ', "_");
      r;
    }
  }

  lemma {:induction false} KeepSafeKeepsSafe(isAlnum: char -> bool, s: string)
    requires forall c :: c in s ==> Kept(isAlnum, c)
    ensures KeepSafe(isAlnum, s) == s
  {
    if s != [] {
      assert s[0] in s;
      KeepSafeKeepsSafe(isAlnum, s[1..]);
      assert s == [s[0]] + s[1..];
    }
  }

  lemma StripNothing(s: string)
    requires forall c :: c in s ==> !IsSpace(c)
    ensures Strip(s) == s
  {
    if s != [] {
      assert s[0] in s && s[|s| - 1] in s;
    }
  }
}
