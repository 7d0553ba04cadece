/** `_find_unicode_font_paths` and the override of its result by fonts the
    caller names: a first-match search over fixed (regular, bold) file-name
    pairs, first in the `fonts` folder beside the program, then in the Windows
    font folder.  The file system enters only through `exists`. */
module Fonts {
  import opened Wrappers

  type Path = seq<string>

  /** Candidate (regular, bold) pairs looked for beside the program. */
  const LocalPairs: seq<(string, string)> := [
    ("DejaVuSans.ttf", "DejaVuSans-Bold.ttf"),
    ("NotoSans-Regular.ttf", "NotoSans-Bold.ttf"),
    ("Inter-Regular.ttf", "Inter-Bold.ttf")
  ]

  /** Candidate pairs looked for in the Windows font folder. */
  const WindowsPairs: seq<(string, string)> := [
    ("segoeui.ttf", "segoeuib.ttf"),
    ("arial.ttf", "arialbd.ttf"),
    ("calibri.ttf", "calibrib.ttf"),
    ("times.ttf", "timesbd.ttf")
  ]

  /** `Path("C:/Windows/Fonts")`, fixed whatever the platform. */
  const WindowsFontDir: Path := ["C:", "Windows", "Fonts"]

  datatype FontPair = FontPair(regular: Option<Path>, bold: Option<Path>)

  /** The first pair of `pairs` whose regular file exists in `dir`, with its
      bold file only when that exists too. */
  function FirstPair(dir: Path, pairs: seq<(string, string)>, exists_: Path -> bool): (r: FontPair)
    ensures r.regular.None? ==> r.bold.None?
    ensures r.regular.None? <==> forall i :: 0 <= i < |pairs| ==> !exists_(dir + [pairs[i].0])
    ensures r.regular.Some? ==>
              exists i :: FirstMatch(dir, pairs, exists_, i) && r == PairAt(dir, pairs, exists_, i)
  {
    if pairs == [] then FontPair(None, None)
    else if exists_(dir + [pairs[0].0]) then
      assert FirstMatch(dir, pairs, exists_, 0);
      PairAt(dir, pairs, exists_, 0)
    else
      var r := FirstPair(dir, pairs[1..], exists_);
      assert forall i :: FirstMatch(dir, pairs[1..], exists_, i) ==>
        FirstMatch(dir, pairs, exists_, i + 1) && PairAt(dir, pairs[1..], exists_, i) == PairAt(dir, pairs, exists_, i + 1);
      r
  }

  /** Pair `i` of `pairs` in `dir`, its bold file only when that exists. */
  function PairAt(dir: Path, pairs: seq<(string, string)>, exists_: Path -> bool, i: nat): FontPair
    requires i < |pairs|
  {
    FontPair(Some(dir + [pairs[i].0]), if exists_(dir + [pairs[i].1]) then Some(dir + [pairs[i].1]) else None)
  }

  /** Index `i` holds the first pair whose regular file exists. */
  predicate FirstMatch(dir: Path, pairs: seq<(string, string)>, exists_: Path -> bool, i: int) {
    0 <= i < |pairs| && exists_(dir + [pairs[i].0])
    && forall j :: 0 <= j < i ==> !exists_(dir + [pairs[j].0])
  }

  /** `_find_unicode_font_paths()`: the local folder first; the Windows folder
      only if nothing local matched and that folder exists. */
  function FindUnicodeFontPaths(fontsDir: Path, exists_: Path -> bool): (r: FontPair)
    ensures r.regular.None? ==> r.bold.None?
    ensures r.bold.Some? ==> exists_(r.bold.value)
    ensures r.regular.Some? ==> exists_(r.regular.value)
  {
    var local := FirstPair(fontsDir, LocalPairs, exists_);
    if local.regular.Some? then local
    else if exists_(WindowsFontDir) then FirstPair(WindowsFontDir, WindowsPairs, exists_)
    else FontPair(None, None)
  }

  /** Where the search finds its regular font: a local pair whenever one has its
      regular file, a Windows pair only when no local pair does and the Windows
      folder exists, and nothing otherwise. */
  lemma SearchOrder(fontsDir: Path, exists_: Path -> bool)
    ensures var r := FindUnicodeFontPaths(fontsDir, exists_);
      var localHit := exists i :: 0 <= i < |LocalPairs| && exists_(fontsDir + [LocalPairs[i].0]);
      var windowsHit := exists i :: 0 <= i < |WindowsPairs| && exists_(WindowsFontDir + [WindowsPairs[i].0]);
      (localHit ==> r == FirstPair(fontsDir, LocalPairs, exists_))
      && (!localHit && exists_(WindowsFontDir) ==> r == FirstPair(WindowsFontDir, WindowsPairs, exists_))
      && (r.regular.None? <==> !localHit && (!exists_(WindowsFontDir) || !windowsHit))
  {
  }

  /** The override at the top of `to_pdf`: a font the caller names replaces the
      one found (an empty name counts as none, and is given as None). */
  function ChooseFonts(fontRegular: Option<Path>, fontBold: Option<Path>, found: FontPair): FontPair {
    FontPair(if fontRegular.Some? then fontRegular else found.regular,
             if fontBold.Some? then fontBold else found.bold)
  }
}
