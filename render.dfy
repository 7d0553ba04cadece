/** `to_pdf`: how a transcript becomes a PDF.  The FPDF document is modelled by
    the sequence of drawing operations issued on it; which font is used, which
    fragments go through the core-font sanitiser, the optional header block and
    the treatment of blank lines are what the model pins down. */
module Render {
  import opened Wrappers
  import opened PyText
  import opened CoreFonts
  import opened Fonts

  /** The font families `to_pdf` uses: "U", the TrueType font it registers, and
      "Helvetica", the built-in core font; and the styles "" and "B". */
  datatype Family = U | Helvetica
  datatype Style = Regular | Bold

  datatype Font = Font(family: Family, style: Style, size: nat)

  /** One call on the FPDF object. */
  datatype PdfOp =
    | PageBreakOp(auto: bool, margin: nat)
    | PageOp
    | FontFileOp(family: Family, style: Style, file: Path)
    | FontOp(font: Font)
    | CellOp(w: nat, h: nat, text: string, ln: bool)
    | BlockOp(w: nat, h: nat, text: string)
    | GapOp(h: nat)

  /** What `pdf.output(path)` does: the file is written, or the call raises. */
  datatype Written = Written | WriteFailed(message: string)

  /** The surroundings of one rendering: the `fonts` folder beside the program,
      which paths exist, which TTF files FPDF manages to register, the clock
      reading of the "Generated" line, and the outcome of writing each path. */
  datatype RenderEnv = RenderEnv(
    fontsDir: Path,
    exists_: Path -> bool,
    registers: Path -> bool,
    now: string,
    output: Path -> Written)

  /** The FPDF document: its operations so far. */
  class Pdf {
    var ops: seq<PdfOp>

    constructor ()
      ensures ops == []
    {
      ops := [];
    }

    method SetAutoPageBreak(auto: bool, margin: nat)
      modifies this
      ensures ops == old(ops) + [PageBreakOp(auto, margin)]
    {
      ops := ops + [PageBreakOp(auto, margin)];
    }

    method AddPage()
      modifies this
      ensures ops == old(ops) + [PageOp]
    {
      ops := ops + [PageOp];
    }

    /** `add_font`, which raises (ok is false, nothing is registered) when
        the file cannot be loaded. */
    method AddFont(family: Family, style: Style, file: Path, registers: Path -> bool) returns (ok: bool)
      modifies this
      ensures ok == registers(file)
      ensures ops == if ok then old(ops) + [FontFileOp(family, style, file)] else old(ops)
    {
      ok := registers(file);
      if ok {
        ops := ops + [FontFileOp(family, style, file)];
      }
    }

    method SetFont(f: Font)
      modifies this
      ensures ops == old(ops) + [FontOp(f)]
    {
      ops := ops + [FontOp(f)];
    }

    method Cell(w: nat, h: nat, text: string, ln: bool)
      modifies this
      ensures ops == old(ops) + [CellOp(w, h, text, ln)]
    {
      ops := ops + [CellOp(w, h, text, ln)];
    }

    method MultiCell(w: nat, h: nat, text: string)
      modifies this
      ensures ops == old(ops) + [BlockOp(w, h, text)]
    {
      ops := ops + [BlockOp(w, h, text)];
    }

    method Ln(h: nat)
      modifies this
      ensures ops == old(ops) + [GapOp(h)]
    {
      ops := ops + [GapOp(h)];
    }
  }

  // ---- Font choice ----

  datatype FontSet = FontSet(header: Font, body: Font, meta: Font)

  const CoreFontSet := FontSet(Font(Helvetica, Bold, 16), Font(Helvetica, Regular, 12), Font(Helvetica, Regular, 10))

  function UnicodeFontSet(bold: bool): FontSet {
    FontSet(Font(U, if bold then Bold else Regular, 16), Font(U, Regular, 12), Font(U, Regular, 10))
  }

  /** `'Helvetica' in font[0]`: the built-in font, which needs sanitised text. */
  predicate IsCore(f: Font) {
    f.family == Helvetica
  }

  /** The regular and bold fonts `to_pdf` tries: the caller's, else the search's. */
  function Chosen(fontRegular: Option<Path>, fontBold: Option<Path>, env: RenderEnv): FontPair {
    ChooseFonts(fontRegular, fontBold, FindUnicodeFontPaths(env.fontsDir, env.exists_))
  }

  /** The bold font is registered only when one is chosen and its file exists. */
  predicate BoldTried(chosen: FontPair, env: RenderEnv) {
    chosen.bold.Some? && env.exists_(chosen.bold.value)
  }

  /** Core mode: no regular font, or one of the `add_font` calls raised. */
  predicate UsingCore(chosen: FontPair, env: RenderEnv) {
    chosen.regular.None? || !env.registers(chosen.regular.value)
    || (BoldTried(chosen, env) && !env.registers(chosen.bold.value))
  }

  /** The `add_font` calls that succeed, in order. */
  function FontOps(chosen: FontPair, env: RenderEnv): seq<PdfOp> {
    if chosen.regular.None? || !env.registers(chosen.regular.value) then []
    else [FontFileOp(U, Regular, chosen.regular.value)]
         + if BoldTried(chosen, env) && env.registers(chosen.bold.value) then [FontFileOp(U, Bold, chosen.bold.value)] else []
  }

  function FontsUsed(chosen: FontPair, env: RenderEnv): FontSet {
    if UsingCore(chosen, env) then CoreFontSet else UnicodeFontSet(BoldTried(chosen, env))
  }

  // ---- The operations of one rendering ----

  /** Sanitised when written in a core font, as is otherwise. */
  function Fit(f: Font, s: string): string {
    if IsCore(f) then Sanitize(s) else s
  }

  /** `title.replace("—", "-").replace("–", "-")` */
  function TitleDashes(title: string): string {
    ReplaceChar(ReplaceChar(title, '\U{2014}', "-"), '\U{2013}', "-")
  }

  /** The title keeps no em dash and no en dash, and a title with neither is
      left as it is. */
  lemma TitleDashesClean(title: string)
    ensures '\U{2014}' !in TitleDashes(title) && '\U{2013}' !in TitleDashes(title)
    ensures '\U{2014}' !in title && '\U{2013}' !in title ==> TitleDashes(title) == title
  {
    var once := ReplaceChar(title, '\U{2014}', "-");
    assert '\U{2014}' !in once;
    ReplaceCharFrom(once, '\U{2013}', "-");
  }

  /** `meta and "info" in meta` */
  predicate HasInfo(meta: Option<map<string, string>>) {
    meta.Some? && "info" in meta.value
  }

  /** Title, "Generated" line, optional "Info" line, then a gap. */
  function HeaderOps(title: string, meta: Option<map<string, string>>, fs: FontSet, now: string): seq<PdfOp> {
    [FontOp(fs.header), CellOp(0, 10, Fit(fs.header, TitleDashes(title)), true),
     FontOp(fs.meta), CellOp(0, 8, Fit(fs.meta, "Generated: " + now), true)]
    + (if HasInfo(meta) then [BlockOp(0, 6, "Info: " + Fit(fs.meta, meta.value["info"]))] else [])
    + [GapOp(3)]
  }

  /** One body line: a gap when it is blank once fitted to the font, else a text block. */
  function LineOp(body: Font, line: string): PdfOp {
    var out := Fit(body, line);
    if IsBlank(out) then GapOp(4) else BlockOp(0, 6, out)
  }

  function BodyOps(body: Font, lines: seq<string>): seq<PdfOp> {
    if lines == [] then [] else BodyOps(body, lines[..|lines| - 1]) + [LineOp(body, lines[|lines| - 1])]
  }

  /** Everything `to_pdf` issues on the document, in order, once the fonts to
      try are resolved and the text is cut into lines. */
  function RenderOps(lines: seq<string>, title: string, meta: Option<map<string, string>>,
                     chosen: FontPair, minimal: bool, env: RenderEnv): seq<PdfOp>
  {
    var fs := FontsUsed(chosen, env);
    [PageBreakOp(true, 15), PageOp] + FontOps(chosen, env)
    + (if minimal then [] else HeaderOps(title, meta, fs, env.now))
    + [FontOp(fs.body)] + BodyOps(fs.body, lines)
  }

  /** What `to_pdf(text, pdf_path, title, meta, font_regular, font_bold, minimal)`
      leaves behind: the document written to `pdfPath`, or the message of the
      exception writing it raised. */
  function PdfResult(text: string, pdfPath: Path, title: string, meta: Option<map<string, string>>,
                     fontRegular: Option<Path>, fontBold: Option<Path>, minimal: bool, env: RenderEnv)
    : Result<seq<PdfOp>, string>
  {
    match env.output(pdfPath)
    case Written => Success(RenderOps(SplitLines(text), title, meta, Chosen(fontRegular, fontBold, env), minimal, env))
    case WriteFailed(m) => Failure(m)
  }

  /** `to_pdf`: builds the document operation by operation, then writes it. */
  method ToPdf(text: string, pdfPath: Path, title: string, meta: Option<map<string, string>>,
               fontRegular: Option<Path>, fontBold: Option<Path>, minimal: bool, env: RenderEnv)
    returns (r: Result<seq<PdfOp>, string>)
    ensures r == PdfResult(text, pdfPath, title, meta, fontRegular, fontBold, minimal, env)
  {
    var pdf := new Pdf();
    pdf.SetAutoPageBreak(true, 15);
    pdf.AddPage();

    var found := FindUnicodeFontPaths(env.fontsDir, env.exists_);
    var chosen := ChooseFonts(fontRegular, fontBold, found);
    var fs := RegisterFonts(pdf, chosen, env);
    ghost var setup := pdf.ops;
    assert setup == [PageBreakOp(true, 15), PageOp] + FontOps(chosen, env);

    if !minimal {
      WriteHeader(pdf, title, meta, fs, env.now);
    }
    ghost var header := if minimal then [] else HeaderOps(title, meta, fs, env.now);
    assert pdf.ops == setup + header;

    pdf.SetFont(fs.body);
    var lines := SplitLines(text);
    WriteBody(pdf, fs.body, lines);
    assert pdf.ops == setup + header + [FontOp(fs.body)] + BodyOps(fs.body, lines);

    match env.output(pdfPath)
    case Written => r := Success(pdf.ops);
    case WriteFailed(m) => r := Failure(m);
  }

  /** The `try` block of `to_pdf`: registers the regular font, then the bold one
      when its file exists; any `add_font` that raises switches to the core fonts. */
  method RegisterFonts(pdf: Pdf, chosen: FontPair, env: RenderEnv) returns (fs: FontSet)
    modifies pdf
    ensures pdf.ops == old(pdf.ops) + FontOps(chosen, env)
    ensures fs == FontsUsed(chosen, env)
  {
    var usingCore := false;
    fs := UnicodeFontSet(false);
    if chosen.regular.Some? {
      var ok := pdf.AddFont(U, Regular, chosen.regular.value, env.registers);
      if ok {
        if chosen.bold.Some? && env.exists_(chosen.bold.value) {
          var okBold := pdf.AddFont(U, Bold, chosen.bold.value, env.registers);
          if okBold {
            fs := UnicodeFontSet(true);
          } else {
            usingCore := true;
          }
        }
      } else {
        usingCore := true;
      }
    } else {
      usingCore := true;
    }
    if usingCore {
      fs := CoreFontSet;
    }
  }

  /** The header of a non-minimal document: title, "Generated" line, optional
      "Info" line, each sanitised when its font is a core one. */
  method WriteHeader(pdf: Pdf, title: string, meta: Option<map<string, string>>, fs: FontSet, now: string)
    modifies pdf
    ensures pdf.ops == old(pdf.ops) + HeaderOps(title, meta, fs, now)
  {
    ghost var start := pdf.ops;
    pdf.SetFont(fs.header);
    var titleSafe := FitText(fs.header, TitleDashes(title));
    pdf.Cell(0, 10, titleSafe, true);

    pdf.SetFont(fs.meta);
    var genLine := FitText(fs.meta, "Generated: " + now);
    pdf.Cell(0, 8, genLine, true);
    ghost var top := [FontOp(fs.header), CellOp(0, 10, titleSafe, true), FontOp(fs.meta), CellOp(0, 8, genLine, true)];
    assert pdf.ops == start + top;

    ghost var info: seq<PdfOp> := [];
    if meta.Some? && "info" in meta.value {
      var infoLine := FitText(fs.meta, meta.value["info"]);
      pdf.MultiCell(0, 6, "Info: " + infoLine);
      info := [BlockOp(0, 6, "Info: " + infoLine)];
    }
    assert pdf.ops == start + top + info;
    pdf.Ln(3);
    AppendAssoc(start, top, info, [GapOp(3)]);
  }

  lemma AppendAssoc<T>(a: seq<T>, b: seq<T>, c: seq<T>, d: seq<T>)
    ensures a + b + c + d == a + (b + c + d)
  {
  }

  /** `if 'Helvetica' in font[0]: s = _sanitize_for_core_fonts(s)` */
  method FitText(f: Font, s: string) returns (r: string)
    ensures r == Fit(f, s)
  {
    r := s;
    if IsCore(f) {
      r := SanitizeForCoreFonts(s);
    }
  }

  /** The body loop: each line, sanitised when the font is a core one, becomes
      a 4-unit gap when blank and a text block otherwise. */
  method WriteBody(pdf: Pdf, body: Font, lines: seq<string>)
    modifies pdf
    ensures pdf.ops == old(pdf.ops) + BodyOps(body, lines)
  {
    var i := 0;
    while i < |lines|
      invariant 0 <= i <= |lines|
      invariant pdf.ops == old(pdf.ops) + BodyOps(body, lines[..i])
    {
      var out := FitText(body, lines[i]);
      if IsBlank(out) {
        pdf.Ln(4);
      } else {
        pdf.MultiCell(0, 6, out);
      }
      assert lines[..i + 1][..i] == lines[..i];
      i := i + 1;
    }
    assert lines[..|lines|] == lines;
  }

  // ---- What a rendering promises ----

  /** Each body line gives exactly one operation, at its own position. */
  lemma {:induction false} BodyOpsAt(body: Font, lines: seq<string>)
    ensures |BodyOps(body, lines)| == |lines|
    ensures forall i :: 0 <= i < |lines| ==> BodyOps(body, lines)[i] == LineOp(body, lines[i])
  {
    if lines != [] {
      BodyOpsAt(body, lines[..|lines| - 1]);
    }
  }

  /** Blank lines become a 4-unit gap and never a text block; every text block of
      the body holds visible text, sanitised when the font is a core one and
      otherwise exactly the line. */
  lemma BodyLines(body: Font, lines: seq<string>)
    ensures |BodyOps(body, lines)| == |lines|
    ensures forall i :: 0 <= i < |lines| ==>
      var out := if IsCore(body) then Sanitize(lines[i]) else lines[i];
      BodyOps(body, lines)[i] == if IsBlank(out) then GapOp(4) else BlockOp(0, 6, out)
    ensures forall op :: op in BodyOps(body, lines) ==> op.GapOp? || op.BlockOp?
    ensures forall op :: op in BodyOps(body, lines) && op.BlockOp? ==> !IsBlank(op.text)
  {
    BodyOpsAt(body, lines);
  }

  /** Font registration only registers fonts: the regular one under the regular
      style, then the bold one under the bold style. */
  lemma FontOpsShape(chosen: FontPair, env: RenderEnv)
    ensures forall op :: op in FontOps(chosen, env) ==>
      op.FontFileOp? && op.family == U
      && ((op.style == Regular && chosen.regular == Some(op.file)) || (op.style == Bold && chosen.bold == Some(op.file)))
  {
  }

  /** The header sets only the header and meta fonts, writes the title and the
      "Generated" line as cells, and writes a text block exactly for the "Info"
      line, which is there exactly when `meta` has an "info" entry. */
  lemma HeaderShape(title: string, meta: Option<map<string, string>>, fs: FontSet, now: string)
    ensures var header := HeaderOps(title, meta, fs, now);
      CellOp(0, 10, Fit(fs.header, TitleDashes(title)), true) in header
      && CellOp(0, 8, Fit(fs.meta, "Generated: " + now), true) in header
      && (HasInfo(meta) ==> BlockOp(0, 6, "Info: " + Fit(fs.meta, meta.value["info"])) in header)
      && forall op :: op in header ==>
           !op.FontFileOp?
           && (op.FontOp? ==> op.font == fs.header || op.font == fs.meta)
           && (op.CellOp? ==> op.text == Fit(fs.header, TitleDashes(title)) || op.text == Fit(fs.meta, "Generated: " + now))
           && (op.BlockOp? ==> HasInfo(meta) && op.text == "Info: " + Fit(fs.meta, meta.value["info"]))
  {
  }

  /** The document cut into its parts. */
  lemma Parts(lines: seq<string>, title: string, meta: Option<map<string, string>>,
              chosen: FontPair, minimal: bool, env: RenderEnv)
    returns (fs: FontSet, fontOps: seq<PdfOp>, header: seq<PdfOp>, body: seq<PdfOp>)
    ensures fs == FontsUsed(chosen, env) && fontOps == FontOps(chosen, env)
    ensures header == if minimal then [] else HeaderOps(title, meta, fs, env.now)
    ensures body == BodyOps(fs.body, lines)
    ensures RenderOps(lines, title, meta, chosen, minimal, env)
            == [PageBreakOp(true, 15), PageOp] + fontOps + header + [FontOp(fs.body)] + body
  {
    fs, fontOps, header, body := FontsUsed(chosen, env), FontOps(chosen, env),
      (if minimal then [] else HeaderOps(title, meta, FontsUsed(chosen, env), env.now)),
      BodyOps(FontsUsed(chosen, env).body, lines);
  }

  /** Every font the operations set belongs to `family`. */
  predicate FontsIn(ops: seq<PdfOp>, family: Family) {
    forall op :: op in ops && op.FontOp? ==> op.font.family == family
  }

  /** The document is drawn in the core font exactly when no regular font was
      resolved or an `add_font` raised; otherwise every font it sets is the
      registered TrueType font. */
  lemma CoreModeIff(lines: seq<string>, title: string, meta: Option<map<string, string>>,
                    chosen: FontPair, minimal: bool, env: RenderEnv)
    ensures var ops := RenderOps(lines, title, meta, chosen, minimal, env);
      FontsIn(ops, if UsingCore(chosen, env) then Helvetica else U)
      && FontOp(FontsUsed(chosen, env).body) in ops
  {
    var fs, fontOps, header, body := Parts(lines, title, meta, chosen, minimal, env);
    var family := if UsingCore(chosen, env) then Helvetica else U;
    FontSetFamily(chosen, env);
    FontOpsShape(chosen, env);
    if !minimal {
      HeaderShape(title, meta, fs, env.now);
    }
    BodyLines(fs.body, lines);
    assert FontsIn(fontOps, family) && FontsIn(header, family) && FontsIn(body, family);
    FontsInParts(RenderOps(lines, title, meta, chosen, minimal, env), fontOps, header, fs.body, body, family);
  }

  /** All three fonts of the set in use belong to one family. */
  lemma FontSetFamily(chosen: FontPair, env: RenderEnv)
    ensures var fs, family := FontsUsed(chosen, env), if UsingCore(chosen, env) then Helvetica else U;
      fs.header.family == family && fs.body.family == family && fs.meta.family == family
  {
  }

  /** The document's fonts, part by part. */
  lemma FontsInParts(ops: seq<PdfOp>, fontOps: seq<PdfOp>, header: seq<PdfOp>, bodyFont: Font,
                     body: seq<PdfOp>, family: Family)
    requires ops == [PageBreakOp(true, 15), PageOp] + fontOps + header + [FontOp(bodyFont)] + body
    requires FontsIn(fontOps, family) && FontsIn(header, family) && FontsIn(body, family)
    requires bodyFont.family == family
    ensures FontsIn(ops, family) && FontOp(bodyFont) in ops
  {
    AppendAssoc([PageBreakOp(true, 15), PageOp] + fontOps, header, [FontOp(bodyFont)], body);
  }

  /** Every text the operations write is its own sanitised form: Latin-1 with
      no character of the substitution table. */
  predicate TextsSanitized(ops: seq<PdfOp>) {
    forall op :: op in ops && (op.CellOp? || op.BlockOp?) ==> Sanitize(op.text) == op.text
  }

  /** In core mode every text written (title, "Generated" line, "Info" line,
      body lines) is Latin-1 without any character of the substitution table. */
  lemma CoreTextIsSanitized(lines: seq<string>, title: string, meta: Option<map<string, string>>,
                            chosen: FontPair, minimal: bool, env: RenderEnv)
    requires UsingCore(chosen, env)
    ensures TextsSanitized(RenderOps(lines, title, meta, chosen, minimal, env))
  {
    var fs, fontOps, header, body := Parts(lines, title, meta, chosen, minimal, env);
    FontOpsShape(chosen, env);
    if !minimal {
      HeaderTextsSanitized(title, meta, fs, env.now);
    }
    BodyTextsSanitized(fs.body, lines);
  }

  lemma HeaderTextsSanitized(title: string, meta: Option<map<string, string>>, fs: FontSet, now: string)
    requires IsCore(fs.header) && IsCore(fs.meta)
    ensures TextsSanitized(HeaderOps(title, meta, fs, now))
  {
    HeaderShape(title, meta, fs, now);
    SanitizeIdempotent(TitleDashes(title));
    SanitizeIdempotent("Generated: " + now);
    var info := if HasInfo(meta) then "Info: " + Fit(fs.meta, meta.value["info"]) else "";
    if HasInfo(meta) {
      LabelSanitized(meta.value["info"]);
    }
    HeaderTexts(HeaderOps(title, meta, fs, now), Fit(fs.header, TitleDashes(title)), Fit(fs.meta, "Generated: " + now),
                HasInfo(meta), info);
  }

  /** The "Info: " label survives sanitising, and so does what follows it. */
  lemma LabelSanitized(x: string)
    ensures Sanitize("Info: " + Sanitize(x)) == "Info: " + Sanitize(x)
  {
    var t := "Info: " + Sanitize(x);
    forall c | c in t
      ensures IsLatin1(c) && !IsReplaced(c)
    {
      if c !in Sanitize(x) {
        assert c in "Info: ";
      }
    }
    SanitizeFixpoint(t);
  }

  /** Header operations whose cells hold one of two sanitised texts and whose
      block holds a third. */
  lemma HeaderTexts(header: seq<PdfOp>, title: string, generated: string, hasInfo: bool, info: string)
    requires Sanitize(title) == title && Sanitize(generated) == generated
    requires hasInfo ==> Sanitize(info) == info
    requires forall op :: op in header ==>
      (op.CellOp? ==> op.text == title || op.text == generated)
      && (op.BlockOp? ==> hasInfo && op.text == info)
    ensures TextsSanitized(header)
  {
  }

  lemma BodyTextsSanitized(body: Font, lines: seq<string>)
    requires IsCore(body)
    ensures TextsSanitized(BodyOps(body, lines))
  {
    BodyLines(body, lines);
    forall op | op in BodyOps(body, lines) && op.BlockOp?
      ensures Sanitize(op.text) == op.text
    {
      var i :| 0 <= i < |lines| && BodyOps(body, lines)[i] == op;
      SanitizeIdempotent(lines[i]);
    }
  }

  /** In Unicode mode the document ends with one operation per line, and each
      line is written exactly as it is. */
  lemma UnicodeBodyUnchanged(lines: seq<string>, title: string, meta: Option<map<string, string>>,
                             chosen: FontPair, minimal: bool, env: RenderEnv)
    requires !UsingCore(chosen, env)
    ensures var ops := RenderOps(lines, title, meta, chosen, minimal, env);
      |ops| >= |lines|
      && forall i :: 0 <= i < |lines| ==>
           ops[|ops| - |lines| + i] == if IsBlank(lines[i]) then GapOp(4) else BlockOp(0, 6, lines[i])
  {
    var fs, fontOps, header, body := Parts(lines, title, meta, chosen, minimal, env);
    UnicodeBodyFont(chosen, env);
    UnicodeBodyOps(fs.body, lines);
    var front := [PageBreakOp(true, 15), PageOp] + fontOps + header + [FontOp(fs.body)];
    LinesAtEnd(RenderOps(lines, title, meta, chosen, minimal, env), front, body, lines);
  }

  /** Operations that end with one unchanged operation per line. */
  lemma LinesAtEnd(ops: seq<PdfOp>, front: seq<PdfOp>, body: seq<PdfOp>, lines: seq<string>)
    requires ops == front + body && |body| == |lines|
    requires forall i :: 0 <= i < |lines| ==>
      body[i] == if IsBlank(lines[i]) then GapOp(4) else BlockOp(0, 6, lines[i])
    ensures |ops| >= |lines|
    ensures forall i :: 0 <= i < |lines| ==>
      ops[|ops| - |lines| + i] == if IsBlank(lines[i]) then GapOp(4) else BlockOp(0, 6, lines[i])
  {
    forall i | 0 <= i < |lines|
      ensures ops[|ops| - |lines| + i] == body[i]
    {
      SuffixAt(front, body, i);
    }
  }

  lemma UnicodeBodyFont(chosen: FontPair, env: RenderEnv)
    requires !UsingCore(chosen, env)
    ensures !IsCore(FontsUsed(chosen, env).body)
  {
  }

  /** A body line in a Unicode font is written as it is. */
  lemma UnicodeBodyOps(body: Font, lines: seq<string>)
    requires !IsCore(body)
    ensures |BodyOps(body, lines)| == |lines|
    ensures forall i :: 0 <= i < |lines| ==>
      BodyOps(body, lines)[i] == if IsBlank(lines[i]) then GapOp(4) else BlockOp(0, 6, lines[i])
  {
    BodyLines(body, lines);
  }

  lemma SuffixAt(front: seq<PdfOp>, back: seq<PdfOp>, i: int)
    requires 0 <= i < |back|
    ensures (front + back)[|front + back| - |back| + i] == back[i]
  {
  }

  /** With `minimal` there is no header: no cell at all, and nothing but the
      page set-up, the font registration, the body font and one operation per
      line.  Without it the title, the "Generated" line and, when `meta` has an
      "info" entry, the "Info" line are all written. */
  lemma HeaderBlock(lines: seq<string>, title: string, meta: Option<map<string, string>>,
                    chosen: FontPair, minimal: bool, env: RenderEnv)
    ensures var fs := FontsUsed(chosen, env);
      var ops := RenderOps(lines, title, meta, chosen, minimal, env);
      (minimal ==> (forall op :: op in ops ==> !op.CellOp?) && |ops| == 3 + |FontOps(chosen, env)| + |lines|)
      && (!minimal ==>
            CellOp(0, 10, Fit(fs.header, TitleDashes(title)), true) in ops
            && CellOp(0, 8, Fit(fs.meta, "Generated: " + env.now), true) in ops
            && (HasInfo(meta) ==> BlockOp(0, 6, "Info: " + Fit(fs.meta, meta.value["info"])) in ops))
  {
    var fs, fontOps, header, body := Parts(lines, title, meta, chosen, minimal, env);
    FontOpsShape(chosen, env);
    BodyLines(fs.body, lines);
    if !minimal {
      HeaderShape(title, meta, fs, env.now);
    }
  }

  /** The fonts registered are those of the registration step: neither the
      header nor the body registers a font. */
  lemma OnlySetupRegisters(lines: seq<string>, title: string, meta: Option<map<string, string>>,
                           chosen: FontPair, minimal: bool, env: RenderEnv)
    ensures forall op :: op in RenderOps(lines, title, meta, chosen, minimal, env) && op.FontFileOp?
                         ==> op in FontOps(chosen, env)
  {
    var fs, fontOps, header, body := Parts(lines, title, meta, chosen, minimal, env);
    BodyLines(fs.body, lines);
    if !minimal {
      HeaderShape(title, meta, fs, env.now);
    }
  }

  /** A regular font the caller names is the only regular font registered, and
      a bold font the caller names is the only bold font registered. */
  lemma CallerFontsWin(fontRegular: Option<Path>, fontBold: Option<Path>, env: RenderEnv)
    ensures forall op :: op in FontOps(Chosen(fontRegular, fontBold, env), env) ==>
      (op.style == Regular && fontRegular.Some? ==> op.file == fontRegular.value)
      && (op.style == Bold && fontBold.Some? ==> op.file == fontBold.value)
  {
    FontOpsShape(Chosen(fontRegular, fontBold, env), env);
  }
}
