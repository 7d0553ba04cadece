/** `process_videos`: one batch run over an input folder.  The file system and
    the log are a `Workspace` object that the run updates in place.  ffmpeg,
    the transcription service, `json.dump`, FPDF's font loading and its file
    output are oracles gathered in `Services`.  The run is specified by the
    function `Run`, built from `Prepare`, one `Step` per file and, inside a
    step, `AudioStage` and `Save`. */
module Batch {
  import opened Wrappers
  import opened PyText
  import opened FileNames
  import opened Media
  import opened Response
  import opened Fonts
  import opened Render

  // ---- The file system and the log ----

  /** What a file holds: something the run did not write (a recording, a
      font, any other file), or one of the three artifacts. */
  datatype Content =
    | Existing
    | JsonDump(data: Json)        // `json.dump(full_json, ...)`
    | ReplyText(reply: Reply)     // `str(response)`, written when the dump fails
    | Text(text: string)          // the .txt transcript
    | PdfFile(ops: seq<PdfOp>)    // the rendered document

  /** Folders, files, the files written in order, and the lines given to
      `log_callback`. */
  datatype State = State(dirs: set<Path>, files: map<Path, Content>, writes: seq<Path>, log: seq<string>)

  /** A file system: the root is a folder, nothing is both a folder and a file,
      and everything but the root sits inside a folder. */
  predicate WellFormed(s: State) {
    FileTree(s.dirs, s.files)
  }

  predicate FileTree(dirs: set<Path>, files: map<Path, Content>) {
    [] in dirs && dirs !! files.Keys
    && (forall d {:trigger Parent(d)} :: d in dirs && d != [] ==> Parent(d) in dirs)
    && (forall f :: f in files ==> f != [] && Parent(f) in dirs)
  }

  /** The folder holding `p`. */
  function Parent(p: Path): Path
    requires p != []
  {
    p[..|p| - 1]
  }

  /** `Path.exists()`: a folder or a file. */
  predicate PathExists(s: State, p: Path) {
    p in s.dirs || p in s.files
  }

  /** The exceptions that end a run early. */
  datatype Raised =
    | FileExists(path: Path)          // `mkdir` where a file is
    | NotADirectory(path: Path)       // `mkdir` below a file
    | InvalidInput(message: string)   // the input folder is not a folder
    | FfmpegFailed(message: string)   // ffmpeg failing other than by CalledProcessError
    | NoStrip                         // `.strip()` on a transcript that is not a string
    | IsADirectory(path: Path)        // `open(path, "w")` on a folder

  /** Where a run stands: its state, and the exception that stopped it, if any. */
  datatype Progress = Progress(state: State, error: Option<Raised>)

  function Logged(s: State, line: string): State {
    s.(log := s.log + [line])
  }

  /** A completed write of `c` to the file `p`. */
  function Put(s: State, p: Path, c: Content): State {
    s.(files := s.files[p := c], writes := s.writes + [p])
  }

  /** `open(p, "w")` followed by a write: a folder at `p` raises. */
  function WriteTo(s: State, p: Path, c: Content): (r: Progress)
    ensures Grows(s, r.state)
    ensures forall q :: q in r.state.files && q !in s.files ==> q == p && p !in s.dirs
  {
    if p in s.dirs then Progress(s, Some(IsADirectory(p))) else Progress(Put(s, p, c), None)
  }

  /** After the folders are made, a run only adds: no folder changes, no file
      disappears, and the writes and the log only grow at the end. */
  predicate Grows(s: State, t: State) {
    t.dirs == s.dirs && s.files.Keys <= t.files.Keys && s.writes <= t.writes && s.log <= t.log
  }

  /** A line logged while one file is processed: it opens with the `[i/n]`
      counter or with the indentation of the per-file messages.  The program
      has no such test; this is a proof device that shows no per-file line
      can be the closing "Proceso finalizado." line. */
  predicate FileLine(line: string) {
    |line| > 0 && (line[0] == '[' || line[0] == ' ')
  }

  /** Every line `t` logged after `s` is a per-file line. */
  predicate LogsFileLines(s: State, t: State) {
    forall i :: |s.log| <= i < |t.log| ==> FileLine(t.log[i])
  }

  /** Some proper ancestor of `p` is a file. */
  predicate FileAbove(s: State, p: Path) {
    exists k :: 0 <= k < |p| && p[..k] in s.files
  }

  /** `p` and all its ancestors. */
  function Prefixes(p: Path): set<Path> {
    set k | 0 <= k <= |p| :: p[..k]
  }

  /** `p.mkdir(parents=True, exist_ok=True)`: creates `p` and whatever
      ancestors are missing; a file at `p` raises FileExistsError, a file above
      it NotADirectoryError. */
  function MkDir(s: State, p: Path): Progress {
    if p in s.files then Progress(s, Some(FileExists(p)))
    else if FileAbove(s, p) then Progress(s, Some(NotADirectory(p)))
    else Progress(s.(dirs := s.dirs + Prefixes(p)), None)
  }

  function MkDirThen(q: Progress, p: Path): Progress {
    if q.error.Some? then q else MkDir(q.state, p)
  }

  /** `str(path)` of an absolute path. */
  function PathText(p: Path): string {
    if p == [] then "/" else Slashed(p)
  }

  function Slashed(p: Path): string {
    if p == [] then "" else "/" + p[0] + Slashed(p[1..])
  }

  /** The names of the regular files directly inside `dir`. */
  function Listing(files: map<Path, Content>, dir: Path): set<string> {
    set p | p in files && |p| == |dir| + 1 && p[..|dir|] == dir :: p[|dir|]
  }

  // ---- The run's parameters and oracles ----

  /** The arguments of `process_videos` that the model uses.  Folder and font
      paths are already resolved; an empty string is given as None. */
  datatype Job = Job(
    inDir: Path, outDir: Path,
    txtDir: Option<Path>, jsonDir: Option<Path>, pdfDir: Option<Path>,
    language: Option<string>, model: string,
    overwrite: bool, minimal: bool,
    fontRegular: Option<Path>, fontBold: Option<Path>)

  /** What `extract_audio_with_ffmpeg` does with one file. */
  datatype FfmpegRun = Extracted | ProcessError | OtherError(message: string)

  /** The file sent for transcription: the original, or the WAV ffmpeg made from it. */
  datatype AudioSource = Original(path: Path) | ExtractedWav(src: Path)

  datatype Transcription = Transcribed(reply: Reply) | TranscribeError(message: string)

  /** Everything outside the program: whether ffmpeg is installed and what it
      does, the transcription service, whether `json.dump` manages to
      serialise a payload, `str.isalnum`, the `fonts` folder beside the
      program, which TTF files FPDF loads, the clock text, and the outcome of
      writing each PDF. */
  datatype Services = Services(
    hasFfmpeg: bool,
    ffmpeg: Path -> FfmpegRun,
    transcribe: AudioSource -> Transcription,
    dumps: Json -> bool,
    isAlnum: char -> bool,
    fontsDir: Path,
    registers: Path -> bool,
    now: string,
    pdfOutput: Path -> Written)

  /** The three artifact folders. */
  datatype Dirs = Dirs(txt: Path, json: Path, pdf: Path)

  /** The folders given, else `txt`, `json` and `pdf` inside the output folder. */
  function OutputDirs(job: Job): Dirs {
    Dirs(if job.txtDir.Some? then job.txtDir.value else job.outDir + ["txt"],
         if job.jsonDir.Some? then job.jsonDir.value else job.outDir + ["json"],
         if job.pdfDir.Some? then job.pdfDir.value else job.outDir + ["pdf"])
  }

  /** The artifacts of one source file, named after its cleaned stem. */
  datatype Artifacts = Artifacts(stem: string, txt: Path, json: Path, pdf: Path)

  function ArtifactsOf(d: Dirs, isAlnum: char -> bool, name: string): Artifacts {
    var stem := CleanFilename(isAlnum, Stem(name));
    Artifacts(stem, d.txt + [stem + ".txt"], d.json + [stem + ".deepgram.json"], d.pdf + [stem + ".pdf"])
  }

  /** Every file of `t` that `s` lacks is one of the artifacts `a`, at a path
      that is not a folder. */
  predicate AddsWithin(s: State, t: State, a: Artifacts) {
    forall p :: p in t.files && p !in s.files ==> p !in s.dirs && (p == a.json || p == a.txt || p == a.pdf)
  }

  /** All three artifacts are there (as files or folders). */
  predicate Done(s: State, a: Artifacts) {
    PathExists(s, a.txt) && PathExists(s, a.pdf) && PathExists(s, a.json)
  }

  // ---- What the run logs and writes ----

  const FfmpegMissing := "ADVERTENCIA: " + "ffmpeg no se encontró. Los archivos de video se procesarán directamente (puede ser más lento)."
  const NothingFound := "No se encontraron " + "archivos de video o audio compatibles."
  const Finished := "Proceso finalizado."
  const EmptyTranscript := "[Transcripción vacía]" + "\n(Revisa el archivo .deepgram.json para ver la respuesta completa.)"
  /** The mark of a line reporting that one file's processing went wrong. */
  const Alert := "  ! "

  function FoundLine(n: nat): string {
    "Se encontraron " + NatToString(n) + " archivos. Iniciando transcripción...\n"
  }

  /** `[idx/n] ` */
  function Counter(idx: nat, n: nat): string {
    "[" + NatToString(idx) + "/" + NatToString(n) + "] "
  }

  function SkipLine(idx: nat, n: nat, name: string): string {
    Counter(idx, n) + "Omitiendo '" + name + "' (ya procesado)."
  }

  function StartLine(idx: nat, n: nat, name: string): string {
    Counter(idx, n) + "Procesando: " + name
  }

  /** The WAV is named after the raw stem of the source. */
  function ExtractedLine(name: string): string {
    "  - Audio extraído: " + Stem(name) + ".wav"
  }

  function ExtractFailedLine(name: string): string {
    Alert + "Falló la extracción de audio con ffmpeg para '" + name + "'. Se enviará el archivo original."
  }

  function TranscribeErrorLine(message: string): string {
    Alert + "Error de transcripción: " + message
  }

  function PdfErrorLine(message: string): string {
    Alert + "No se pudo escribir el PDF: " + message
  }

  function SavedLine(stem: string): string {
    "  ✓ Guardado:\n     - " + stem + ".txt\n     - " + stem + ".deepgram.json\n     - " + stem + ".pdf\n"
  }

  /** The document title, after the raw stem of the source. */
  function Title(name: string): string {
    "Transcripción - " + Stem(name)
  }

  /** The "info" entry of the PDF's `meta`; `language or 'auto'`, and the
      confidence as `str()` shows it, or "n/a". */
  function InfoLine(job: Job, confidence: Option<Json>): string {
    "Model=" + job.model
    + " | Language=" + (if job.language.None? || job.language.value == "" then "auto" else job.language.value)
    + " | Confidence=" + (if confidence.None? then "n/a" else PyStr(confidence.value))
  }

  /** The "info" line names the model first and ends with the confidence as
      `str()` shows it, or "n/a" when there is none. */
  lemma InfoLineShows(job: Job, confidence: Option<Json>)
    ensures var l, shown := InfoLine(job, confidence), if confidence.None? then "n/a" else PyStr(confidence.value);
      var tail := " | Confidence=" + shown;
      |l| >= 6 + |job.model| + |tail|
      && l[..6 + |job.model|] == "Model=" + job.model
      && l[|l| - |tail|..] == tail
  {
    var lang := if job.language.None? || job.language.value == "" then "auto" else job.language.value;
    var shown := if confidence.None? then "n/a" else PyStr(confidence.value);
    Framed(InfoLine(job, confidence), "Model=", job.model, " | Language=", lang, " | Confidence=", shown);
  }

  /** A text of six parts starts with the first two and ends with the last two. */
  lemma Framed(l: string, a: string, b: string, c: string, d: string, e: string, f: string)
    requires l == a + b + c + d + e + f
    ensures |l| >= |a + b| + |e + f| && l[..|a + b|] == a + b && l[|l| - |e + f|..] == e + f
  {
    assert l == (a + b) + (c + d) + (e + f);
  }

  /** The text saved: the transcript, or a fixed placeholder when it is blank. */
  function TextToSave(transcript: string): string {
    if IsBlank(transcript) then EmptyTranscript else transcript
  }

  /** Where `to_pdf` runs: the file system as it stands, font loading that
      fails on anything but an existing file, the service oracles, and an
      output that raises IsADirectoryError on a folder. */
  function PdfEnv(s: State, svc: Services): RenderEnv {
    var dirs, files := s.dirs, s.files;
    RenderEnv(svc.fontsDir, p => p in dirs || p in files, p => p in files && svc.registers(p), svc.now,
              p => if p in dirs then WriteFailed("[Errno 21] Is a directory: '" + PathText(p) + "'") else svc.pdfOutput(p))
  }

  /** A regular font the caller names that is not an existing file cannot be
      registered, so the document falls back to the core fonts. */
  lemma MissingFontIsCore(s: State, job: Job, svc: Services)
    requires job.fontRegular.Some? && job.fontRegular.value !in s.files
    ensures UsingCore(Chosen(job.fontRegular, job.fontBold, PdfEnv(s, svc)), PdfEnv(s, svc))
    ensures FontsUsed(Chosen(job.fontRegular, job.fontBold, PdfEnv(s, svc)), PdfEnv(s, svc)) == CoreFontSet
  {
  }

  // ---- The run, as functions of the state ----

  /** Output folders first, then the check of the input folder. */
  function Prepare(s: State, job: Job): Progress {
    var d := OutputDirs(job);
    var p := MkDirThen(MkDirThen(MkDirThen(MkDir(s, job.outDir), d.txt), d.json), d.pdf);
    if p.error.None? && job.inDir !in p.state.dirs then
      Progress(p.state, Some(InvalidInput("Input path '" + PathText(job.inDir) + "' is not a valid directory.")))
    else p
  }

  /** The file to transcribe and the lines logged on the way: a video goes
      through ffmpeg when it is installed; only CalledProcessError falls back
      to the original file, any other failure propagates. */
  function AudioStage(src: Path, name: string, svc: Services): (r: Result<(AudioSource, seq<string>), Raised>)
    ensures r.Success? ==> forall l :: l in r.value.1 ==> FileLine(l)
  {
    if IsVideo(name) && svc.hasFfmpeg then
      match svc.ffmpeg(src)
      case Extracted => Success((ExtractedWav(src), [ExtractedLine(name)]))
      case ProcessError => Success((Original(src), [ExtractFailedLine(name)]))
      case OtherError(m) => Failure(FfmpegFailed(m))
    else Success((Original(src), []))
  }

  /** The outcome of `to_pdf` on the state left by the two other writes. */
  function PdfFor(s: State, job: Job, svc: Services, a: Artifacts, name: string, text: string,
                  confidence: Option<Json>): Result<seq<PdfOp>, string>
  {
    PdfResult(text, a.pdf, Title(name), Some(map["info" := InfoLine(job, confidence)]),
              job.fontRegular, job.fontBold, job.minimal, PdfEnv(s, svc))
  }

  /** The PDF, or the line saying why it could not be written, then the
      "Guardado" line in either case. */
  function SavePdf(s: State, job: Job, svc: Services, a: Artifacts, name: string, text: string,
                   confidence: Option<Json>): (r: State)
    ensures Grows(s, r) && AddsWithin(s, r, a) && LogsFileLines(s, r)
  {
    var s1 := match PdfFor(s, job, svc, a, name, text, confidence)
              case Success(ops) => Put(s, a.pdf, PdfFile(ops))
              case Failure(m) => Logged(s, PdfErrorLine(m));
    Logged(s1, SavedLine(a.stem))
  }

  /** What goes to the JSON file: the payload, or `str(response)` when the dump fails. */
  function JsonContent(svc: Services, e: Extraction, reply: Reply): Content {
    if svc.dumps(e.data) then JsonDump(e.data) else ReplyText(reply)
  }

  /** Everything after a reply: JSON, then text, then PDF. */
  function Save(s: State, job: Job, svc: Services, a: Artifacts, name: string, reply: Reply): (r: Progress)
    ensures Grows(s, r.state) && AddsWithin(s, r.state, a) && LogsFileLines(s, r.state)
  {
    var e := ExtractTranscript(reply);
    if !e.transcript.JStr? then Progress(s, Some(NoStrip))
    else
      var j := WriteTo(s, a.json, JsonContent(svc, e, reply));
      if j.error.Some? then j
      else
        var text := TextToSave(e.transcript.s);
        var t := WriteTo(j.state, a.txt, Text(text));
        if t.error.Some? then t
        else Progress(SavePdf(t.state, job, svc, a, name, text, e.confidence), None)
  }

  /** The body of the loop for the file `name`, number `idx` of `n`: skipped
      when its artifacts exist and overwriting is off. */
  function Step(s: State, job: Job, svc: Services, name: string, idx: nat, n: nat): (r: Progress)
    ensures Grows(s, r.state) && AddsWithin(s, r.state, ArtifactsOf(OutputDirs(job), svc.isAlnum, name))
    ensures LogsFileLines(s, r.state)
  {
    var a := ArtifactsOf(OutputDirs(job), svc.isAlnum, name);
    if !job.overwrite && Done(s, a) then
      assert FileLine(SkipLine(idx, n, name));
      Progress(Logged(s, SkipLine(idx, n, name)), None)
    else
      var r := Attempt(Logged(s, StartLine(idx, n, name)), job, svc, a, name);
      LoggedFirst(s, StartLine(idx, n, name), r.state, a);
      r
  }

  /** What follows a per-file line keeps the run's invariants from before it. */
  lemma LoggedFirst(s: State, line: string, t: State, a: Artifacts)
    requires FileLine(line)
    requires Grows(Logged(s, line), t) && AddsWithin(Logged(s, line), t, a) && LogsFileLines(Logged(s, line), t)
    ensures Grows(s, t) && AddsWithin(s, t, a) && LogsFileLines(s, t)
  {
    assert t.log[|s.log|] == line;
  }

  /** Extraction, transcription and saving for the file `name`; a failed
      transcription is logged and ends only this file. */
  function Attempt(s: State, job: Job, svc: Services, a: Artifacts, name: string): (r: Progress)
    ensures Grows(s, r.state) && AddsWithin(s, r.state, a) && LogsFileLines(s, r.state)
  {
    match AudioStage(job.inDir + [name], name, svc)
    case Failure(err) => Progress(s, Some(err))
    case Success((source, lines)) =>
      var s1 := s.(log := s.log + lines);
      match svc.transcribe(source)
      case TranscribeError(m) => Progress(Logged(s1, TranscribeErrorLine(m)), None)
      case Transcribed(reply) => Save(s1, job, svc, a, name, reply)
  }

  /** The loop over `names`, the first files of `n`, stopping at an exception. */
  function Steps(s: State, job: Job, svc: Services, names: seq<string>, n: nat): (r: Progress)
    ensures Grows(s, r.state) && LogsFileLines(s, r.state)
    decreases |names|
  {
    if names == [] then Progress(s, None)
    else
      var q := Steps(s, job, svc, names[..|names| - 1], n);
      if q.error.Some? then q else Step(q.state, job, svc, names[|names| - 1], |names|, n)
  }

  /** The supported files of the input folder, sorted. */
  function Discovered(s: State, job: Job): seq<string> {
    Discover(Listing(s.files, job.inDir))
  }

  /** The state after the ffmpeg warning, if any. */
  function Warned(s: State, svc: Services): State {
    if svc.hasFfmpeg then s else Logged(s, FfmpegMissing)
  }

  /** Everything after the folders: the ffmpeg warning, discovery, the loop
      and the closing line. */
  function RunPrepared(s: State, job: Job, svc: Services): Progress {
    var s1 := Warned(s, svc);
    var names := Discovered(s1, job);
    if names == [] then Progress(Logged(s1, NothingFound), None)
    else
      var q := Steps(Logged(s1, FoundLine(|names|)), job, svc, names, |names|);
      if q.error.Some? then q else Progress(Logged(q.state, Finished), None)
  }

  /** `process_videos(...)`: the final state, and the exception it raised, if any. */
  function Run(s: State, job: Job, svc: Services): Progress {
    var p := Prepare(s, job);
    if p.error.Some? then p else RunPrepared(p.state, job, svc)
  }

  // ---- The run, step by step ----

  class Workspace {
    var dirs: set<Path>
    var files: map<Path, Content>
    var writes: seq<Path>
    var log: seq<string>

    function Snapshot(): State
      reads this
    {
      State(dirs, files, writes, log)
    }

    constructor (s: State)
      ensures Snapshot() == s
    {
      dirs, files, writes, log := s.dirs, s.files, s.writes, s.log;
    }

    /** `log_callback(line)` */
    method LogLine(line: string)
      modifies this
      ensures Snapshot() == Logged(old(Snapshot()), line)
    {
      log := log + [line];
    }

    method MakeDir(p: Path) returns (err: Option<Raised>)
      modifies this
      ensures Progress(Snapshot(), err) == MkDir(old(Snapshot()), p)
    {
      if p in files {
        return Some(FileExists(p));
      }
      if exists k :: 0 <= k < |p| && p[..k] in files {
        return Some(NotADirectory(p));
      }
      dirs := dirs + Prefixes(p);
      err := None;
    }

    method WriteFile(p: Path, c: Content) returns (err: Option<Raised>)
      modifies this
      ensures Progress(Snapshot(), err) == WriteTo(old(Snapshot()), p, c)
    {
      if p in dirs {
        return Some(IsADirectory(p));
      }
      files := files[p := c];
      writes := writes + [p];
      err := None;
    }

    /** The output folders, then the check of the input folder. */
    method MakeOutputDirs(job: Job) returns (err: Option<Raised>)
      modifies this
      ensures Progress(Snapshot(), err) == Prepare(old(Snapshot()), job)
    {
      var d := OutputDirs(job);
      err := MakeDir(job.outDir);
      if err.None? {
        err := MakeDir(d.txt);
      }
      if err.None? {
        err := MakeDir(d.json);
      }
      if err.None? {
        err := MakeDir(d.pdf);
      }
      if err.None? && job.inDir !in dirs {
        err := Some(InvalidInput("Input path '" + PathText(job.inDir) + "' is not a valid directory."));
      }
    }

    /** The `to_pdf` call with its `try`, and the "Guardado" line. */
    method RenderPdf(job: Job, svc: Services, a: Artifacts, name: string, text: string, confidence: Option<Json>)
      modifies this
      ensures Snapshot() == SavePdf(old(Snapshot()), job, svc, a, name, text, confidence)
    {
      var meta := map["info" := InfoLine(job, confidence)];
      var r := ToPdf(text, a.pdf, Title(name), Some(meta), job.fontRegular, job.fontBold, job.minimal, PdfEnv(Snapshot(), svc));
      match r {
        case Success(ops) =>
          files := files[a.pdf := PdfFile(ops)];
          writes := writes + [a.pdf];
        case Failure(m) =>
          LogLine(PdfErrorLine(m));
      }
      LogLine(SavedLine(a.stem));
    }

    /** JSON, text and PDF for one reply. */
    method SaveArtifacts(job: Job, svc: Services, a: Artifacts, name: string, reply: Reply) returns (err: Option<Raised>)
      modifies this
      ensures Progress(Snapshot(), err) == Save(old(Snapshot()), job, svc, a, name, reply)
    {
      var e := ExtractTranscript(reply);
      if !e.transcript.JStr? {
        return Some(NoStrip);
      }
      if svc.dumps(e.data) {
        err := WriteFile(a.json, JsonDump(e.data));
      } else {
        err := WriteFile(a.json, ReplyText(reply));
      }
      if err.Some? {
        return;
      }
      var text := e.transcript.s;
      BlankIffStripEmpty(text);
      if Strip(text) == [] {
        text := EmptyTranscript;
      }
      err := WriteFile(a.txt, Text(text));
      if err.Some? {
        return;
      }
      RenderPdf(job, svc, a, name, text, e.confidence);
    }

    /** The audio to send: a video goes through ffmpeg when it is installed. */
    method PrepareAudio(src: Path, name: string, svc: Services) returns (source: AudioSource, err: Option<Raised>)
      modifies this
      ensures match AudioStage(src, name, svc)
              case Success((src', lines)) => err.None? && source == src' && Snapshot() == old(Snapshot()).(log := old(log) + lines)
              case Failure(e) => err == Some(e) && Snapshot() == old(Snapshot())
    {
      source, err := Original(src), None;
      if IsVideo(name) && svc.hasFfmpeg {
        match svc.ffmpeg(src) {
          case Extracted =>
            source := ExtractedWav(src);
            LogLine(ExtractedLine(name));
          case ProcessError =>
            LogLine(ExtractFailedLine(name));
          case OtherError(m) =>
            err := Some(FfmpegFailed(m));
        }
      }
    }

    /** One pass of the loop: skip, or extract, transcribe and save. */
    method ProcessFile(job: Job, svc: Services, name: string, idx: nat, n: nat) returns (err: Option<Raised>)
      modifies this
      ensures Progress(Snapshot(), err) == Step(old(Snapshot()), job, svc, name, idx, n)
    {
      var a := ArtifactsOf(OutputDirs(job), svc.isAlnum, name);
      if !job.overwrite && Done(Snapshot(), a) {
        LogLine(SkipLine(idx, n, name));
        return None;
      }
      LogLine(StartLine(idx, n, name));
      var source;
      source, err := PrepareAudio(job.inDir + [name], name, svc);
      if err.Some? {
        return;
      }
      match svc.transcribe(source) {
        case TranscribeError(m) =>
          LogLine(TranscribeErrorLine(m));
        case Transcribed(reply) =>
          err := SaveArtifacts(job, svc, a, name, reply);
      }
    }

    /** The loop over the discovered files, numbered from 1. */
    method ProcessAll(job: Job, svc: Services, names: seq<string>) returns (err: Option<Raised>)
      modifies this
      ensures Progress(Snapshot(), err) == Steps(old(Snapshot()), job, svc, names, |names|)
    {
      ghost var start := Snapshot();
      var i := 0;
      err := None;
      while i < |names|
        invariant 0 <= i <= |names|
        invariant Steps(start, job, svc, names[..i], |names|) == Progress(Snapshot(), None) && err.None?
      {
        err := ProcessFile(job, svc, names[i], i + 1, |names|);
        StepsSnoc(start, job, svc, names, i, |names|);
        assert Steps(start, job, svc, names[..i + 1], |names|) == Progress(Snapshot(), err);
        if err.Some? {
          StepsHalt(start, job, svc, names, i + 1, |names|);
          assert Steps(start, job, svc, names, |names|) == Progress(Snapshot(), err);
          return;
        }
        i := i + 1;
      }
      assert names[..i] == names;
    }

    /** `process_videos` */
    method ProcessVideos(job: Job, svc: Services) returns (err: Option<Raised>)
      modifies this
      ensures Progress(Snapshot(), err) == Run(old(Snapshot()), job, svc)
    {
      err := MakeOutputDirs(job);
      if err.Some? {
        return;
      }
      if !svc.hasFfmpeg {
        LogLine(FfmpegMissing);
      }
      var names := Discover(Listing(files, job.inDir));
      if names == [] {
        LogLine(NothingFound);
        return;
      }
      LogLine(FoundLine(|names|));
      err := ProcessAll(job, svc, names);
      if err.None? {
        LogLine(Finished);
      }
    }
  }

  /** The loop's next pass extends the run by one step. */
  lemma StepsSnoc(s: State, job: Job, svc: Services, names: seq<string>, i: nat, n: nat)
    requires i < |names|
    ensures var q := Steps(s, job, svc, names[..i], n);
      Steps(s, job, svc, names[..i + 1], n)
      == if q.error.Some? then q else Step(q.state, job, svc, names[i], i + 1, n)
  {
    assert names[..i + 1][..i] == names[..i];
  }

  /** Once an exception stops the loop, the later files change nothing. */
  lemma {:induction false} StepsHalt(s: State, job: Job, svc: Services, names: seq<string>, k: nat, n: nat)
    requires k <= |names| && Steps(s, job, svc, names[..k], n).error.Some?
    ensures Steps(s, job, svc, names, n) == Steps(s, job, svc, names[..k], n)
    decreases |names| - k
  {
    if k < |names| {
      StepsSnoc(s, job, svc, names, k, n);
      StepsHalt(s, job, svc, names, k + 1, n);
    } else {
      assert names[..k] == names;
    }
  }

  // ---- What the run promises ----

  /** `mkdir(parents=True, exist_ok=True)` fails exactly when a file is in the
      way: FileExistsError when it is `p` itself.  Otherwise `p` and all its
      ancestors are folders afterwards, nothing else changes, and the file
      system stays well formed. */
  lemma MkDirMakes(s: State, p: Path)
    requires WellFormed(s)
    ensures var r := MkDir(s, p);
      (r.error.None? <==> forall k :: 0 <= k <= |p| ==> p[..k] !in s.files)
      && (r.error == Some(FileExists(p)) <==> p in s.files)
      && (r.error.Some? ==> r.state == s)
      && (r.error.None? ==>
            WellFormed(r.state) && s.dirs <= r.state.dirs
            && (forall k :: 0 <= k <= |p| ==> p[..k] in r.state.dirs)
            && r.state.files == s.files && r.state.writes == s.writes && r.state.log == s.log)
  {
    var r := MkDir(s, p);
    assert p[..|p|] == p;
    if r.error.None? {
      forall d | d in r.state.dirs && d != []
        ensures Parent(d) in r.state.dirs
      {
        if d !in s.dirs {
          var k :| 0 <= k <= |p| && d == p[..k];
          assert Parent(d) == p[..k - 1];
        }
      }
      forall d | d in r.state.dirs
        ensures d !in s.files
      {
        if d !in s.dirs {
          var k :| 0 <= k <= |p| && d == p[..k];
        }
      }
    }
  }

  /** One `mkdir` of the chain: skipped after an exception, else as MkDirMakes says. */
  lemma MkDirThenMakes(q: Progress, p: Path)
    requires WellFormed(q.state)
    ensures var r := MkDirThen(q, p);
      WellFormed(r.state) && q.state.dirs <= r.state.dirs
      && r.state.files == q.state.files && r.state.writes == q.state.writes && r.state.log == q.state.log
      && (q.error.Some? ==> r == q)
      && (r.error.None? ==> q.error.None? && p in r.state.dirs)
  {
    if q.error.None? {
      MkDirMakes(q.state, p);
      assert p[..|p|] == p;
    }
  }

  /** Preparing the run touches nothing but folders, and keeps the file
      system well formed. */
  lemma PrepareKeepsFiles(s: State, job: Job)
    requires WellFormed(s)
    ensures var p := Prepare(s, job);
      WellFormed(p.state) && s.dirs <= p.state.dirs
      && p.state.files == s.files && p.state.writes == s.writes && p.state.log == s.log
  {
    var d := OutputDirs(job);
    var q0 := MkDir(s, job.outDir);
    MkDirThenMakes(Progress(s, None), job.outDir);
    var q1 := MkDirThen(q0, d.txt);
    MkDirThenMakes(q0, d.txt);
    var q2 := MkDirThen(q1, d.json);
    MkDirThenMakes(q1, d.json);
    MkDirThenMakes(q2, d.pdf);
  }

  /** The output folders are made before the input folder is checked: when it
      turns out not to be a folder, they already exist; when the run goes on,
      the input folder and all the output folders are folders. */
  lemma PrepareMakesDirs(s: State, job: Job)
    requires WellFormed(s)
    ensures var p := Prepare(s, job); var d := OutputDirs(job);
      (p.error.None? || p.error.value.InvalidInput? ==>
         job.outDir in p.state.dirs && d.txt in p.state.dirs && d.json in p.state.dirs && d.pdf in p.state.dirs)
      && (p.error.None? ==> job.inDir in p.state.dirs)
  {
    var d := OutputDirs(job);
    var q0 := MkDir(s, job.outDir);
    MkDirThenMakes(Progress(s, None), job.outDir);
    var q1 := MkDirThen(q0, d.txt);
    MkDirThenMakes(q0, d.txt);
    var q2 := MkDirThen(q1, d.json);
    MkDirThenMakes(q1, d.json);
    var q3 := MkDirThen(q2, d.pdf);
    MkDirThenMakes(q2, d.pdf);
    assert q3.error.None? ==> q2.state.dirs <= q3.state.dirs && q1.state.dirs <= q2.state.dirs && q0.state.dirs <= q1.state.dirs;
  }

  /** The three artifacts of a file never share a path, whatever the folders. */
  lemma ArtifactsDistinct(d: Dirs, isAlnum: char -> bool, name: string)
    ensures var a := ArtifactsOf(d, isAlnum, name);
      a.txt != a.json && a.txt != a.pdf && a.json != a.pdf
  {
    var a := ArtifactsOf(d, isAlnum, name);
    var stem := a.stem;
    assert a.txt[|a.txt| - 1] == stem + ".txt";
    assert a.json[|a.json| - 1] == stem + ".deepgram.json";
    assert a.pdf[|a.pdf| - 1] == stem + ".pdf";
    if |a.txt| == |a.pdf| {
      assert (stem + ".txt")[|stem| + 1] != (stem + ".pdf")[|stem| + 1];
    }
  }

  /** The text saved is the transcript unless stripping it leaves nothing, in
      which case it is the placeholder; either way it is never blank. */
  lemma TextSaved(transcript: string)
    ensures TextToSave(transcript) == if Strip(transcript) == [] then EmptyTranscript else transcript
    ensures !IsBlank(TextToSave(transcript))
  {
    BlankIffStripEmpty(transcript);
    assert EmptyTranscript[0] == '[';
  }

  /** The PDF is written exactly when the output accepts it (a folder in its
      place refuses), and then holds the rendered document; otherwise the
      reason is logged and nothing is written.  "Guardado" follows either way. */
  lemma SavePdfOutcome(s: State, job: Job, svc: Services, a: Artifacts, name: string, text: string,
                       confidence: Option<Json>)
    ensures var r := SavePdf(s, job, svc, a, name, text, confidence);
      var env := PdfEnv(s, svc);
      r.dirs == s.dirs
      && (a.pdf !in s.dirs && svc.pdfOutput(a.pdf).Written? ==>
            r.files == s.files[a.pdf := PdfFile(RenderOps(SplitLines(text), Title(name),
                                                  Some(map["info" := InfoLine(job, confidence)]),
                                                  Chosen(job.fontRegular, job.fontBold, env), job.minimal, env))]
            && r.writes == s.writes + [a.pdf]
            && r.log == s.log + [SavedLine(a.stem)])
      && (a.pdf in s.dirs ==>
            r.files == s.files && r.writes == s.writes
            && r.log == s.log + [PdfErrorLine("[Errno 21] Is a directory: '" + PathText(a.pdf) + "'"), SavedLine(a.stem)])
      && (a.pdf !in s.dirs && svc.pdfOutput(a.pdf).WriteFailed? ==>
            r.files == s.files && r.writes == s.writes
            && r.log == s.log + [PdfErrorLine(svc.pdfOutput(a.pdf).message), SavedLine(a.stem)])
  {
    var env := PdfEnv(s, svc);
    assert env.output(a.pdf) == if a.pdf in s.dirs then WriteFailed("[Errno 21] Is a directory: '" + PathText(a.pdf) + "'") else svc.pdfOutput(a.pdf);
  }

  /** The PDF stage touches no file but the PDF, adds it to the writes
      exactly when it is written, and logs one line more when it is not. */
  lemma SavePdfShape(s: State, job: Job, svc: Services, a: Artifacts, name: string, text: string,
                     confidence: Option<Json>)
    ensures PdfStaged(s, SavePdf(s, job, svc, a, name, text, confidence), a,
                      a.pdf !in s.dirs && svc.pdfOutput(a.pdf).Written?)
  {
    var env := PdfEnv(s, svc);
    assert env.output(a.pdf) == if a.pdf in s.dirs then WriteFailed("[Errno 21] Is a directory: '" + PathText(a.pdf) + "'") else svc.pdfOutput(a.pdf);
    var res := PdfFor(s, job, svc, a, name, text, confidence);
    if res.Success? {
      PdfWritten(s, SavePdf(s, job, svc, a, name, text, confidence), a, PdfFile(res.value));
    } else {
      PdfFailed(s, SavePdf(s, job, svc, a, name, text, confidence), a, PdfErrorLine(res.error));
    }
  }

  lemma PdfWritten(s: State, r: State, a: Artifacts, c: Content)
    requires r == Logged(Put(s, a.pdf, c), SavedLine(a.stem))
    ensures PdfStaged(s, r, a, true)
  {
  }

  lemma PdfFailed(s: State, r: State, a: Artifacts, line: string)
    requires r == Logged(Logged(s, line), SavedLine(a.stem))
    ensures PdfStaged(s, r, a, false)
  {
  }

  /** Before the PDF: the JSON file, then the text file. */
  lemma SaveBeforePdf(s: State, job: Job, svc: Services, a: Artifacts, name: string, reply: Reply)
    requires ExtractTranscript(reply).transcript.JStr?
    requires a.json !in s.dirs && a.txt !in s.dirs
    ensures var e := ExtractTranscript(reply);
      var text := TextToSave(e.transcript.s);
      Save(s, job, svc, a, name, reply)
      == Progress(SavePdf(Put(Put(s, a.json, JsonContent(svc, e, reply)), a.txt, Text(text)),
                          job, svc, a, name, text, e.confidence), None)
  {
  }

  /** What the PDF stage leaves, relative to the state `t` it starts from. */
  predicate PdfStaged(t: State, r: State, a: Artifacts, pdfOk: bool) {
    r.dirs == t.dirs
    && r.files.Keys == t.files.Keys + (if pdfOk then {a.pdf} else {})
    && (forall p :: p in t.files && p != a.pdf ==> r.files[p] == t.files[p])
    && r.writes == t.writes + (if pdfOk then [a.pdf] else [])
    && |r.log| == |t.log| + (if pdfOk then 1 else 2)
    && r.log[..|t.log|] == t.log && r.log[|r.log| - 1] == SavedLine(a.stem)
  }

  /** A save that gets past the text file: the JSON and text writes, then the
      PDF stage. */
  lemma SaveStaged(s: State, job: Job, svc: Services, a: Artifacts, name: string, reply: Reply)
    returns (t: State)
    requires ExtractTranscript(reply).transcript.JStr?
    requires a.json !in s.dirs && a.txt !in s.dirs
    ensures var e := ExtractTranscript(reply);
      t == Put(Put(s, a.json, JsonContent(svc, e, reply)), a.txt, Text(TextToSave(e.transcript.s)))
    ensures Save(s, job, svc, a, name, reply).error.None?
    ensures PdfStaged(t, Save(s, job, svc, a, name, reply).state, a, a.pdf !in s.dirs && svc.pdfOutput(a.pdf).Written?)
  {
    var e := ExtractTranscript(reply);
    var text := TextToSave(e.transcript.s);
    t := Put(Put(s, a.json, JsonContent(svc, e, reply)), a.txt, Text(text));
    SaveBeforePdf(s, job, svc, a, name, reply);
    SavePdfShape(t, job, svc, a, name, text, e.confidence);
  }

  /** The JSON and text writes followed by the PDF stage, seen from before them. */
  lemma StagedFacts(s: State, t: State, r: State, a: Artifacts, jc: Content, tc: Content, pdfOk: bool)
    requires t == Put(Put(s, a.json, jc), a.txt, tc) && PdfStaged(t, r, a, pdfOk)
    ensures r.files.Keys == s.files.Keys + {a.json, a.txt} + (if pdfOk then {a.pdf} else {})
    ensures forall p :: p in s.files && p != a.json && p != a.txt && p != a.pdf ==> p in r.files && r.files[p] == s.files[p]
    ensures r.writes == s.writes + [a.json, a.txt] + (if pdfOk then [a.pdf] else [])
    ensures |r.log| == |s.log| + (if pdfOk then 1 else 2)
    ensures r.log[..|s.log|] == s.log && r.log[|r.log| - 1] == SavedLine(a.stem)
    ensures a.txt != a.pdf ==> a.txt in r.files && r.files[a.txt] == tc
    ensures a.json != a.txt && a.json != a.pdf ==> a.json in r.files && r.files[a.json] == jc
  {
  }

  /** A reply whose transcript is a string is saved when neither the JSON nor
      the text path is a folder, and the JSON file holds the payload, or
      `str(response)` when the payload cannot be serialised. */
  lemma SaveJson(s: State, job: Job, svc: Services, a: Artifacts, name: string, reply: Reply)
    requires a == ArtifactsOf(OutputDirs(job), svc.isAlnum, name)
    requires ExtractTranscript(reply).transcript.JStr?
    requires a.json !in s.dirs && a.txt !in s.dirs
    ensures var r := Save(s, job, svc, a, name, reply);
      r.error.None? && a.json in r.state.files
      && r.state.files[a.json] == JsonContent(svc, ExtractTranscript(reply), reply)
  {
    var e := ExtractTranscript(reply);
    var t := SaveStaged(s, job, svc, a, name, reply);
    ArtifactsDistinct(OutputDirs(job), svc.isAlnum, name);
    StagedFacts(s, t, Save(s, job, svc, a, name, reply).state, a, JsonContent(svc, e, reply),
                Text(TextToSave(e.transcript.s)), a.pdf !in s.dirs && svc.pdfOutput(a.pdf).Written?);
  }

  /** The text file holds the transcript, or the placeholder when it is blank. */
  lemma SaveText(s: State, job: Job, svc: Services, a: Artifacts, name: string, reply: Reply)
    requires a == ArtifactsOf(OutputDirs(job), svc.isAlnum, name)
    requires ExtractTranscript(reply).transcript.JStr?
    requires a.json !in s.dirs && a.txt !in s.dirs
    ensures var r := Save(s, job, svc, a, name, reply);
      a.txt in r.state.files && r.state.files[a.txt] == Text(TextToSave(ExtractTranscript(reply).transcript.s))
  {
    var e := ExtractTranscript(reply);
    var t := SaveStaged(s, job, svc, a, name, reply);
    ArtifactsDistinct(OutputDirs(job), svc.isAlnum, name);
    StagedFacts(s, t, Save(s, job, svc, a, name, reply).state, a, JsonContent(svc, e, reply),
                Text(TextToSave(e.transcript.s)), a.pdf !in s.dirs && svc.pdfOutput(a.pdf).Written?);
  }

  /** Saving adds the JSON and text files, and the PDF exactly when it could
      be written. */
  lemma SaveAdds(s: State, job: Job, svc: Services, a: Artifacts, name: string, reply: Reply)
    requires ExtractTranscript(reply).transcript.JStr?
    requires a.json !in s.dirs && a.txt !in s.dirs
    ensures var r := Save(s, job, svc, a, name, reply);
      var pdfOk := a.pdf !in s.dirs && svc.pdfOutput(a.pdf).Written?;
      r.state.files.Keys == s.files.Keys + {a.json, a.txt} + (if pdfOk then {a.pdf} else {})
  {
    var e := ExtractTranscript(reply);
    var t := SaveStaged(s, job, svc, a, name, reply);
    StagedFacts(s, t, Save(s, job, svc, a, name, reply).state, a, JsonContent(svc, e, reply),
                Text(TextToSave(e.transcript.s)), a.pdf !in s.dirs && svc.pdfOutput(a.pdf).Written?);
  }

  /** No file but the three artifacts changes. */
  lemma SaveKeepsOthers(s: State, job: Job, svc: Services, a: Artifacts, name: string, reply: Reply)
    requires ExtractTranscript(reply).transcript.JStr?
    requires a.json !in s.dirs && a.txt !in s.dirs
    ensures var r := Save(s, job, svc, a, name, reply);
      forall p :: p in s.files && p != a.json && p != a.txt && p != a.pdf ==> p in r.state.files && r.state.files[p] == s.files[p]
  {
    var e := ExtractTranscript(reply);
    var t := SaveStaged(s, job, svc, a, name, reply);
    StagedFacts(s, t, Save(s, job, svc, a, name, reply).state, a, JsonContent(svc, e, reply),
                Text(TextToSave(e.transcript.s)), a.pdf !in s.dirs && svc.pdfOutput(a.pdf).Written?);
  }

  /** The writes of a save come in the order JSON, text, PDF. */
  lemma SaveOrder(s: State, job: Job, svc: Services, a: Artifacts, name: string, reply: Reply)
    requires ExtractTranscript(reply).transcript.JStr?
    requires a.json !in s.dirs && a.txt !in s.dirs
    ensures var r := Save(s, job, svc, a, name, reply);
      var pdfOk := a.pdf !in s.dirs && svc.pdfOutput(a.pdf).Written?;
      r.state.writes == s.writes + [a.json, a.txt] + (if pdfOk then [a.pdf] else [])
  {
    var e := ExtractTranscript(reply);
    var t := SaveStaged(s, job, svc, a, name, reply);
    StagedFacts(s, t, Save(s, job, svc, a, name, reply).state, a, JsonContent(svc, e, reply),
                Text(TextToSave(e.transcript.s)), a.pdf !in s.dirs && svc.pdfOutput(a.pdf).Written?);
  }

  /** The log of a save ends with "Guardado" even when the PDF failed, after
      one line saying why. */
  lemma SaveLog(s: State, job: Job, svc: Services, a: Artifacts, name: string, reply: Reply)
    requires ExtractTranscript(reply).transcript.JStr?
    requires a.json !in s.dirs && a.txt !in s.dirs
    ensures var r := Save(s, job, svc, a, name, reply);
      var pdfOk := a.pdf !in s.dirs && svc.pdfOutput(a.pdf).Written?;
      |r.state.log| == |s.log| + (if pdfOk then 1 else 2)
      && r.state.log[..|s.log|] == s.log && r.state.log[|r.state.log| - 1] == SavedLine(a.stem)
  {
    var e := ExtractTranscript(reply);
    var t := SaveStaged(s, job, svc, a, name, reply);
    StagedFacts(s, t, Save(s, job, svc, a, name, reply).state, a, JsonContent(svc, e, reply),
                Text(TextToSave(e.transcript.s)), a.pdf !in s.dirs && svc.pdfOutput(a.pdf).Written?);
  }

  /** What stops the save, and what it has written by then: nothing when the
      transcript is not a string or the JSON path is a folder, only the JSON
      file when the text path is a folder. */
  lemma SaveFailures(s: State, job: Job, svc: Services, a: Artifacts, name: string, reply: Reply)
    requires a == ArtifactsOf(OutputDirs(job), svc.isAlnum, name)
    ensures var r := Save(s, job, svc, a, name, reply);
      var e := ExtractTranscript(reply);
      (!e.transcript.JStr? ==> r == Progress(s, Some(NoStrip)))
      && (e.transcript.JStr? && a.json in s.dirs ==> r == Progress(s, Some(IsADirectory(a.json))))
      && (e.transcript.JStr? && a.json !in s.dirs && a.txt in s.dirs ==>
            r == Progress(Put(s, a.json, JsonContent(svc, e, reply)), Some(IsADirectory(a.txt))))
      && (r.error.Some? ==> r.state.log == s.log)
  {
  }

  /** The three artifact folders exist. */
  predicate DirsReady(s: State, job: Job) {
    var d := OutputDirs(job);
    d.txt in s.dirs && d.json in s.dirs && d.pdf in s.dirs
  }

  /** A run step that only adds artifacts inside existing folders keeps the
      file system well formed. */
  lemma GrowingKeepsWellFormed(s: State, t: State, a: Artifacts)
    requires WellFormed(s) && Grows(s, t) && AddsWithin(s, t, a)
    requires a.json != [] && a.txt != [] && a.pdf != []
    requires Parent(a.json) in s.dirs && Parent(a.txt) in s.dirs && Parent(a.pdf) in s.dirs
    ensures WellFormed(t)
  {
  }

  /** One pass of the loop keeps the file system well formed once the
      artifact folders exist. */
  lemma StepKeepsWellFormed(s: State, job: Job, svc: Services, name: string, idx: nat, n: nat)
    requires WellFormed(s) && DirsReady(s, job)
    ensures WellFormed(Step(s, job, svc, name, idx, n).state)
  {
    var d := OutputDirs(job);
    var a := ArtifactsOf(d, svc.isAlnum, name);
    assert Parent(a.json) == d.json && Parent(a.txt) == d.txt && Parent(a.pdf) == d.pdf;
    GrowingKeepsWellFormed(s, Step(s, job, svc, name, idx, n).state, a);
  }

  /** So does the whole loop. */
  lemma {:induction false} StepsKeepWellFormed(s: State, job: Job, svc: Services, names: seq<string>, n: nat)
    requires WellFormed(s) && DirsReady(s, job)
    ensures WellFormed(Steps(s, job, svc, names, n).state)
    decreases |names|
  {
    if names != [] {
      var q := Steps(s, job, svc, names[..|names| - 1], n);
      StepsKeepWellFormed(s, job, svc, names[..|names| - 1], n);
      if q.error.None? {
        StepKeepsWellFormed(q.state, job, svc, names[|names| - 1], |names|, n);
      }
    }
  }

  /** `process_videos` leaves a well-formed file system well formed, whether it
      finishes or raises. */
  lemma RunKeepsWellFormed(s: State, job: Job, svc: Services)
    requires WellFormed(s)
    ensures WellFormed(Run(s, job, svc).state)
  {
    var p := Prepare(s, job);
    PrepareKeepsFiles(s, job);
    PrepareMakesDirs(s, job);
    if p.error.None? {
      RunPreparedKeepsWellFormed(p.state, job, svc);
    }
  }

  lemma RunPreparedKeepsWellFormed(s: State, job: Job, svc: Services)
    requires WellFormed(s) && DirsReady(s, job)
    ensures WellFormed(RunPrepared(s, job, svc).state)
  {
    var s1 := Warned(s, svc);
    var names := Discovered(s1, job);
    if names != [] {
      StepsKeepWellFormed(Logged(s1, FoundLine(|names|)), job, svc, names, |names|);
    }
  }

  /** A file is skipped, with nothing written, exactly when overwriting is off
      and its three artifacts exist; the first line logged for it says which. */
  lemma SkipIffDone(s: State, job: Job, svc: Services, name: string, idx: nat, n: nat)
    ensures var r := Step(s, job, svc, name, idx, n);
      var skip := !job.overwrite && Done(s, ArtifactsOf(OutputDirs(job), svc.isAlnum, name));
      |s.log| < |r.state.log|
      && (r.state.log[|s.log|] == SkipLine(idx, n, name) <==> skip)
      && (skip ==> r == Progress(Logged(s, SkipLine(idx, n, name)), None))
  {
    var a := ArtifactsOf(OutputDirs(job), svc.isAlnum, name);
    if job.overwrite || !Done(s, a) {
      var r := Attempt(Logged(s, StartLine(idx, n, name)), job, svc, a, name);
      assert r.state.log[|s.log|] == StartLine(idx, n, name);
      var k := |Counter(idx, n)|;
      assert StartLine(idx, n, name)[k] == 'P' && SkipLine(idx, n, name)[k] == 'O';
    }
  }

  /** A transcription that raises is logged and ends only this file: nothing
      is written and the loop goes on. */
  lemma TranscribeErrorIsolated(s: State, job: Job, svc: Services, name: string, idx: nat, n: nat)
    requires job.overwrite || !Done(s, ArtifactsOf(OutputDirs(job), svc.isAlnum, name))
    requires AudioStage(job.inDir + [name], name, svc).Success?
    requires svc.transcribe(AudioStage(job.inDir + [name], name, svc).value.0).TranscribeError?
    ensures var r := Step(s, job, svc, name, idx, n);
      var stage := AudioStage(job.inDir + [name], name, svc).value;
      r.error.None? && r.state.dirs == s.dirs && r.state.files == s.files && r.state.writes == s.writes
      && r.state.log == s.log + [StartLine(idx, n, name)] + stage.1
                        + [TranscribeErrorLine(svc.transcribe(stage.0).message)]
  {
  }

  /** The file sent for transcription: the WAV exactly when the source is a
      video, ffmpeg is installed and extraction succeeds; the original file
      when ffmpeg is missing or raises CalledProcessError; any other ffmpeg
      failure propagates. */
  lemma AudioFallback(src: Path, name: string, svc: Services)
    ensures var r := AudioStage(src, name, svc);
      var tried := IsVideo(name) && svc.hasFfmpeg;
      (r.Failure? <==> tried && svc.ffmpeg(src).OtherError?)
      && (r.Success? ==> (r.value.0 == ExtractedWav(src) <==> tried && svc.ffmpeg(src).Extracted?))
      && (r.Success? && r.value.0 != ExtractedWav(src) ==> r.value.0 == Original(src))
      && (r.Success? ==> (r.value.1 == [ExtractFailedLine(name)] <==> tried && svc.ffmpeg(src).ProcessError?))
  {
    if IsVideo(name) && svc.hasFfmpeg && svc.ffmpeg(src).Extracted? {
      assert ExtractedLine(name)[2] == '-' && ExtractFailedLine(name)[2] == '!';
    }
  }

  /** The listing holds the names of exactly the files directly in the folder. */
  lemma ListingMembers(files: map<Path, Content>, dir: Path, x: string)
    ensures x in Listing(files, dir) <==> dir + [x] in files
  {
    if x in Listing(files, dir) {
      var p :| p in files && |p| == |dir| + 1 && p[..|dir|] == dir && p[|dir|] == x;
      assert p == dir + [x];
    }
    if dir + [x] in files {
      assert (dir + [x])[..|dir|] == dir;
    }
  }

  /** The files processed are exactly the files of the input folder with a
      supported extension, each once, in ascending order of name. */
  lemma DiscoveredFiles(s: State, job: Job)
    ensures forall x :: x in Discovered(s, job) <==> job.inDir + [x] in s.files && IsCandidate(x)
    ensures var names := Discovered(s, job);
      forall i, j :: 0 <= i < j < |names| ==> LexLe(names[i], names[j]) && names[i] != names[j]
  {
    forall x {
      ListingMembers(s.files, job.inDir, x);
    }
  }

  /** The warning logged before discovery when ffmpeg is missing. */
  function Warnings(svc: Services): seq<string> {
    if svc.hasFfmpeg then [] else [FfmpegMissing]
  }

  /** No line logged after `s` is "Proceso finalizado.". */
  predicate NoClosing(s: State, t: State) {
    forall i :: |s.log| <= i < |t.log| ==> t.log[i] != Finished
  }

  /** "Proceso finalizado." is logged after `s` once, as the last line. */
  predicate ClosesOnce(s: State, t: State) {
    |s.log| < |t.log| && t.log[|t.log| - 1] == Finished
    && forall i :: |s.log| <= i < |t.log| - 1 ==> t.log[i] != Finished
  }

  /** Per-file lines are never the closing line. */
  lemma FileLinesNotClosing(s: State, t: State)
    requires LogsFileLines(s, t)
    ensures NoClosing(s, t)
  {
    assert Finished[0] == 'P';
  }

  /** The lines before the loop are not the closing line either. */
  lemma HeaderNotClosing(s: State, svc: Services, n: nat)
    ensures s.log <= Logged(Warned(s, svc), FoundLine(n)).log
    ensures NoClosing(s, Logged(Warned(s, svc), FoundLine(n)))
    ensures Logged(Warned(s, svc), NothingFound).log == s.log + Warnings(svc) + [NothingFound]
    ensures NoClosing(s, Logged(Warned(s, svc), NothingFound))
  {
    assert Finished[0] == 'P' && FfmpegMissing[0] == 'A' && FoundLine(n)[0] == 'S' && NothingFound[0] == 'N';
  }

  lemma NoClosingChain(s: State, m: State, t: State)
    requires NoClosing(s, m) && NoClosing(m, t) && s.log <= m.log <= t.log
    ensures NoClosing(s, t)
  {
    forall i | |s.log| <= i < |t.log|
      ensures t.log[i] != Finished
    {
      if i < |m.log| {
        assert t.log[i] == m.log[i];
      }
    }
  }

  lemma ClosingAppended(s: State, t: State)
    requires NoClosing(s, t) && s.log <= t.log
    ensures ClosesOnce(s, Logged(t, Finished))
  {
  }

  /** The loop keeps the log and adds no closing line. */
  lemma StepsNotClosing(s: State, t: State, job: Job, svc: Services, names: seq<string>)
    requires NoClosing(s, t) && s.log <= t.log
    ensures var q := Steps(t, job, svc, names, |names|);
      s.log <= q.state.log && NoClosing(s, q.state)
  {
    var q := Steps(t, job, svc, names, |names|);
    FileLinesNotClosing(t, q.state);
    NoClosingChain(s, t, q.state);
  }

  /** After the folders, with nothing to process: the warning, if any, and
      "No se encontraron", and nothing else. */
  lemma RunPreparedEmpty(s: State, job: Job, svc: Services)
    requires Discovered(s, job) == []
    ensures RunPrepared(s, job, svc) == Progress(s.(log := s.log + Warnings(svc) + [NothingFound]), None)
  {
    assert Discovered(Warned(s, svc), job) == Discovered(s, job);
    HeaderNotClosing(s, svc, 0);
  }

  /** After the folders, with files to process and no exception: "Proceso
      finalizado." is logged once, as the last line. */
  lemma RunPreparedCloses(s: State, job: Job, svc: Services)
    requires Discovered(s, job) != [] && RunPrepared(s, job, svc).error.None?
    ensures ClosesOnce(s, RunPrepared(s, job, svc).state)
  {
    var names := Discovered(Warned(s, svc), job);
    assert names == Discovered(s, job);
    HeaderNotClosing(s, svc, |names|);
    StepsNotClosing(s, Logged(Warned(s, svc), FoundLine(|names|)), job, svc, names);
    ClosingAppended(s, Steps(Logged(Warned(s, svc), FoundLine(|names|)), job, svc, names, |names|).state);
  }

  /** After the folders, when an exception stops the loop: the log grows, but
      "Proceso finalizado." is not logged. */
  lemma RunPreparedStops(s: State, job: Job, svc: Services)
    requires RunPrepared(s, job, svc).error.Some?
    ensures s.log <= RunPrepared(s, job, svc).state.log && NoClosing(s, RunPrepared(s, job, svc).state)
  {
    var names := Discovered(Warned(s, svc), job);
    HeaderNotClosing(s, svc, |names|);
    StepsNotClosing(s, Logged(Warned(s, svc), FoundLine(|names|)), job, svc, names);
  }

  /** `process_videos` logs "Proceso finalizado." once, as its last line,
      when it finds files and no exception stops it. */
  lemma RunCloses(s: State, job: Job, svc: Services)
    requires WellFormed(s) && Discovered(s, job) != [] && Run(s, job, svc).error.None?
    ensures ClosesOnce(s, Run(s, job, svc).state)
  {
    var p := Prepare(s, job);
    PrepareKeepsFiles(s, job);
    assert Discovered(p.state, job) == Discovered(s, job);
    RunPreparedCloses(p.state, job, svc);
  }

  /** When an exception stops `process_videos`, "Proceso finalizado." is not
      logged and the earlier log is kept. */
  lemma RunStops(s: State, job: Job, svc: Services)
    requires WellFormed(s) && Run(s, job, svc).error.Some?
    ensures s.log <= Run(s, job, svc).state.log && NoClosing(s, Run(s, job, svc).state)
  {
    var p := Prepare(s, job);
    PrepareKeepsFiles(s, job);
    if p.error.None? {
      RunPreparedStops(p.state, job, svc);
    }
  }

  /** When `process_videos` finds nothing to process it logs the ffmpeg
      warning, if any, and "No se encontraron", and writes nothing. */
  lemma RunNothingFound(s: State, job: Job, svc: Services)
    requires WellFormed(s) && Discovered(s, job) == []
    ensures var r := Run(s, job, svc);
      r.error.None? ==>
        r.state.log == s.log + Warnings(svc) + [NothingFound]
        && r.state.files == s.files && r.state.writes == s.writes
        && NoClosing(s, r.state)
  {
    var p := Prepare(s, job);
    PrepareKeepsFiles(s, job);
    if p.error.None? {
      assert Discovered(p.state, job) == [];
      RunPreparedEmpty(p.state, job, svc);
      HeaderNotClosing(s, svc, 0);
    }
  }

  /** The "Omitiendo" lines of a loop over `names` that skips every file. */
  function SkipLines(names: seq<string>, n: nat): seq<string>
    decreases |names|
  {
    if names == [] then []
    else SkipLines(names[..|names| - 1], n) + [SkipLine(|names|, n, names[|names| - 1])]
  }

  /** Every file of `names` has its three artifacts in `s`. */
  predicate AllDone(s: State, job: Job, svc: Services, names: seq<string>) {
    forall x :: x in names ==> Done(s, ArtifactsOf(OutputDirs(job), svc.isAlnum, x))
  }

  /** One more skipped file: the earlier files are all done, the last one is
      done in the state the earlier skips leave, and its line ends the log. */
  lemma SkipLast(s: State, job: Job, svc: Services, names: seq<string>, n: nat)
    requires names != [] && AllDone(s, job, svc, names)
    ensures var init, q := names[..|names| - 1], s.(log := s.log + SkipLines(names[..|names| - 1], n));
      AllDone(s, job, svc, init)
      && Done(q, ArtifactsOf(OutputDirs(job), svc.isAlnum, names[|names| - 1]))
      && q.log + [SkipLine(|names|, n, names[|names| - 1])] == s.log + SkipLines(names, n)
  {
    var init, x := names[..|names| - 1], names[|names| - 1];
    forall y | y in init
      ensures Done(s, ArtifactsOf(OutputDirs(job), svc.isAlnum, y))
    {
      var k :| 0 <= k < |init| && init[k] == y;
      assert names[k] == y;
    }
    assert x in names;
    AppendLine(s.log, SkipLines(init, n), SkipLine(|names|, n, x));
  }

  lemma AppendLine(log: seq<string>, lines: seq<string>, line: string)
    ensures (log + lines) + [line] == log + (lines + [line])
  {
  }

  /** With overwriting off and every artifact present, the loop logs one
      "Omitiendo" line per file and changes nothing else. */
  lemma {:induction false} StepsSkipAll(s: State, job: Job, svc: Services, names: seq<string>, n: nat)
    requires !job.overwrite && AllDone(s, job, svc, names)
    ensures Steps(s, job, svc, names, n) == Progress(s.(log := s.log + SkipLines(names, n)), None)
    decreases |names|
  {
    if names != [] {
      SkipLast(s, job, svc, names, n);
      StepsSkipAll(s, job, svc, names[..|names| - 1], n);
    }
  }

  /** Artifacts stay present while folders and files are only added. */
  lemma AllDoneGrows(s: State, t: State, job: Job, svc: Services, names: seq<string>)
    requires AllDone(s, job, svc, names) && s.dirs <= t.dirs && s.files.Keys <= t.files.Keys
    ensures AllDone(t, job, svc, names)
  {
  }

  /** The header, the skipped files and the closing line, as one log. */
  lemma SkipRunLog(s: State, svc: Services, names: seq<string>, n: nat)
    ensures var s2 := Logged(Warned(s, svc), FoundLine(n));
      Logged(s2.(log := s2.log + SkipLines(names, n)), Finished)
        == s.(log := s.log + Warnings(svc) + [FoundLine(n)] + SkipLines(names, n) + [Finished])
  {
  }

  /** After the folders, when every file found is done and overwriting is off:
      the header, one "Omitiendo" line per file and the closing line. */
  lemma RunPreparedSkipsAll(s: State, job: Job, svc: Services)
    requires !job.overwrite && Discovered(s, job) != [] && AllDone(s, job, svc, Discovered(s, job))
    ensures var names := Discovered(s, job);
      RunPrepared(s, job, svc)
        == Progress(s.(log := s.log + Warnings(svc) + [FoundLine(|names|)] + SkipLines(names, |names|) + [Finished]), None)
  {
    var names := Discovered(s, job);
    var s2 := Logged(Warned(s, svc), FoundLine(|names|));
    assert Discovered(Warned(s, svc), job) == names;
    AllDoneGrows(s, s2, job, svc, names);
    StepsSkipAll(s2, job, svc, names, |names|);
    SkipRunLog(s, svc, names, |names|);
  }

  /** Running again over processed files without overwriting writes nothing:
      every file found is skipped and the run closes normally. */
  lemma RerunSkipsAll(s: State, job: Job, svc: Services)
    requires WellFormed(s) && !job.overwrite && Prepare(s, job).error.None?
    requires Discovered(s, job) != [] && AllDone(s, job, svc, Discovered(s, job))
    ensures var r, names := Run(s, job, svc), Discovered(s, job);
      r.error.None? && r.state.files == s.files && r.state.writes == s.writes
      && r.state.log == s.log + Warnings(svc) + [FoundLine(|names|)] + SkipLines(names, |names|) + [Finished]
  {
    var p := Prepare(s, job);
    PrepareKeepsFiles(s, job);
    assert Discovered(p.state, job) == Discovered(s, job);
    AllDoneGrows(s, p.state, job, svc, Discovered(s, job));
    RunPreparedSkipsAll(p.state, job, svc);
  }

  /** A save that writes its PDF leaves the file's three artifacts in place,
      which is what the next run's skip test looks for. */
  lemma SaveCompletes(s: State, job: Job, svc: Services, a: Artifacts, name: string, reply: Reply)
    requires ExtractTranscript(reply).transcript.JStr?
    requires a.json !in s.dirs && a.txt !in s.dirs && a.pdf !in s.dirs && svc.pdfOutput(a.pdf).Written?
    ensures Done(Save(s, job, svc, a, name, reply).state, a)
  {
    SaveAdds(s, job, svc, a, name, reply);
    assert a.pdf in s.files.Keys + {a.json, a.txt} + {a.pdf};
  }

  /** Artifacts once present stay present for the rest of the run. */
  lemma DoneKept(s: State, t: State, a: Artifacts)
    requires Done(s, a) && Grows(s, t)
    ensures Done(t, a)
  {
  }
}
