# Batch transcription to text, JSON and PDF — a Dafny model

`batch_transcribe_to_pdf_1.py` walks a folder of recordings. For each video or
audio file it:

1. extracts a mono WAV with ffmpeg when the file is a video and ffmpeg is installed;
2. sends the audio to a speech-to-text service;
3. pulls the transcript and the confidence out of the service's reply;
4. writes three artifacts named after the file's cleaned stem: the raw reply as
   `.deepgram.json`, the transcript as `.txt`, and a rendered `.pdf`.

A file whose three artifacts already exist is skipped unless overwriting is on.
Every step is reported through a log callback.

This project models that core as Dafny, one module per concern:

| module | file | what it models |
|---|---|---|
| `Wrappers` | wrappers.dfy | `Option` and `Result` |
| `PyText` | pytext.dfy | the parts of Python's `str` the program relies on: `isspace`, `strip`, one-character `replace`, `splitlines`, `lower` on file extensions, `str(int)`, and `<=` on strings |
| `CoreFonts` | sanitize.dfy | `_sanitize_for_core_fonts`: its table loop as a method, proved equal to a character-by-character reference |
| `FileNames` | filenames.dfy | `Path.stem`, `Path.suffix` and `clean_filename` |
| `Media` | media.dfy | the extension sets, classification, and sorted discovery |
| `Response` | response.dfy | `extract_transcript_from_response` over a JSON tree, with Python's exceptions made explicit |
| `Fonts` | fonts.dfy | `_find_unicode_font_paths` and the caller's override of its result |
| `Render` | render.dfy | `to_pdf` as a method on an FPDF object (`Pdf`, a class whose field is the list of operations issued), proved against the function `RenderOps` |
| `Batch` | batch.dfy | `process_videos` as methods on a `Workspace` object (folders, files, write order, log), proved against the function `Run` |

The file system, the clock, ffmpeg, the transcription service, `json.dump`'s
success, `str.isalnum`, FPDF's font loading and FPDF's file output are inputs
(the `Services` and `RenderEnv` values). The model fixes what the program does
with any answer they give.

Two details of the code that the model keeps:

- `clean_filename` replaces each space with one underscore. It does not
  collapse runs of spaces.
- `to_pdf` always runs the font search (lines 138-141). A font the caller
  names replaces the search's result in its own slot only. So a caller's
  regular font with no caller bold is paired with whatever bold the search
  found, such as `DejaVuSans-Bold.ttf` beside a font of another family.
  `CallerFontsWin` states that a font the caller names is the one registered
  in its style, and `ChooseFonts` keeps the search's font in the other slot.

Behaviour the model keeps on purpose, because the code has it:

- The output folders are created before the input folder is checked.
- A run that finds nothing logs "No se encontraron …" and returns without
  "Proceso finalizado.".
- "Guardado" is logged even when the PDF could not be written.
- Only `CalledProcessError` from ffmpeg falls back to the original file. Any
  other failure ends the run.
- The Windows font folder is `C:/Windows/Fonts` on every platform.
- Two sources whose cleaned stems coincide, such as `talk.mp4` and
  `talk.wav`, share their artifact paths.

## Model

| member | source | states |
|---|---|---|
| PyText.StripLeft | batch_transcribe_to_pdf_1.py:120 | what `lstrip` removes is all white space and what it keeps is a suffix that does not start with white space |
| PyText.StripRight | batch_transcribe_to_pdf_1.py:120 | what `rstrip` removes is all white space and what it keeps is a prefix that does not end with white space |
| PyText.BlankIffStripEmpty | batch_transcribe_to_pdf_1.py:336 | a string is all white space exactly when `strip()` leaves nothing (the `not x.strip()` tests) |
| PyText.ReplaceChar | batch_transcribe_to_pdf_1.py:42 | after `replace(k, v)` with `k` not in `v` no `k` is left, and a string without `k` is unchanged |
| PyText.ReplaceCharFrom | batch_transcribe_to_pdf_1.py:42 | every character of `s.replace(k, v)` comes from `s` or from `v` |
| PyText.ReplaceCharConcat | batch_transcribe_to_pdf_1.py:41-42 | replacing a character in a concatenation is the concatenation of the two replacements |
| PyText.FirstBreak | batch_transcribe_to_pdf_1.py:187 | the position of the first line terminator, with none before it |
| PyText.SplitLines | batch_transcribe_to_pdf_1.py:187 | `splitlines()` gives no lines exactly for the empty text, and no line holds a terminator; SplitLinesReassemble ties the lines to the text |
| PyText.SplitLinesReassemble | batch_transcribe_to_pdf_1.py:187 | each line followed by the terminator it consumed gives back the text; every line but the last ends with a terminator, the last with one or nothing, a last line that ends with nothing is not empty, so a terminator at the very end opens no empty line, and "\r\n" is one terminator, never "\r" then "\n" |
| PyText.FirstLine | batch_transcribe_to_pdf_1.py:187 | a text with a line break is its first line, one terminator and the rest, and its lines and line ends are those of the rest with one more in front |
| PyText.Lower | batch_transcribe_to_pdf_1.py:297 | the model's lowering keeps the length, turns each of A-Z into its lower-case letter and the Kelvin sign into `k`, leaves none of those characters, and keeps every other character in place |
| PyText.LowerIdempotent | batch_transcribe_to_pdf_1.py:297 | lowering twice is lowering once |
| PyText.LowerUnchanged | batch_transcribe_to_pdf_1.py:297 | text without upper-case letters is its own lower case |
| PyText.NatToString | batch_transcribe_to_pdf_1.py:302 | `str(n)` is a non-empty string of decimal digits |
| PyText.ParseNatToString | batch_transcribe_to_pdf_1.py:302 | reading `str(n)` back as a number gives `n` (round trip) |
| PyText.ParseNatSnoc | batch_transcribe_to_pdf_1.py:302 | a digit appended to a numeral multiplies its value by ten and adds the digit |
| PyText.LexLeReflexive | batch_transcribe_to_pdf_1.py:297 | string order is reflexive |
| PyText.LexLeTotal | batch_transcribe_to_pdf_1.py:297 | string order is total |
| PyText.LexLeAntisymmetric | batch_transcribe_to_pdf_1.py:297 | string order is antisymmetric |
| PyText.LexLeTransitive | batch_transcribe_to_pdf_1.py:297 | string order is transitive |
| CoreFonts.ApplyTable | batch_transcribe_to_pdf_1.py:41-42 | definition of the replacement loop's effect; its meaning is stated by ApplyTableOnChar, ApplyTableConcat and TableMatchesReference |
| CoreFonts.ToLatin1 | batch_transcribe_to_pdf_1.py:44 | the Latin-1 round trip with `'replace'` keeps the length |
| CoreFonts.Sanitize | batch_transcribe_to_pdf_1.py:35-46 | the sanitised text holds only Latin-1 characters and none of the characters the table rewrites |
| CoreFonts.SanitizeChar | batch_transcribe_to_pdf_1.py:35-46 | the per-character reference: the nine table replacements, Latin-1 kept, anything else `?`; its meaning is stated by TableOnChar, ReferenceToLatin1 and SanitizeFixpoint |
| CoreFonts.SanitizeForCoreFonts | batch_transcribe_to_pdf_1.py:35-46 | the table loop followed by the Latin-1 round trip computes the character-by-character reference `Sanitize` |
| CoreFonts.ApplyTableConcat | batch_transcribe_to_pdf_1.py:41-42 | the table applied to a concatenation is the concatenation of its two applications |
| CoreFonts.ToLatin1Concat | batch_transcribe_to_pdf_1.py:44 | the Latin-1 step works character by character |
| CoreFonts.FirstValue | batch_transcribe_to_pdf_1.py:37-40 | a value found for a character comes from an entry of the table with that key |
| CoreFonts.ReplaceCharSingle | batch_transcribe_to_pdf_1.py:42 | on one character `replace` gives the value when the character is the key, else the character |
| CoreFonts.ApplyTableOnChar | batch_transcribe_to_pdf_1.py:41-42 | on one character, a table whose keys are non-ASCII and whose values are ASCII acts as a lookup of the first matching entry |
| CoreFonts.FirstFiveEntries | batch_transcribe_to_pdf_1.py:38 | the lookup over the dash, ellipsis and double-quote entries |
| CoreFonts.FirstValueOfTable | batch_transcribe_to_pdf_1.py:37-40 | the lookup over the whole table gives each of the nine replacements |
| CoreFonts.ReplacementsSeparated | batch_transcribe_to_pdf_1.py:37-40 | every key of the table is outside ASCII and every value inside it, so no entry rewrites another entry's output |
| CoreFonts.ReferenceToLatin1 | batch_transcribe_to_pdf_1.py:43-44 | the Latin-1 step keeps every replacement and every Latin-1 character and turns any other character into `?` |
| CoreFonts.TableOnChar | batch_transcribe_to_pdf_1.py:41-44 | on one character the table and the Latin-1 step give the reference value of that character |
| CoreFonts.ApplyTableEmpty | batch_transcribe_to_pdf_1.py:41-42 | the table leaves the empty string empty |
| CoreFonts.TableMatchesReference | batch_transcribe_to_pdf_1.py:35-46 | on every string the table followed by the Latin-1 step equals the reference `Sanitize` |
| CoreFonts.SanitizeOutsideTable | batch_transcribe_to_pdf_1.py:44 | on text without table characters every Latin-1 character is kept in place and every other one becomes exactly one `?` |
| CoreFonts.SanitizeIdempotent | batch_transcribe_to_pdf_1.py:35-46 | sanitising twice is sanitising once |
| CoreFonts.SanitizeFixpoint | batch_transcribe_to_pdf_1.py:35-46 | a text is left unchanged exactly when it is Latin-1 with no table character (both directions) |
| FileNames.LastDot | batch_transcribe_to_pdf_1.py:305 | the index of the last dot of a name, or -1, with no dot after it |
| FileNames.Suffix | batch_transcribe_to_pdf_1.py:297 | definition of `Path.suffix`; its meaning is stated by StemSuffix and SuffixOfJoin |
| FileNames.Stem | batch_transcribe_to_pdf_1.py:305 | definition of `Path.stem`; its meaning is stated by StemSuffix and SuffixOfJoin |
| FileNames.StemSuffix | batch_transcribe_to_pdf_1.py:305 | stem followed by suffix is the name; a non-empty suffix is a dot and at least one dot-free character, after a non-empty stem |
| FileNames.SuffixOfJoin | batch_transcribe_to_pdf_1.py:297 | a non-empty stem joined with a dot-led, dot-free extension splits back into that stem and that extension |
| FileNames.LastDotAfter | batch_transcribe_to_pdf_1.py:305 | a dot with no dot after it is the last dot |
| FileNames.CleanFilename | batch_transcribe_to_pdf_1.py:118-120 | definition of `clean_filename`; its meaning is stated by CleanFilenameShape and CleanFilenameIdempotent |
| FileNames.KeepSafe | batch_transcribe_to_pdf_1.py:119 | the filter keeps only alphanumerics, space, `-`, `_` and `.`, and never lengthens the name |
| FileNames.ReplaceSpaceShape | batch_transcribe_to_pdf_1.py:120 | replacing spaces with `_` changes each space into one underscore, in place, and nothing else |
| FileNames.StripSlice | batch_transcribe_to_pdf_1.py:120 | every character `strip()` leaves was in its input |
| FileNames.CleanFilenameShape | batch_transcribe_to_pdf_1.py:118-120 | a cleaned name holds no space and only alphanumerics, `-`, `_` and `.`, and is as long as the stripped filtered name, never longer than the input |
| FileNames.CleanFilenameIdempotent | batch_transcribe_to_pdf_1.py:118-120 | cleaning a cleaned name changes nothing |
| FileNames.KeepSafeKeepsSafe | batch_transcribe_to_pdf_1.py:119 | the filter leaves a name made of kept characters unchanged |
| FileNames.StripNothing | batch_transcribe_to_pdf_1.py:120 | `strip()` leaves text without white space unchanged |
| Media.IsCandidate | batch_transcribe_to_pdf_1.py:297 | definition of the discovery filter; its meaning is stated by ClassifyJoin and Discover |
| Media.IsVideo | batch_transcribe_to_pdf_1.py:317 | definition of the video test; its meaning is stated by ClassifyJoin |
| Media.Classify | batch_transcribe_to_pdf_1.py:90-91 | definition of the video/audio/unsupported kind; its meaning is stated by ClassifyKinds and ClassifyJoin |
| Media.ClassifyKinds | batch_transcribe_to_pdf_1.py:90-91 | a file is a video exactly when IsVideo holds, audio exactly when it is a candidate but not a video, and unsupported exactly when it is not a candidate |
| Media.ExtensionsDisjoint | batch_transcribe_to_pdf_1.py:90-91 | no extension is both a video and an audio extension |
| Media.ClassifyJoin | batch_transcribe_to_pdf_1.py:297 | a non-empty stem with a supported extension in any letter case is a candidate, is a video exactly when the extension is a video one, and is classified by that extension |
| Media.LeastExists | batch_transcribe_to_pdf_1.py:297 | every non-empty set of names has a least one |
| Media.LeastUnique | batch_transcribe_to_pdf_1.py:297 | the least name is unique |
| Media.SortedNames | batch_transcribe_to_pdf_1.py:297 | `sorted()` holds every element of the set once, in strictly ascending order |
| Media.Discover | batch_transcribe_to_pdf_1.py:297 | discovery yields exactly the names with a supported extension, each once, in ascending order |
| Media.TalkIsVideo | batch_transcribe_to_pdf_1.py:90 | `talk.mp4` is a candidate and a video |
| Media.UpperCaseIsVideo | batch_transcribe_to_pdf_1.py:297 | `clip.MP4` is a candidate and a video: the suffix is lower-cased before the test |
| Media.NotesIsNotMedia | batch_transcribe_to_pdf_1.py:297 | `notes.txt` is not a candidate |
| Media.DiscoverVideoAndText | batch_transcribe_to_pdf_1.py:297 | a folder with `talk.mp4` and `notes.txt` yields only `talk.mp4` |
| Response.Truthy | batch_transcribe_to_pdf_1.py:219 | Python truthiness of a decoded value, which picks the paragraphs or the flat transcript; its use is stated by ExtractFound and NavigateFindsAlternative |
| Response.Subscript | batch_transcribe_to_pdf_1.py:218 | `v[k]` on a decoded value with KeyError, IndexError and TypeError; its meaning is stated by SubscriptsReach and ExtractMismatch |
| Response.Get | batch_transcribe_to_pdf_1.py:219-220 | `v.get(key, default)`, AttributeError on anything but a dictionary; its meaning is stated by AlternativeReads |
| Response.PyStr | batch_transcribe_to_pdf_1.py:349 | `str()` of the confidence in the f-string; what the "info" line shows is stated by InfoLineShows |
| Response.PyRepr | batch_transcribe_to_pdf_1.py:349 | `repr()` of a decoded value, which `str()` uses for anything but a string; a number shows the text it was decoded from |
| Response.ExtractTranscript | batch_transcribe_to_pdf_1.py:197-226 | an unusable reply gives the error text, an empty payload and no confidence; otherwise the payload is the reply's dictionary; the transcript is a string or a truthy value |
| Response.Payload | batch_transcribe_to_pdf_1.py:203-213 | definition of the payload: `to_dict()`, else the mapping itself, else nothing; its meaning is stated by ExtractTranscript's ensures |
| Response.Navigate | batch_transcribe_to_pdf_1.py:218-221 | definition of the second `try` block; its meaning is stated by ExtractFound, ExtractMismatch and NavigateFindsAlternative |
| Response.ExtractFound | batch_transcribe_to_pdf_1.py:218-221 | on the expected shape the transcript is the truthy paragraphs transcript, else the truthy flat transcript, else "", and the confidence is the alternative's non-null `confidence` |
| Response.SubscriptsReach | batch_transcribe_to_pdf_1.py:219 | on the expected shape the five subscripts succeed and reach the alternative |
| Response.AlternativeReads | batch_transcribe_to_pdf_1.py:220-221 | the `get` calls on the alternative read its fields, with a missing key read as its default |
| Response.ExtractMismatch | batch_transcribe_to_pdf_1.py:222-224 | on any other shape the transcript is "" and there is no confidence |
| Response.NavigateFindsAlternative | batch_transcribe_to_pdf_1.py:218-221 | navigation succeeds only on the expected shape with a usable `paragraphs` (the converse of ExtractFound) |
| Fonts.FirstPair | batch_transcribe_to_pdf_1.py:63-67 | the pair found is the first whose regular file exists, with its bold file only if that exists; no pair is found exactly when no regular file exists |
| Fonts.PairAt | batch_transcribe_to_pdf_1.py:63-67 | one candidate pair in a folder, its bold file only when that exists; its use is stated by FirstPair |
| Fonts.FirstMatch | batch_transcribe_to_pdf_1.py:63-64 | the first pair whose regular file exists; FirstPair states that the loop finds it |
| Fonts.FindUnicodeFontPaths | batch_transcribe_to_pdf_1.py:50-85 | a bold font is found only with a regular one, and every path returned exists |
| Fonts.ChooseFonts | batch_transcribe_to_pdf_1.py:134-141 | definition of the override; its meaning is stated by CallerFontsWin |
| Fonts.SearchOrder | batch_transcribe_to_pdf_1.py:55-85 | a local pair wins whenever one exists; the Windows folder is searched only when no local pair matched and the folder exists; nothing is found exactly when both searches fail |
| Render.Pdf.constructor | batch_transcribe_to_pdf_1.py:130 | a new document has no operations |
| Render.Pdf.AddFont | batch_transcribe_to_pdf_1.py:146-148 | `add_font` succeeds exactly when the file can be loaded, and only then adds the registration |
| Render.Pdf.SetAutoPageBreak | batch_transcribe_to_pdf_1.py:131 | `set_auto_page_break` appends its one operation and changes nothing else |
| Render.Pdf.AddPage | batch_transcribe_to_pdf_1.py:132 | `add_page` appends its one operation and changes nothing else |
| Render.Pdf.SetFont | batch_transcribe_to_pdf_1.py:165-186 | `set_font` appends its one operation and changes nothing else |
| Render.Pdf.Cell | batch_transcribe_to_pdf_1.py:170-175 | `cell` appends its one operation and changes nothing else |
| Render.Pdf.MultiCell | batch_transcribe_to_pdf_1.py:182-192 | `multi_cell` appends its one operation and changes nothing else |
| Render.Pdf.Ln | batch_transcribe_to_pdf_1.py:183-190 | `ln` appends its one operation and changes nothing else |
| Render.UsingCore | batch_transcribe_to_pdf_1.py:143-158 | definition of core mode; its meaning is stated by CoreModeIff and RegisterFonts |
| Render.Chosen | batch_transcribe_to_pdf_1.py:134-141 | the search followed by the caller's override; its meaning is stated by CallerFontsWin and MissingFontIsCore |
| Render.FontOps | batch_transcribe_to_pdf_1.py:143-156 | the registrations the try block makes; their meaning is stated by FontOpsShape and RegisterFonts |
| Render.FontsUsed | batch_transcribe_to_pdf_1.py:143-162 | the header, body and meta fonts, Helvetica in core mode; their meaning is stated by CoreModeIff and RegisterFonts |
| Render.Fit | batch_transcribe_to_pdf_1.py:168-190 | text is sanitised exactly when written in a core font; its meaning is stated by FitText, CoreTextIsSanitized and UnicodeBodyUnchanged |
| Render.TitleDashes | batch_transcribe_to_pdf_1.py:167 | the title's two dash replacements; their meaning is stated by TitleDashesClean |
| Render.TitleDashesClean | batch_transcribe_to_pdf_1.py:167 | the title keeps no em dash and no en dash, and a title with neither is unchanged |
| Render.RenderOps | batch_transcribe_to_pdf_1.py:130-194 | definition of the document's operations; its meaning is stated by Parts, CoreModeIff, CoreTextIsSanitized, UnicodeBodyUnchanged, HeaderBlock and OnlySetupRegisters |
| Render.HeaderOps | batch_transcribe_to_pdf_1.py:165-183 | definition of the header; its meaning is stated by HeaderShape and HeaderTextsSanitized |
| Render.LineOp | batch_transcribe_to_pdf_1.py:188-194 | definition of one body line's operation; its meaning is stated by BodyLines |
| Render.BodyOps | batch_transcribe_to_pdf_1.py:186-194 | definition of the body; its meaning is stated by BodyOpsAt and BodyLines |
| Render.ToPdf | batch_transcribe_to_pdf_1.py:123-196 | the method builds exactly the operations of `RenderOps` and returns them when the output is written, else the output's error message |
| Render.PdfResult | batch_transcribe_to_pdf_1.py:196 | the document's operations when `output` succeeds, else the error; ToPdf states that the method returns it |
| Render.RegisterFonts | batch_transcribe_to_pdf_1.py:143-162 | the registration step issues exactly the `add_font` calls that succeed and picks the core fonts exactly in core mode |
| Render.WriteHeader | batch_transcribe_to_pdf_1.py:165-183 | the header issues the title, the "Generated" line, the optional "Info" line and a gap (`HeaderOps`) |
| Render.FitText | batch_transcribe_to_pdf_1.py:168-169 | text is sanitised exactly when the font is a core one |
| Render.WriteBody | batch_transcribe_to_pdf_1.py:186-194 | the body loop issues `BodyOps`, one operation per line (loop invariant) |
| Render.BodyOpsAt | batch_transcribe_to_pdf_1.py:187-194 | each line gives exactly one operation, at its own position |
| Render.BodyLines | batch_transcribe_to_pdf_1.py:187-194 | a blank line (after sanitising) becomes a 4-unit gap, any other line one text block with its fitted text; no text block is blank |
| Render.FontOpsShape | batch_transcribe_to_pdf_1.py:143-148 | registration registers only "U": the regular font under the regular style and the bold one under the bold style |
| Render.HeaderShape | batch_transcribe_to_pdf_1.py:165-183 | the header writes the title and "Generated" cells and the "Info" block exactly when `meta` has "info", and sets only the header and meta fonts |
| Render.Parts | batch_transcribe_to_pdf_1.py:130-194 | a document is page set-up, registrations, header, body font and body, in that order |
| Render.CoreModeIff | batch_transcribe_to_pdf_1.py:143-162 | every font set is Helvetica in core mode and "U" otherwise, and the body font is set |
| Render.FontSetFamily | batch_transcribe_to_pdf_1.py:149-162 | the header, body and meta fonts in use share one family |
| Render.FontsInParts | batch_transcribe_to_pdf_1.py:164-186 | fonts of one family in every part are fonts of that family in the whole document |
| Render.CoreTextIsSanitized | batch_transcribe_to_pdf_1.py:164-194 | in core mode every text written (title, "Generated", "Info", body) is already sanitised |
| Render.HeaderTextsSanitized | batch_transcribe_to_pdf_1.py:165-182 | in core fonts every header text is already sanitised |
| Render.LabelSanitized | batch_transcribe_to_pdf_1.py:180-182 | the "Info: " label in front of a sanitised text keeps it sanitised |
| Render.HeaderTexts | batch_transcribe_to_pdf_1.py:170-182 | header operations that carry only sanitised texts are sanitised |
| Render.BodyTextsSanitized | batch_transcribe_to_pdf_1.py:189-194 | in a core font every body text block is already sanitised |
| Render.UnicodeBodyUnchanged | batch_transcribe_to_pdf_1.py:186-194 | in Unicode mode the document ends with one operation per line, each line written exactly as it is |
| Render.LinesAtEnd | batch_transcribe_to_pdf_1.py:186-194 | a document ending with the body's operations has them at its last positions |
| Render.UnicodeBodyFont | batch_transcribe_to_pdf_1.py:152 | outside core mode the body font is not a core font |
| Render.UnicodeBodyOps | batch_transcribe_to_pdf_1.py:188-194 | in a Unicode font each body line is written unchanged |
| Render.HeaderBlock | batch_transcribe_to_pdf_1.py:165-183 | with `minimal` no cell is written and the document has exactly set-up, registrations, body font and one operation per line; without it the title, "Generated" and (with "info") "Info" lines are all written |
| Render.OnlySetupRegisters | batch_transcribe_to_pdf_1.py:143-148 | every font registration of the document comes from the registration step |
| Render.CallerFontsWin | batch_transcribe_to_pdf_1.py:134-141 | a font the caller names is the only font registered in its style |
| Batch.MkDir | batch_transcribe_to_pdf_1.py:275 | definition of `mkdir(parents=True, exist_ok=True)`; its meaning is stated by MkDirMakes |
| Batch.OutputDirs | batch_transcribe_to_pdf_1.py:278-280 | a folder given by the caller, else `txt`, `json` or `pdf` inside the output folder; that they exist after set-up is stated by PrepareMakesDirs |
| Batch.Prepare | batch_transcribe_to_pdf_1.py:273-286 | definition of the folder set-up and input check; its meaning is stated by PrepareKeepsFiles and PrepareMakesDirs |
| Batch.ArtifactsOf | batch_transcribe_to_pdf_1.py:305-308 | definition of the artifact paths; its meaning is stated by ArtifactsDistinct |
| Batch.Title | batch_transcribe_to_pdf_1.py:351 | the document title after the raw stem; its place in the header is stated by HeaderShape and HeaderBlock |
| Batch.PdfEnv | batch_transcribe_to_pdf_1.py:350-353 | where `to_pdf` runs: only an existing file can be registered as a font, and a folder in the way of the output raises IsADirectoryError; stated by MissingFontIsCore and SaveFailures |
| Batch.PdfFor | batch_transcribe_to_pdf_1.py:349-353 | the `to_pdf` call with its title, meta and fonts; its outcome is stated by SavePdfOutcome |
| Batch.JsonContent | batch_transcribe_to_pdf_1.py:339-344 | the payload's dump, or `str(response)` when the dump fails; stated by SaveJson |
| Batch.InfoLine | batch_transcribe_to_pdf_1.py:349 | definition of the "info" entry; its meaning is stated by InfoLineShows |
| Batch.InfoLineShows | batch_transcribe_to_pdf_1.py:349 | the "info" line starts with the model and ends with the confidence as `str()` shows it, or "n/a" without one |
| Batch.TextToSave | batch_transcribe_to_pdf_1.py:336-337 | definition of the text saved; its meaning is stated by TextSaved |
| Batch.MissingFontIsCore | batch_transcribe_to_pdf_1.py:143-162 | a caller-named regular font that is not an existing file cannot be registered, and the document uses the core fonts |
| Batch.RunPrepared | batch_transcribe_to_pdf_1.py:293-357 | definition of the run after the folders; its meaning is stated by RunPreparedEmpty, RunPreparedCloses, RunPreparedStops and RunPreparedSkipsAll |
| Batch.Warned | batch_transcribe_to_pdf_1.py:293-295 | the ffmpeg warning exactly when ffmpeg is missing; stated by RunNothingFound |
| Batch.Listing | batch_transcribe_to_pdf_1.py:297 | the names of the regular files directly in the folder; stated by ListingMembers |
| Batch.Discovered | batch_transcribe_to_pdf_1.py:297-302 | the supported files of the input folder, sorted; stated by DiscoveredFiles |
| Batch.Run | batch_transcribe_to_pdf_1.py:254-357 | definition of `process_videos` as a function; its meaning is stated by RunCloses, RunStops, RunNothingFound, RerunSkipsAll and RunKeepsWellFormed |
| Batch.WriteTo | batch_transcribe_to_pdf_1.py:340-347 | a write only adds, and adds at most the file written, which is not a folder |
| Batch.AudioStage | batch_transcribe_to_pdf_1.py:316-326 | the lines logged by the audio stage are per-file lines |
| Batch.SavePdf | batch_transcribe_to_pdf_1.py:349-355 | the PDF stage only adds, only adds the artifacts, and logs only per-file lines |
| Batch.Save | batch_transcribe_to_pdf_1.py:334-355 | saving only adds, only adds the artifacts, and logs only per-file lines |
| Batch.Step | batch_transcribe_to_pdf_1.py:304-355 | one pass of the loop only adds, only adds the file's artifacts, and logs only per-file lines |
| Batch.LoggedFirst | batch_transcribe_to_pdf_1.py:314 | the "Procesando" line keeps the invariants of what follows it |
| Batch.Attempt | batch_transcribe_to_pdf_1.py:316-355 | extraction, transcription and saving only add, only add the artifacts, and log only per-file lines |
| Batch.Steps | batch_transcribe_to_pdf_1.py:304-355 | the loop only adds and logs only per-file lines |
| Batch.Workspace.constructor | batch_transcribe_to_pdf_1.py:254-269 | the workspace starts from the given folders, files, writes and log |
| Batch.Workspace.LogLine | batch_transcribe_to_pdf_1.py:258 | `log_callback` appends one line |
| Batch.Workspace.MakeDir | batch_transcribe_to_pdf_1.py:275 | `mkdir(parents=True, exist_ok=True)` changes the state as `MkDir` says and raises as it says |
| Batch.Workspace.WriteFile | batch_transcribe_to_pdf_1.py:340-347 | a write changes the state as `WriteTo` says and raises on a folder |
| Batch.Workspace.MakeOutputDirs | batch_transcribe_to_pdf_1.py:273-286 | making the folders and checking the input folder is `Prepare` |
| Batch.Workspace.RenderPdf | batch_transcribe_to_pdf_1.py:349-355 | the `to_pdf` call with its `try` and the "Guardado" line is `SavePdf` |
| Batch.Workspace.SaveArtifacts | batch_transcribe_to_pdf_1.py:334-355 | the JSON, text and PDF stage is `Save` |
| Batch.Workspace.PrepareAudio | batch_transcribe_to_pdf_1.py:316-326 | the audio stage returns the source and logs the lines of `AudioStage`, or raises its error with the state unchanged |
| Batch.Workspace.ProcessFile | batch_transcribe_to_pdf_1.py:304-355 | one pass of the loop is `Step` |
| Batch.Workspace.ProcessAll | batch_transcribe_to_pdf_1.py:304-355 | the loop is `Steps`, stopping at the first exception (loop invariant) |
| Batch.Workspace.ProcessVideos | batch_transcribe_to_pdf_1.py:254-357 | `process_videos` leaves the state and raises the exception that `Run` gives |
| Batch.StepsSnoc | batch_transcribe_to_pdf_1.py:304 | the loop over one more file is one more step |
| Batch.StepsHalt | batch_transcribe_to_pdf_1.py:304-355 | after an exception the remaining files change nothing |
| Batch.MkDirMakes | batch_transcribe_to_pdf_1.py:275 | `mkdir` fails exactly when a file is at the path or above it (FileExistsError exactly when at it), changes nothing when it fails, and otherwise makes the path and its ancestors, changes no file and keeps the tree well formed |
| Batch.MkDirThenMakes | batch_transcribe_to_pdf_1.py:281-283 | a chained `mkdir` is skipped after an exception and otherwise makes its folder |
| Batch.PrepareKeepsFiles | batch_transcribe_to_pdf_1.py:273-286 | preparing touches only folders and keeps the tree well formed |
| Batch.PrepareMakesDirs | batch_transcribe_to_pdf_1.py:273-286 | the output folders exist even when the input folder turns out invalid, and a run that goes on has the input folder |
| Batch.ArtifactsDistinct | batch_transcribe_to_pdf_1.py:306-308 | the three artifacts of a file never share a path |
| Batch.TextSaved | batch_transcribe_to_pdf_1.py:336-337 | the text saved is the transcript unless stripping leaves nothing, then the placeholder; it is never blank |
| Batch.SavePdfOutcome | batch_transcribe_to_pdf_1.py:349-355 | the PDF holds the rendered document exactly when the output accepts it; otherwise the reason (a folder in the way, or the output's error) is logged; "Guardado" follows in both cases |
| Batch.SavePdfShape | batch_transcribe_to_pdf_1.py:350-355 | the PDF stage touches no file but the PDF, writes it exactly when it can, and logs one or two lines ending with "Guardado" |
| Batch.PdfWritten | batch_transcribe_to_pdf_1.py:351-355 | a written PDF followed by "Guardado" is a successful PDF stage |
| Batch.PdfFailed | batch_transcribe_to_pdf_1.py:352-355 | an error line followed by "Guardado" is a failed PDF stage |
| Batch.SaveBeforePdf | batch_transcribe_to_pdf_1.py:339-351 | the JSON file is written first, the text file second, then the PDF stage runs |
| Batch.SaveStaged | batch_transcribe_to_pdf_1.py:339-355 | a save that gets past the text file raises nothing and ends with the PDF stage |
| Batch.StagedFacts | batch_transcribe_to_pdf_1.py:339-355 | the files, writes and log after the JSON and text writes and the PDF stage, seen from before them |
| Batch.SaveJson | batch_transcribe_to_pdf_1.py:339-344 | the JSON file holds the payload, or `str(response)` when the payload cannot be serialised |
| Batch.SaveText | batch_transcribe_to_pdf_1.py:336-347 | the text file holds the transcript, or the placeholder when the transcript is blank |
| Batch.SaveAdds | batch_transcribe_to_pdf_1.py:339-353 | saving adds the JSON and text files, and the PDF exactly when it can be written |
| Batch.SaveKeepsOthers | batch_transcribe_to_pdf_1.py:339-353 | no file but the three artifacts changes |
| Batch.SaveOrder | batch_transcribe_to_pdf_1.py:339-353 | the writes come in the order JSON, text, PDF |
| Batch.SaveLog | batch_transcribe_to_pdf_1.py:350-355 | the save's log ends with "Guardado" even when the PDF failed, after one line saying why |
| Batch.SaveFailures | batch_transcribe_to_pdf_1.py:336-347 | a transcript that is not a string raises with nothing written; a folder at the JSON path raises with nothing written; a folder at the text path raises after the JSON file; a failed save logs nothing |
| Batch.GrowingKeepsWellFormed | batch_transcribe_to_pdf_1.py:339-353 | adding the artifacts inside existing folders keeps the tree well formed |
| Batch.StepKeepsWellFormed | batch_transcribe_to_pdf_1.py:304-355 | one pass keeps the tree well formed once the artifact folders exist |
| Batch.StepsKeepWellFormed | batch_transcribe_to_pdf_1.py:304-355 | the loop keeps the tree well formed |
| Batch.RunKeepsWellFormed | batch_transcribe_to_pdf_1.py:254-357 | a run leaves a well-formed tree well formed, whether it finishes or raises |
| Batch.RunPreparedKeepsWellFormed | batch_transcribe_to_pdf_1.py:293-357 | the part of the run after the folders keeps the tree well formed |
| Batch.SkipIffDone | batch_transcribe_to_pdf_1.py:310-314 | a file is skipped, with nothing changed but the "Omitiendo" line, exactly when overwriting is off and its three artifacts exist |
| Batch.TranscribeErrorIsolated | batch_transcribe_to_pdf_1.py:328-332 | a failed transcription is logged, writes nothing and does not stop the loop |
| Batch.AudioFallback | batch_transcribe_to_pdf_1.py:316-326 | the WAV is sent exactly when a video is extracted with ffmpeg installed; otherwise the original file is sent; only CalledProcessError logs the fallback line; any other ffmpeg failure propagates |
| Batch.ListingMembers | batch_transcribe_to_pdf_1.py:297 | the listing holds exactly the names of the files directly in the folder |
| Batch.DiscoveredFiles | batch_transcribe_to_pdf_1.py:297 | the files processed are exactly the input folder's files with a supported extension, each once, in ascending order |
| Batch.FileLinesNotClosing | batch_transcribe_to_pdf_1.py:311-355 | per-file lines are never "Proceso finalizado." |
| Batch.HeaderNotClosing | batch_transcribe_to_pdf_1.py:294-302 | the warning, "Se encontraron" and "No se encontraron" lines are not the closing line, and the empty-discovery log is the warning followed by "No se encontraron" |
| Batch.NoClosingChain | batch_transcribe_to_pdf_1.py:304-357 | two stretches of log without the closing line make one |
| Batch.ClosingAppended | batch_transcribe_to_pdf_1.py:357 | appending the closing line to a log without it logs it once, last |
| Batch.StepsNotClosing | batch_transcribe_to_pdf_1.py:304-355 | the loop keeps the log and adds no closing line |
| Batch.RunPreparedEmpty | batch_transcribe_to_pdf_1.py:293-300 | with nothing found, only the warning and "No se encontraron" are logged, and nothing else changes |
| Batch.RunPreparedCloses | batch_transcribe_to_pdf_1.py:302-357 | with files found and no exception, "Proceso finalizado." is logged once, last |
| Batch.RunPreparedStops | batch_transcribe_to_pdf_1.py:304-357 | after an exception the log is kept and no closing line is logged |
| Batch.RunCloses | batch_transcribe_to_pdf_1.py:254-357 | a run that finds files and raises nothing logs "Proceso finalizado." once, last |
| Batch.RunStops | batch_transcribe_to_pdf_1.py:254-357 | a run that raises keeps its earlier log and never logs "Proceso finalizado." |
| Batch.RunNothingFound | batch_transcribe_to_pdf_1.py:297-300 | a run that finds nothing logs only the warning and "No se encontraron", writes nothing and does not log "Proceso finalizado." |
| Batch.SkipLast | batch_transcribe_to_pdf_1.py:310-312 | in a loop that skips every file, the last file is still done when its turn comes and its "Omitiendo" line ends the log |
| Batch.StepsSkipAll | batch_transcribe_to_pdf_1.py:304-312 | with overwriting off and all artifacts present, the loop logs one "Omitiendo" per file and changes nothing else |
| Batch.AllDoneGrows | batch_transcribe_to_pdf_1.py:310 | artifacts stay present while folders and files are only added |
| Batch.SkipRunLog | batch_transcribe_to_pdf_1.py:294-357 | the warning, the count line, the skip lines and the closing line form the run's log |
| Batch.RunPreparedSkipsAll | batch_transcribe_to_pdf_1.py:293-357 | after the folders, with everything done and overwriting off, the log is the header, one "Omitiendo" per file and the closing line, and nothing else changes |
| Batch.RerunSkipsAll | batch_transcribe_to_pdf_1.py:254-357 | a run over processed files without overwriting writes nothing, skips every file and closes normally |
| Batch.SaveCompletes | batch_transcribe_to_pdf_1.py:339-353 | a save that writes its PDF leaves all three artifacts, which is what the next run's skip test looks for |
| Batch.DoneKept | batch_transcribe_to_pdf_1.py:310 | artifacts once present stay present for the rest of the run |

## Left out

- `main` (lines 360-401) is not part of this model: argument parsing, `.env` loading, the API key check and the call into `process_videos`.
- gui.py is not part of this model. It is a caller that runs `process_videos` on a thread and shows the log lines.
- `has_ffmpeg`, `extract_audio_with_ffmpeg` and `transcribe_audio_file` (lines 93-116 and 228-252) start processes and call the network. They are the oracles `hasFfmpeg`, `ffmpeg` and `transcribe`.
- The service client, the API key, `model` and `smart_format` (lines 289-290) are not modelled as such. `model` only appears in the "info" line, and the call's options belong to the `transcribe` oracle.
- The temporary folder that holds the WAV is not modelled. Its lifetime ends with the `with` block, and the `continue` at line 332 leaves that block.
- `datetime.now()` is the parameter `now`. `expanduser` and `resolve` are applied by the caller: folder and font paths arrive resolved.
- `json.dump`'s formatting and partial output are not modelled. The `dumps` oracle only says whether the payload serialises.
- PyText.Lower: lowers only A-Z and the Kelvin sign U+212A and leaves every other character alone. Python's `lower()` also changes other characters, and U+0130 even becomes two code points. None of those results is an ASCII letter or dot, so none can change whether a suffix is in the extension sets.
- Media.Discover: orders names code point by code point, as POSIX path order does. The case-insensitive order of Windows paths is not modelled.
- Batch.WriteTo / Batch.MkDir: only a folder in the way makes them fail; permissions, read-only file systems and full disks are not modelled. In the program any such `OSError` from `open` or `mkdir` ends the run.
- PathText: writes POSIX absolute paths only. It does not model Windows drive syntax.
- PyRepr: does not escape quotes or backslashes inside strings.
- FPDF's layout, page breaks, glyph coverage and PDF encoding are not modelled. The document is the sequence of calls made on it, and the outcome of `output` is an oracle.
- Response.ExtractTranscript: does not model the text of the exceptions the navigation raises. The source discards them.
- Batch.Save: models the AttributeError of `.strip()` on a non-string transcript only as `NoStrip`. Its message is not modelled.
- Batch.MkDir: does not model the text of FileExistsError and NotADirectoryError. Only the path is kept.
- Batch.RerunSkipsAll: takes as a premise that every discovered file has its artifacts. SaveCompletes and DoneKept connect this to an earlier run one file at a time; no single lemma composes two whole runs.
- The property that two sources with the same cleaned stem share their artifacts is kept in the model but not proved as a lemma.
