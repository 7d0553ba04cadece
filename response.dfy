/** `extract_transcript_from_response`: turns the transcription service's reply
    into (transcript, full payload, confidence) without ever raising.  The reply
    is a generic JSON-like tree; Python's subscripting and `dict.get` are
    modelled with the exceptions they raise, and the source's `try`/`except`
    turns every one of them into the empty transcript. */
module Response {
  import opened Wrappers

  /** A decoded JSON value.  A number keeps its value (for truthiness) and the
      text Python's `str()` gives for it; an object keeps its fields in order. */
  datatype Json =
    | JNull
    | JBool(b: bool)
    | JNum(value: real, text: string)
    | JStr(s: string)
    | JArr(items: seq<Json>)
    | JObj(fields: seq<Field>)

  datatype Field = Field(key: string, value: Json)

  /** What the transcription call hands back: an SDK object whose `to_dict()`
      gives the payload, a plain mapping (it has `keys`), or anything else. */
  datatype Reply =
    | SdkObject(asDict: Json)
    | Mapping(fields: seq<Field>)
    | Unusable

  /** The exceptions Python raises while navigating the payload. */
  datatype PyError = KeyError | IndexError | TypeError | AttributeError

  datatype Key = Name(name: string) | Pos(index: int)

  const ErrorTranscript := "[Error: Could not process response object]"

  /** The result triple of the source. */
  datatype Extraction = Extraction(transcript: Json, data: Json, confidence: Option<Json>)

  /** Python truthiness of a JSON value. */
  predicate Truthy(j: Json) {
    match j
    case JNull => false
    case JBool(b) => b
    case JNum(v, _) => v != 0.0
    case JStr(s) => s != []
    case JArr(items) => items != []
    case JObj(fields) => fields != []
  }

  /** Dictionary lookup (keys of one object are distinct, so the first match is the entry). */
  function Lookup(fields: seq<Field>, key: string): Option<Json> {
    if fields == [] then None
    else if fields[0].key == key then Some(fields[0].value)
    else Lookup(fields[1..], key)
  }

  /** `v[k]`: objects take string keys, lists and strings take integer
      positions (negative ones count from the end); anything else is a TypeError. */
  function Subscript(v: Json, k: Key): Result<Json, PyError> {
    match (v, k)
    case (JObj(fs), Name(n)) =>
      var r := Lookup(fs, n);
      if r.Some? then Success(r.value) else Failure(KeyError)
    case (JObj(_), Pos(_)) => Failure(KeyError)
    case (JArr(items), Pos(i)) =>
      if 0 <= i < |items| then Success(items[i])
      else if -|items| <= i < 0 then Success(items[|items| + i])
      else Failure(IndexError)
    case (JStr(s), Pos(i)) =>
      if 0 <= i < |s| then Success(JStr([s[i]]))
      else if -|s| <= i < 0 then Success(JStr([s[|s| + i]]))
      else Failure(IndexError)
    case _ => Failure(TypeError)
  }

  /** `v.get(key, default)`: only a dictionary has `get`.  A stored JSON null
      reads as Python's `None`, which is what JNull stands for. */
  function Get(v: Json, key: string, default: Json): Result<Json, PyError> {
    match v
    case JObj(fs) => var r := Lookup(fs, key); Success(if r.Some? then r.value else default)
    case _ => Failure(AttributeError)
  }

  /** The body of the source's second `try`: the alternative's transcript (a
      truthy paragraphs transcript first, then a truthy flat transcript, else
      the empty string) and its confidence, or the exception that stopped it. */
  function Navigate(data: Json): Result<(Json, Option<Json>), PyError> {
    var results :- Subscript(data, Name("results"));
    var channels :- Subscript(results, Name("channels"));
    var channel :- Subscript(channels, Pos(0));
    var alternatives :- Subscript(channel, Name("alternatives"));
    var alt :- Subscript(alternatives, Pos(0));
    var paragraphs :- Get(alt, "paragraphs", JObj([]));
    var fromParagraphs :- Get(paragraphs, "transcript", JNull);
    var transcript :-
      if Truthy(fromParagraphs) then Success(fromParagraphs)
      else
        var flat :- Get(alt, "transcript", JStr(""));
        Success(if Truthy(flat) then flat else JStr(""));
    var confidence :- Get(alt, "confidence", JNull);
    Success((transcript, if confidence == JNull then None else Some(confidence)))
  }

  /** `extract_transcript_from_response` */
  function ExtractTranscript(reply: Reply): (e: Extraction)
    ensures reply.Unusable? ==> e == Extraction(JStr(ErrorTranscript), JObj([]), None)
    ensures reply.SdkObject? ==> e.data == reply.asDict
    ensures reply.Mapping? ==> e.data == JObj(reply.fields)
    ensures e.transcript.JStr? || Truthy(e.transcript)
  {
    match Payload(reply)
    case None => Extraction(JStr(ErrorTranscript), JObj([]), None)
    case Some(data) =>
      match Navigate(data)
      case Success((t, c)) => Extraction(t, data, c)
      case Failure(_) => Extraction(JStr(""), data, None)
  }

  /** `data = response_obj.to_dict()`, falling back to the object itself when
      it has `keys`; nothing for any other object. */
  function Payload(reply: Reply): Option<Json> {
    match reply
    case SdkObject(d) => Some(d)
    case Mapping(fs) => Some(JObj(fs))
    case Unusable => None
  }

  // ---- The expected shape, stated without Python's evaluation rules ----

  /** `results.channels[0].alternatives[0]` of `data` is the object `alt`. */
  predicate AlternativeAt(data: Json, alt: seq<Field>) {
    data.JObj?
    && var results := Lookup(data.fields, "results");
    results.Some? && results.value.JObj?
    && var channels := Lookup(results.value.fields, "channels");
    channels.Some? && channels.value.JArr? && channels.value.items != []
    && var channel := channels.value.items[0];
    channel.JObj?
    && var alternatives := Lookup(channel.fields, "alternatives");
    alternatives.Some? && alternatives.value.JArr? && alternatives.value.items != []
    && alternatives.value.items[0] == JObj(alt)
  }

  /** `paragraphs` is absent or an object: the only other way navigation can fail. */
  predicate ParagraphsUsable(alt: seq<Field>) {
    var p := Lookup(alt, "paragraphs");
    p.None? || p.value.JObj?
  }

  /** A value missing from an object reads as JNull. */
  function GetOrNull(fields: seq<Field>, key: string): Json {
    var r := Lookup(fields, key);
    if r.Some? then r.value else JNull
  }

  function ParagraphsTranscript(alt: seq<Field>): Json
    requires ParagraphsUsable(alt)
  {
    var p := Lookup(alt, "paragraphs");
    if p.None? then JNull else GetOrNull(p.value.fields, "transcript")
  }

  /** When the expected shape is there, the transcript is the paragraphs
      transcript if it is truthy, else the flat transcript if it is truthy, else
      the empty string; the confidence is the alternative's non-null
      `confidence`; the payload is passed on unchanged. */
  lemma ExtractFound(reply: Reply, alt: seq<Field>)
    requires !reply.Unusable?
    requires AlternativeAt(ExtractTranscript(reply).data, alt) && ParagraphsUsable(alt)
    ensures var e := ExtractTranscript(reply);
      var pt, ft := ParagraphsTranscript(alt), GetOrNull(alt, "transcript");
      e.transcript == (if Truthy(pt) then pt else if Truthy(ft) then ft else JStr(""))
      && e.confidence == (if GetOrNull(alt, "confidence") == JNull then None else Some(GetOrNull(alt, "confidence")))
  {
    var data := Payload(reply).value;
    SubscriptsReach(data, alt);
    AlternativeReads(alt);
  }

  /** On the expected shape the five subscripts reach the alternative. */
  lemma SubscriptsReach(data: Json, alt: seq<Field>)
    requires AlternativeAt(data, alt)
    ensures var results := Subscript(data, Name("results"));
      results.Success?
      && var channels := Subscript(results.value, Name("channels"));
      channels.Success?
      && var channel := Subscript(channels.value, Pos(0));
      channel.Success?
      && var alternatives := Subscript(channel.value, Name("alternatives"));
      alternatives.Success?
      && Subscript(alternatives.value, Pos(0)) == Success(JObj(alt))
  {
  }

  /** The reads on the alternative itself: its paragraphs' transcript, its flat
      transcript and its confidence, with a missing key read as its default. */
  lemma AlternativeReads(alt: seq<Field>)
    requires ParagraphsUsable(alt)
    ensures var paragraphs := Get(JObj(alt), "paragraphs", JObj([]));
      paragraphs.Success?
      && Get(paragraphs.value, "transcript", JNull) == Success(ParagraphsTranscript(alt))
    ensures var ft := Get(JObj(alt), "transcript", JStr(""));
      ft.Success? && (Truthy(ft.value) <==> Truthy(GetOrNull(alt, "transcript")))
      && (Truthy(ft.value) ==> ft.value == GetOrNull(alt, "transcript"))
    ensures Get(JObj(alt), "confidence", JNull) == Success(GetOrNull(alt, "confidence"))
  {
  }

  /** Any other shape (a missing key, an empty list, a value of the wrong kind,
      a `paragraphs` that is not an object) gives the empty transcript and no
      confidence, and the payload is still passed on unchanged. */
  lemma ExtractMismatch(reply: Reply)
    requires !reply.Unusable?
    requires forall alt :: AlternativeAt(ExtractTranscript(reply).data, alt) ==> !ParagraphsUsable(alt)
    ensures ExtractTranscript(reply).transcript == JStr("")
    ensures ExtractTranscript(reply).confidence == None
  {
    var data := Payload(reply).value;
    if Navigate(data).Success? {
      var alt := NavigateFindsAlternative(data);
      assert AlternativeAt(data, alt);
    }
  }

  /** Navigation succeeds only on the expected shape with a usable `paragraphs`. */
  lemma NavigateFindsAlternative(data: Json) returns (alt: seq<Field>)
    requires Navigate(data).Success?
    ensures AlternativeAt(data, alt) && ParagraphsUsable(alt)
  {
    var results := Subscript(data, Name("results")).value;
    var channels := Subscript(results, Name("channels")).value;
    var channel := Subscript(channels, Pos(0)).value;
    var alternatives := Subscript(channel, Name("alternatives")).value;
    var a := Subscript(alternatives, Pos(0)).value;
    alt := a.fields;
  }

  // ---- str() of a decoded value, as the "Confidence=" text shows it ----

  /** `str(v)`: a string is itself; anything else is its `repr`. */
  function PyStr(v: Json): string {
    if v.JStr? then v.s else PyRepr(v)
  }

  /** `repr(v)`.  Strings are put between single quotes; the escaping Python
      applies to quotes and backslashes inside them is not modelled. */
  function PyRepr(v: Json): string {
    match v
    case JNull => "None"
    case JBool(b) => if b then "True" else "False"
    case JNum(_, text) => text
    case JStr(s) => "'" + s + "'"
    case JArr(items) => "[" + JoinComma(seq(|items|, i requires 0 <= i < |items| => PyRepr(items[i]))) + "]"
    case JObj(fields) =>
      "{" + JoinComma(seq(|fields|, i requires 0 <= i < |fields| =>
                            var f := fields[i]; assert f.value < f; "'" + f.key + "': " + PyRepr(f.value))) + "}"
  }

  /** `", ".join(parts)` */
  function JoinComma(parts: seq<string>): string {
    if parts == [] then "" else if |parts| == 1 then parts[0] else parts[0] + ", " + JoinComma(parts[1..])
  }
}
