/** The three records of the pipeline and the rules by which each accepts or
    rejects its field values: the user's request, one scene beat, one B-roll prompt. */
module Models {
  import opened PyValues
  import opened PyStr
  import Filtering

  // ---------------------------------------------------------------------------
  // AdScriptInput
  // ---------------------------------------------------------------------------

  const ScriptMinLength := 10
  const ScriptMaxLength := 5000

  /** The tone literals a request may carry. */
  const Tones: set<string> :=
    {"inspiring", "urgent", "calm", "funny", "serious", "emotional", "uplifting", "mysterious"}

  /** The ad-format literals a request may carry. */
  const Formats: set<string> := {"UGC", "talking_head", "testimonial"}

  /** A request that passed validation; `script` is the stripped text. */
  datatype AdScriptInput = AdScriptInput(script: string, tone: string, format: string)

  datatype InputError = ScriptTooShort | ScriptTooLong | ScriptEmpty | ToneNotAllowed | FormatNotAllowed

  /** The error reported for the `script` field. The length bounds are checked on the
      text as given; only text within them reaches the validator that rejects a blank
      script and strips the rest. */
  function ScriptFieldError(v: string): (r: Option<InputError>)
    ensures r.None? <==> ScriptMinLength <= |v| <= ScriptMaxLength && !IsBlank(v)
  {
    if |v| < ScriptMinLength then Some(ScriptTooShort)
    else if |v| > ScriptMaxLength then Some(ScriptTooLong)
    else if v == [] || Strip(v) == [] then Some(ScriptEmpty)
    else None
  }

  /** Building an `AdScriptInput`: every field is checked and all errors are reported
      together, in field order; on success the script is stored stripped. */
  function NewAdScriptInput(script: string, tone: string, format: string): (r: Result<AdScriptInput, seq<InputError>>)
    ensures r.Ok? <==> ScriptMinLength <= |script| <= ScriptMaxLength && !IsBlank(script)
                       && tone in Tones && format in Formats
    ensures r.Ok? ==> r.value == AdScriptInput(Strip(script), tone, format)
    ensures r.Err? ==> r.error != []
    ensures r.Err? ==>
      && (ToneNotAllowed in r.error <==> tone !in Tones)
      && (FormatNotAllowed in r.error <==> format !in Formats)
      && (ScriptFieldError(script).Some? ==> ScriptFieldError(script).value in r.error)
      && (forall e :: e in r.error && e != ToneNotAllowed && e != FormatNotAllowed
                      ==> ScriptFieldError(script) == Some(e))
  {
    var errors :=
      (match ScriptFieldError(script) case Some(e) => [e] case None => [])
      + (if tone in Tones then [] else [ToneNotAllowed])
      + (if format in Formats then [] else [FormatNotAllowed]);
    if errors == [] then Ok(AdScriptInput(Strip(script), tone, format)) else Err(errors)
  }

  /** Because the length bounds apply before stripping, an accepted request can store
      a script shorter than the minimum length. */
  lemma StoredScriptMayBeShorterThanMinimum()
    ensures var r := NewAdScriptInput(" abcdefgh ", "calm", "UGC");
      r.Ok? && r.value.script == "abcdefgh" && |r.value.script| < ScriptMinLength
  {
    var s := " abcdefgh ";
    assert IsSpace(s[0]) && !IsSpace(s[1]);
    assert SpaceRunEnd(s, 0) == 1;
    assert IsSpace(s[9]) && !IsSpace(s[8]);
    assert SpaceRunStart(s, 10) == 9;
    assert s[1..9] == "abcdefgh";
  }

  // ---------------------------------------------------------------------------
  // SceneBeat
  // ---------------------------------------------------------------------------

  const DescriptionMinLength := 10

  /** One moment of the script. `emotion` and `script_excerpt` are only required to
      be present: either may be empty. */
  datatype SceneBeat = SceneBeat(timestamp: string, sceneDescription: string, emotion: string, scriptExcerpt: string)

  /** The timestamp check: non-empty and holding a `:`. */
  predicate TimestampAccepted(t: string)
  {
    t != [] && ':' in t
  }

  predicate WellFormedBeat(b: SceneBeat)
  {
    TimestampAccepted(b.timestamp) && |b.sceneDescription| >= DescriptionMinLength
  }

  /** A required string field of a record: present and holding a JSON string. */
  function StringField(fields: seq<(string, Json)>, key: string): (r: Option<string>)
    ensures r.Some? <==> Lookup(fields, key).Some? && Lookup(fields, key).value.JStr?
    ensures r.Some? ==> Lookup(fields, key) == Some(JStr(r.value))
  {
    match Lookup(fields, key)
    case Some(JStr(s)) => Some(s)
    case _ => None
  }

  /** Building a `SceneBeat` from a decoded record. Anything but an object fails, as
      does a missing or non-string field; members with other names are ignored. */
  function ValidateBeat(data: Json): (r: Option<SceneBeat>)
    ensures r.Some? ==> WellFormedBeat(r.value)
    ensures r.Some? <==>
      && data.JObj?
      && StringField(data.fields, "timestamp").Some?
      && StringField(data.fields, "scene_description").Some?
      && StringField(data.fields, "emotion").Some?
      && StringField(data.fields, "script_excerpt").Some?
      && TimestampAccepted(StringField(data.fields, "timestamp").value)
      && |StringField(data.fields, "scene_description").value| >= DescriptionMinLength
    ensures r.Some? ==>
      && StringField(data.fields, "timestamp") == Some(r.value.timestamp)
      && StringField(data.fields, "scene_description") == Some(r.value.sceneDescription)
      && StringField(data.fields, "emotion") == Some(r.value.emotion)
      && StringField(data.fields, "script_excerpt") == Some(r.value.scriptExcerpt)
  {
    match data
    case JObj(fields) =>
      (match (StringField(fields, "timestamp"), StringField(fields, "scene_description"),
              StringField(fields, "emotion"), StringField(fields, "script_excerpt"))
       case (Some(t), Some(d), Some(e), Some(x)) =>
         if TimestampAccepted(t) && |d| >= DescriptionMinLength
         then Some(SceneBeat(t, d, e, x)) else None
       case _ => None)
    case _ => None
  }

  /** `beat.dict()`: the record form of a beat. */
  function BeatToJson(b: SceneBeat): Json
  {
    JObj([("timestamp", JStr(b.timestamp)), ("scene_description", JStr(b.sceneDescription)),
          ("emotion", JStr(b.emotion)), ("script_excerpt", JStr(b.scriptExcerpt))])
  }

  /** The four members of a beat's record form are found under their own names. */
  lemma BeatRecordLookups(b: SceneBeat)
    ensures var fields := BeatToJson(b).fields;
      && Lookup(fields, "timestamp") == Some(JStr(b.timestamp))
      && Lookup(fields, "scene_description") == Some(JStr(b.sceneDescription))
      && Lookup(fields, "emotion") == Some(JStr(b.emotion))
      && Lookup(fields, "script_excerpt") == Some(JStr(b.scriptExcerpt))
  {
    var fields := BeatToJson(b).fields;
    var f3, f2, f1 := fields[..3], fields[..2], fields[..1];
    assert f3[..2] == f2 && f2[..1] == f1 && f1[..0] == [];
    assert f1[0].0 == "timestamp" && f2[1].0 == "scene_description" && f3[2].0 == "emotion";
  }

  /** A well-formed beat survives the trip to its record form and back unchanged. */
  lemma RevalidateRoundTrip(b: SceneBeat)
    requires WellFormedBeat(b)
    ensures ValidateBeat(BeatToJson(b)) == Some(b)
  {
    BeatRecordLookups(b);
  }

  /** Validating the record form of a list of well-formed beats gives back that list. */
  lemma {:induction false} RevalidateAll(beats: seq<SceneBeat>)
    requires forall b :: b in beats ==> WellFormedBeat(b)
    ensures Filtering.Select(Filtering.Map(beats, BeatToJson), ValidateBeat) == beats
  {
    if beats != [] {
      var n := |beats| - 1;
      assert beats == beats[..n] + [beats[n]];
      var records := Filtering.Map(beats, BeatToJson);
      assert records[..n] == Filtering.Map(beats[..n], BeatToJson);
      assert records[n] == BeatToJson(beats[n]);
      assert forall b :: b in beats[..n] ==> b in beats;
      RevalidateAll(beats[..n]);
      assert beats[n] in beats;
      RevalidateRoundTrip(beats[n]);
      assert Filtering.Select(records, ValidateBeat)
          == Filtering.Select(records[..n], ValidateBeat) + [beats[n]];
    }
  }

  /** A beat with an empty excerpt and an empty emotion is accepted. */
  lemma EmptyExcerptAccepted()
    ensures ValidateBeat(JObj([("timestamp", JStr("00:00")),
                               ("scene_description", JStr("Person frustrated with phone")),
                               ("emotion", JStr("")), ("script_excerpt", JStr(""))]))
            == Some(SceneBeat("00:00", "Person frustrated with phone", "", ""))
  {
    var b := SceneBeat("00:00", "Person frustrated with phone", "", "");
    assert b.timestamp[2] == ':';
    RevalidateRoundTrip(b);
  }

  // ---------------------------------------------------------------------------
  // BrollPrompt
  // ---------------------------------------------------------------------------

  const DurationMin := 1
  const DurationMax := 30
  const DefaultDuration := 5
  const DefaultAspectRatio := "9:16"

  /** One B-roll deliverable. */
  datatype BrollPrompt = BrollPrompt(
    prompt: string,
    duration: int,
    aspectRatio: string,
    insertAfter: string,
    searchInstruction: string,
    confidenceScore: Option<real>)

  predicate ConfidenceAccepted(c: Option<real>)
  {
    c.Some? ==> 0.0 <= c.value <= 1.0
  }

  /** The field constraints every `BrollPrompt` satisfies. */
  predicate ValidPrompt(p: BrollPrompt)
  {
    DurationMin <= p.duration <= DurationMax && ConfidenceAccepted(p.confidenceScore)
  }

  /** Building a `BrollPrompt`; `None` for `duration` or `aspectRatio` means the
      argument was not supplied and the field default applies. */
  function NewBrollPrompt(prompt: string, duration: Option<int>, aspectRatio: Option<string>,
                          insertAfter: string, searchInstruction: string, confidence: Option<real>)
    : (r: Option<BrollPrompt>)
    ensures r.Some? ==> ValidPrompt(r.value)
    ensures r.Some? <==> (duration.Some? ==> DurationMin <= duration.value <= DurationMax)
                         && ConfidenceAccepted(confidence)
    ensures r.Some? ==>
      && r.value.duration == (if duration.Some? then duration.value else DefaultDuration)
      && r.value.aspectRatio == (if aspectRatio.Some? then aspectRatio.value else DefaultAspectRatio)
      && r.value.prompt == prompt && r.value.insertAfter == insertAfter
      && r.value.searchInstruction == searchInstruction && r.value.confidenceScore == confidence
  {
    var d := match duration case Some(v) => v case None => DefaultDuration;
    var a := match aspectRatio case Some(v) => v case None => DefaultAspectRatio;
    var p := BrollPrompt(prompt, d, a, insertAfter, searchInstruction, confidence);
    if ValidPrompt(p) then Some(p) else None
  }
}
