/** The page's handling of one press of the generate button: the input check, the
    request record, the two agent stages and the export rows. The text area, the
    select boxes and the slider supply the arguments; the two services are
    parameters, as in the agent. */
module App {
  import opened PyValues
  import opened PyStr
  import opened Filtering
  import opened Models
  import opened Agents

  /** The configured length bounds of a script. */
  const MinScriptLength := 10
  const MaxScriptLength := 5000

  /** The configured default of the duration slider, whose range is 1..30. */
  const SliderDefaultDuration := 3

  /** The choices the select boxes offer. */
  const ToneChoices: seq<string> :=
    ["inspiring", "urgent", "calm", "funny", "serious", "emotional", "uplifting", "mysterious"]
  const FormatChoices: seq<string> := ["UGC", "talking_head", "testimonial"]
  const AspectRatioChoices: seq<string> := ["9:16", "16:9", "1:1", "4:5"]

  const EmptyScriptMessage := "Please enter a script."
  const ShortScriptMessage := "Script must be at least 10 characters long."
  const LongScriptMessage := "Script must be less than 5000 characters long."

  /** `validate_input`: `(True, "")` for an acceptable script, otherwise `False` with
      the message for the first check that fails: blank, then too short, then too
      long. A script is acceptable exactly when the request record accepts it. */
  function ValidateInput(script: string): (r: (bool, string))
    ensures r.0 <==> ScriptFieldError(script).None?
    ensures r.0 <==> r.1 == ""
    ensures !r.0 ==> r.1 == EmptyScriptMessage || r.1 == ShortScriptMessage || r.1 == LongScriptMessage
    ensures IsBlank(script) ==> r.1 == EmptyScriptMessage
  {
    if script == [] || Strip(script) == [] then (false, EmptyScriptMessage)
    else if |script| < MinScriptLength then (false, ShortScriptMessage)
    else if |script| > MaxScriptLength then (false, LongScriptMessage)
    else (true, "")
  }

  /** The message names the bound that failed: "less than 5000" is reported only
      above 5000 characters, so a script of exactly 5000 characters is accepted. */
  lemma LengthMessages(script: string)
    requires !IsBlank(script)
    ensures ValidateInput(script).1 == ShortScriptMessage <==> |script| < MinScriptLength
    ensures ValidateInput(script).1 == LongScriptMessage <==> |script| > MaxScriptLength
  {
  }

  /** The select boxes offer exactly the tones and formats a request record accepts. */
  lemma ChoicesAreAccepted(tone: string, format: string)
    ensures tone in ToneChoices <==> tone in Tones
    ensures format in FormatChoices <==> format in Formats
  {
  }

  /** The slider starts inside its own range, at the generator's default duration,
      and the aspect-ratio box starts on the generator's default ratio. Every
      duration the slider offers passes the prompt check. */
  lemma ControlDefaults(duration: int)
    requires 1 <= duration <= 30
    ensures DurationMin <= SliderDefaultDuration <= DurationMax
    ensures SliderDefaultDuration == DefaultClipDuration
    ensures AspectRatioChoices[0] == DefaultClipAspectRatio
    ensures DurationMin <= duration <= DurationMax
  {
  }

  // ---------------------------------------------------------------------------
  // Export
  // ---------------------------------------------------------------------------

  /** One record of the export: the prompt's fields under a 1-based sequence number. */
  datatype ExportRow = ExportRow(
    sequence: int,
    insertAfter: string,
    prompt: string,
    duration: int,
    aspectRatio: string,
    searchInstruction: string,
    confidenceScore: Option<real>)

  /** The prompt an export record was made from. */
  function PromptOfRow(row: ExportRow): BrollPrompt
  {
    BrollPrompt(row.prompt, row.duration, row.aspectRatio, row.insertAfter,
                row.searchInstruction, row.confidenceScore)
  }

  /** The export record of a prompt under the sequence number `sequence`. */
  function RowOf(sequence: int, p: BrollPrompt): ExportRow
  {
    ExportRow(sequence, p.insertAfter, p.prompt, p.duration, p.aspectRatio, p.searchInstruction, p.confidenceScore)
  }

  /** The export records of `prompts`: one per prompt, in order, numbered from 1, and
      each gives back the prompt it was made from. */
  function ExportRows(prompts: seq<BrollPrompt>): (rows: seq<ExportRow>)
    ensures |rows| == |prompts|
    ensures forall k :: 0 <= k < |rows| ==> rows[k].sequence == k + 1 && PromptOfRow(rows[k]) == prompts[k]
  {
    seq(|prompts|, k requires 0 <= k < |prompts| => RowOf(k + 1, prompts[k]))
  }

  /** Reading the prompts back from the export records gives the prompts exported. */
  lemma ExportRoundTrip(prompts: seq<BrollPrompt>)
    ensures Map(ExportRows(prompts), PromptOfRow) == prompts
  {
  }

  /** `create_download_data`, up to the records both the CSV and the JSON text are
      written from. */
  method CreateDownloadData(prompts: seq<BrollPrompt>) returns (rows: seq<ExportRow>)
    ensures rows == ExportRows(prompts)
  {
    rows := [];
    var i := 0;
    while i < |prompts|
      invariant 0 <= i <= |prompts|
      invariant rows == ExportRows(prompts)[..i]
    {
      var p := prompts[i];
      rows := rows + [ExportRow(i + 1, p.insertAfter, p.prompt, p.duration, p.aspectRatio,
                                p.searchInstruction, p.confidenceScore)];
      i := i + 1;
    }
  }

  // ---------------------------------------------------------------------------
  // The generate button
  // ---------------------------------------------------------------------------

  /** How the agent's two stages end. */
  datatype AgentResult =
    | ParseStopped(failure: ParseFailure)
    | NoSuitableScenes
    | NoFeasiblePrompts
    | Generated(prompts: seq<BrollPrompt>, rows: seq<ExportRow>)

  /** How one press of the generate button ends: stopped by the page's input check,
      by the request record, or after running the agent. */
  datatype Outcome =
    | InvalidInput(message: string)
    | InputRejected(errors: seq<InputError>)
    | AgentRan(result: AgentResult)

  const NoScenesWarning := "No suitable scenes found in the script." + " Try a different tone or format."
  const NoPromptsWarning := "No feasible B-roll prompts could be generated."
    + " The script might be too abstract or complex for current AI video generation."

  /** The error or warning shown for an outcome. `Generated` shows none; the error
      shown for `InputRejected` quotes the record's own error report, whose text is
      not modelled (`None` here). */
  function OutcomeMessage(o: Outcome): Option<string>
  {
    match o
    case InvalidInput(message) => Some(message)
    case InputRejected(_) => None
    case AgentRan(ParseStopped(failure)) => Some(FailureMessage(failure))
    case AgentRan(NoSuitableScenes) => Some(NoScenesWarning)
    case AgentRan(NoFeasiblePrompts) => Some(NoPromptsWarning)
    case AgentRan(Generated(_, _)) => None
  }

  /** How a press ends once the parse stage has returned: a failed parse stops; no
      beats give the first warning; otherwise the beats' record forms go through
      the prompt synthesiser, and no prompt gives the second warning; otherwise the
      prompts are shown with their export records. */
  function AgentOutcome(parsed: ParseResult, feasibility: string -> Reply, duration: int, aspectRatio: string)
    : (r: AgentResult)
    ensures r.Generated? ==> && parsed.Parsed? && 0 < |r.prompts| <= |parsed.beats|
                             && |r.rows| == |r.prompts|
  {
    match parsed
    case Failed(failure) => ParseStopped(failure)
    case Parsed(beats) =>
      if beats == [] then NoSuitableScenes
      else
        var prompts := Select(Map(beats, BeatToJson), Gate(feasibility, duration, aspectRatio));
        if prompts == [] then NoFeasiblePrompts else Generated(prompts, ExportRows(prompts))
  }

  /** Every outcome but a successful one and a rejected record shows a message, and
      the messages tell the outcomes apart: the two warnings differ from each other
      and from every parse-failure message, so no two empty outcomes look alike. */
  lemma OutcomeMessagesDistinct(f: ParseFailure)
    ensures OutcomeMessage(AgentRan(ParseStopped(f))).Some?
    ensures OutcomeMessage(AgentRan(NoSuitableScenes)) != OutcomeMessage(AgentRan(NoFeasiblePrompts))
    ensures OutcomeMessage(AgentRan(ParseStopped(f))) != OutcomeMessage(AgentRan(NoSuitableScenes))
    ensures OutcomeMessage(AgentRan(ParseStopped(f))) != OutcomeMessage(AgentRan(NoFeasiblePrompts))
  {
    assert NoScenesWarning[0] == 'N' && NoPromptsWarning[0] == 'N';
    assert NoScenesWarning[3] == 's' && NoPromptsWarning[3] == 'f';
    assert MalformedMessage[0] == 'F' && UnavailablePrefix[0] == 'S';
    assert FailureMessage(f)[0] != 'N';
  }

  /** How one press ends: the page's input check, then the request record, then the
      agent's two stages on the accepted record. */
  function PressOutcome(scriptInput: string, tone: string, format: string, duration: int, aspectRatio: string,
                        service: BeatRequest -> Reply, feasibility: string -> Reply): (r: Outcome)
    ensures r.AgentRan? ==> ValidateInput(scriptInput).0 && NewAdScriptInput(scriptInput, tone, format).Ok?
  {
    var check := ValidateInput(scriptInput);
    if !check.0 then InvalidInput(check.1)
    else
      match NewAdScriptInput(scriptInput, tone, format)
      case Err(errors) => InputRejected(errors)
      case Ok(request) =>
        AgentRan(AgentOutcome(ParseReply(service(BeatRequest(request.script, request.tone, request.format))),
                              feasibility, duration, aspectRatio))
  }

  /** A press stops at the input check exactly when the check fails, with the check's
      message. Otherwise, when the tone and format come from the select boxes, the
      request record never rejects the press: the agent runs on the stripped script. */
  lemma PressChecksInput(scriptInput: string, tone: string, format: string, duration: int, aspectRatio: string,
                         service: BeatRequest -> Reply, feasibility: string -> Reply)
    ensures var o := PressOutcome(scriptInput, tone, format, duration, aspectRatio, service, feasibility);
      && (o.InvalidInput? <==> !ValidateInput(scriptInput).0)
      && (o.InvalidInput? ==> o.message == ValidateInput(scriptInput).1)
      && (o.InputRejected? ==> NewAdScriptInput(scriptInput, tone, format) == Err(o.errors))
      && (ValidateInput(scriptInput).0 && tone in Tones && format in Formats ==>
            o == AgentRan(AgentOutcome(ParseReply(service(BeatRequest(Strip(scriptInput), tone, format))),
                                       feasibility, duration, aspectRatio)))
  {
    var o := PressOutcome(scriptInput, tone, format, duration, aspectRatio, service, feasibility);
    var check := ValidateInput(scriptInput);
    if !check.0 {
      assert o == InvalidInput(check.1);
    } else {
      match NewAdScriptInput(scriptInput, tone, format)
      case Err(errors) =>
        assert o == InputRejected(errors);
      case Ok(request) =>
        var parsed := ParseReply(service(BeatRequest(request.script, request.tone, request.format)));
        assert o == AgentRan(AgentOutcome(parsed, feasibility, duration, aspectRatio));
    }
  }

  /** The outcome once the parse stage has returned. The parse failure stops the press
      with its message; the first warning comes exactly when there are no beats; the
      synthesiser only runs on a non-empty list of beats; the second warning comes
      exactly when it rejects every beat; otherwise the prompts shown are the
      in-order selection of the beats it keeps, each with a confidence in (0.4, 1],
      and the export records are theirs. */
  lemma AgentOutcomeCases(parsed: ParseResult, feasibility: string -> Reply, duration: int, aspectRatio: string)
    ensures var o := AgentOutcome(parsed, feasibility, duration, aspectRatio);
      && (o.ParseStopped? <==> parsed.Failed?)
      && (o.ParseStopped? ==> o.failure == parsed.failure)
      && (o.NoSuitableScenes? <==> parsed.Parsed? && parsed.beats == [])
      && (o.NoFeasiblePrompts? <==>
            parsed.Parsed? && parsed.beats != []
            && forall b :: b in parsed.beats ==> ProcessBeat(BeatToJson(b), feasibility, duration, aspectRatio).None?)
      && (o.Generated? ==>
            && parsed.Parsed? && o.prompts != []
            && (exists idx :: SelectedAt(o.prompts, Map(parsed.beats, BeatToJson), Gate(feasibility, duration, aspectRatio), idx))
            && BatchPrompts(o.prompts, duration, aspectRatio)
            && o.rows == ExportRows(o.prompts))
  {
    if parsed.Parsed? && parsed.beats != [] {
      var records := Map(parsed.beats, BeatToJson);
      var g := Gate(feasibility, duration, aspectRatio);
      SelectIsOrderedSelection(records, g);
      GateOutputs(records, feasibility, duration, aspectRatio);
      if Select(records, g) == [] {
        forall b | b in parsed.beats ensures ProcessBeat(BeatToJson(b), feasibility, duration, aspectRatio).None? {
          var k :| 0 <= k < |parsed.beats| && parsed.beats[k] == b;
          SelectEmptyRejectsAll(records, g);
          assert records[k] in records;
        }
      } else if forall b :: b in parsed.beats ==> ProcessBeat(BeatToJson(b), feasibility, duration, aspectRatio).None? {
        forall x | x in records ensures g(x).None? {
          var k :| 0 <= k < |records| && records[k] == x;
          assert parsed.beats[k] in parsed.beats;
        }
        SelectNoneAccepted(records, g);
      }
    }
  }

  /** The page's decision once the parse stage has returned. */
  method Present(parsed: ParseResult, duration: int, aspectRatio: string, feasibility: string -> Reply)
    returns (o: AgentResult)
    ensures o == AgentOutcome(parsed, feasibility, duration, aspectRatio)
  {
    if parsed.Failed? {
      return ParseStopped(parsed.failure);
    }
    if parsed.beats == [] {
      return NoSuitableScenes;
    }
    var brollPrompts := GeneratePrompts(Map(parsed.beats, BeatToJson), feasibility, Some(duration), Some(aspectRatio));
    if brollPrompts == [] {
      return NoFeasiblePrompts;
    }
    var rows := CreateDownloadData(brollPrompts);
    o := Generated(brollPrompts, rows);
  }

  /** One press of the generate button. */
  method GenerateBroll(scriptInput: string, tone: string, format: string, duration: int, aspectRatio: string,
                       service: BeatRequest -> Reply, feasibility: string -> Reply)
    returns (o: Outcome)
    ensures o == PressOutcome(scriptInput, tone, format, duration, aspectRatio, service, feasibility)
  {
    var (isValid, errorMessage) := ValidateInput(scriptInput);
    if !isValid {
      return InvalidInput(errorMessage);
    }
    var request := NewAdScriptInput(scriptInput, tone, format);
    if request.Err? {
      return InputRejected(request.error);
    }
    var adInput := request.value;
    var sceneBeats := ParseScript(adInput.script, adInput.tone, adInput.format, service);
    var result := Present(sceneBeats, duration, aspectRatio, feasibility);
    o := AgentRan(result);
  }

  /** When the assessment of no parsed beat succeeds and the duration is on the
      slider's range, every beat the parser returned yields a prompt: the
      re-validation of the beats' record forms never drops one and the assessment
      fails open. */
  lemma {:induction false} FailOpenKeepsEveryParsedBeat(beats: seq<SceneBeat>, feasibility: string -> Reply, duration: int, aspectRatio: string)
    requires forall b :: b in beats ==> WellFormedBeat(b)
    requires forall b :: b in beats ==> NoAssessment(feasibility(b.sceneDescription))
    requires DurationMin <= duration <= DurationMax
    ensures |Select(Map(beats, BeatToJson), Gate(feasibility, duration, aspectRatio))| == |beats|
  {
    var records := Map(beats, BeatToJson);
    forall x | x in records && ValidateBeat(x).Some?
      ensures NoAssessment(feasibility(ValidateBeat(x).value.sceneDescription))
    {
      var k :| 0 <= k < |records| && records[k] == x;
      assert beats[k] in beats;
      RevalidateRoundTrip(beats[k]);
    }
    RevalidateAll(beats);
    FailOpenKeepsEveryValidBeat(records, feasibility, duration, aspectRatio);
  }
}
