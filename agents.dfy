/** The B-roll agent: the instructions it sends to the generative text service,
    the beat parser, the feasibility assessment and the prompt synthesiser. The
    service itself is a parameter: `service(request)` and
    `feasibility(sceneDescription)` stand for its replies to the two requests. */
module Agents {
  import opened PyValues
  import opened Models
  import opened Filtering

  // ---------------------------------------------------------------------------
  // Prompt builder
  // ---------------------------------------------------------------------------

  /** The two fixed blocks of the instructions: the opening text and the closing
      examples. */
  datatype FixedBlock = Opening | Examples

  /** The text of a fixed block, line by line. */
  function FixedText(b: FixedBlock): string
  {
    match b
    case Opening =>
      "\n"
      + "You are a B-roll specialist for high-converting social media ads.\n"
      + "\n"
      + "Create short, simple scene descriptions that:\n"
      + "- Grab attention in first 3 seconds\n"
      + "- Support direct response marketing goals\n"
      + "- Work well for AI video generation (Runway, Pika, Kling)\n"
      + "- Are optimized for mobile viewing\n"
      + "\n"
      + "For each moment, output:\n"
      + "- A timestamp (every 3-5 seconds)\n"
      + "- A SIMPLE, clear scene description (under 15 words)\n"
      + "- The marketing emotion it triggers (frustrated, excited, happy, amazed, etc.)\n"
      + "- The script excerpt it supports\n"
      + "\n"
      + "KEY SCENE TYPES:\n"
      + "- Problem moments (frustration, struggle)\n"
      + "- Solution reveals (product in action)\n"
      + "- Transformation (before/after)\n"
      + "- Social proof (happy customers)\n"
      + "- Urgency (timers, scarcity)\n"
      + "\n"
      + "KEEP DESCRIPTIONS SIMPLE:\n"
      + "✅ GOOD: \"Person frustrated with phone\"\n"
      + "✅ GOOD: \"Happy customer holding product\"\n"
      + "✅ GOOD: \"Before and after comparison\"\n"
      + "❌ BAD: \"Close-up of person's disillusioned face as they futilely make cold calls\"\n"
      + "\n"
      + "Respond only in raw JSON format:\n"
      + "\n"
      + "[\n"
      + "  {\n"
      + "    \"timestamp\": \"00:00\",\n"
      + "    \"scene_description\": \"Person looking frustrated at phone\",\n"
      + "    \"emotion\": \"frustrated\",\n"
      + "    \"script_excerpt\": \"Tired of cold calling?\"\n"
      + "  }\n"
      + "]\n"
    case Examples =>
      "\n"
      + "\n"
      + "EXAMPLES OF GOOD SCENE DESCRIPTIONS:\n"
      + "- \"Person frustrated with laptop\"\n"
      + "- \"Product reveal close-up\"\n"
      + "- \"Happy customer testimonial\"\n"
      + "- \"Before and after split screen\"\n"
      + "- \"Countdown timer on phone\"\n"
      + "- \"Money being saved\"\n"
      + "- \"Problem being solved\"\n"
  }

  const ToneGuidance: map<string, string> := map[
    "hook" := "Create simple attention-grabbing moments",
    "problem" := "Show clear frustration or struggle",
    "solution" := "Display product solving the problem",
    "social_proof" := "Show happy customers or testimonials",
    "urgency" := "Include countdown or scarcity elements",
    "transformation" := "Before and after moments",
    "curiosity" := "Partial reveals or mysterious elements"
  ]

  const FormatGuidance: map<string, string> := map[
    "UGC" := "Authentic, user-generated style footage",
    "talking_head" := "Speaker with engaging gestures",
    "testimonial" := "Real customer reactions and success stories"
  ]

  const ToneHeader := "\n\nTONE STRATEGY: "
  const FormatHeader := "\nFORMAT STRATEGY: "

  /** `guidance.get(key, "")`. */
  function Guide(guidance: map<string, string>, key: string): string
  {
    if key in guidance then guidance[key] else ""
  }

  /** A section of the instructions: the header followed by the guidance text, or
      nothing when there is no guidance. */
  function Section(header: string, guide: string): string
  {
    if guide != "" then header + guide else ""
  }

  /** The text between the fixed blocks of the instructions: a tone section when the
      tone has guidance, then a format section when the format has guidance. */
  function StrategyText(tone: string, format: string): string
  {
    Section(ToneHeader, Guide(ToneGuidance, tone)) + Section(FormatHeader, Guide(FormatGuidance, format))
  }

  /** The instructions for the beat request: the opening text, the strategy text and
      the examples. */
  function SystemPrompt(tone: string, format: string): string
  {
    FixedText(Opening) + StrategyText(tone, format) + FixedText(Examples)
  }

  /** Around fixed outer parts, the middle part of a text is determined by the text. */
  lemma MiddleDetermined(front: string, m1: string, m2: string, back: string)
    requires front + m1 + back == front + m2 + back
    ensures m1 == m2
  {
    MiddleOf(front, m1, back);
    MiddleOf(front, m2, back);
  }

  /** The middle part sits between the outer parts' lengths. */
  lemma MiddleOf(front: string, m: string, back: string)
    ensures (front + m + back)[|front|..|front| + |m|] == m
  {
    var s := front + m + back;
    forall i | 0 <= i < |m| ensures s[|front|..|front| + |m|][i] == m[i] {
      assert s[|front| + i] == m[i];
    }
  }

  /** No line break in `s`. */
  predicate OneLine(s: string)
  {
    forall i :: 0 <= i < |s| ==> s[i] != '\n'
  }

  /** The text of `s` up to its first line break. */
  function Line(s: string): (r: string)
    ensures r <= s && OneLine(r)
    ensures |r| < |s| ==> s[|r|] == '\n'
  {
    if s == [] || s[0] == '\n' then [] else [s[0]] + Line(s[1..])
  }

  /** The guidance text of the tone section at the head of a strategy text, if any. */
  function ToneSectionOf(m: string): Option<string>
  {
    if ToneHeader <= m then Some(Line(m[|ToneHeader|..])) else None
  }

  /** The guidance text of the format section that follows the tone section (or
      starts the strategy text when there is no tone section), if any. */
  function FormatSectionOf(m: string): Option<string>
  {
    var rest := if ToneHeader <= m then m[|ToneHeader| + |Line(m[|ToneHeader|..])|..] else m;
    if FormatHeader <= rest then Some(Line(rest[|FormatHeader|..])) else None
  }

  lemma {:induction false} LineOfGuide(g: string, rest: string)
    requires OneLine(g)
    requires rest == [] || rest[0] == '\n'
    ensures Line(g + rest) == g
  {
    if g != [] {
      assert (g + rest)[1..] == g[1..] + rest;
      LineOfGuide(g[1..], rest);
    } else {
      assert g + rest == rest;
    }
  }

  /** Every tone guidance text is a single line. */
  lemma ToneGuidanceIsOneLine(tone: string)
    requires tone in ToneGuidance
    ensures OneLine(ToneGuidance[tone])
  {
    ToneTextsOneLine1();
    ToneTextsOneLine2();
    ToneTextsOneLine3();
    if tone == "hook" {
    } else if tone == "problem" {
    } else if tone == "solution" {
    } else if tone == "social_proof" {
    } else if tone == "urgency" {
    } else if tone == "transformation" {
    } else {
    }
  }

  lemma ToneTextsOneLine1()
    ensures OneLine("Create simple attention-grabbing moments")
    ensures OneLine("Show clear frustration or struggle")
  {
  }

  lemma ToneTextsOneLine2()
    ensures OneLine("Display product solving the problem")
    ensures OneLine("Show happy customers or testimonials")
  {
  }

  lemma ToneTextsOneLine3()
    ensures OneLine("Include countdown or scarcity elements")
    ensures OneLine("Before and after moments")
    ensures OneLine("Partial reveals or mysterious elements")
  {
  }

  /** Every format guidance text is a single line. */
  lemma FormatGuidanceIsOneLine(format: string)
    requires format in FormatGuidance
    ensures OneLine(FormatGuidance[format])
  {
    FormatTextsOneLine1();
    FormatTextsOneLine2();
    if format == "UGC" {
    } else if format == "talking_head" {
    } else {
    }
  }

  lemma FormatTextsOneLine1()
    ensures OneLine("Authentic, user-generated style footage")
    ensures OneLine("Speaker with engaging gestures")
  {
  }

  lemma FormatTextsOneLine2()
    ensures OneLine("Real customer reactions and success stories")
  {
  }

  /** A tone section followed by a format section decodes to the two guidance texts
      when each is a single line. */
  lemma SectionsDecode(tg: string, fg: string)
    requires OneLine(tg) && OneLine(fg)
    ensures var m := Section(ToneHeader, tg) + Section(FormatHeader, fg);
      && ToneSectionOf(m) == (if tg != "" then Some(tg) else None)
      && FormatSectionOf(m) == (if fg != "" then Some(fg) else None)
  {
    var toneSec, formatSec := Section(ToneHeader, tg), Section(FormatHeader, fg);
    var m := toneSec + formatSec;
    if tg != "" {
      assert m == ToneHeader + (tg + formatSec);
      assert m[|ToneHeader|..] == tg + formatSec;
      LineOfGuide(tg, formatSec);
      assert m[|ToneHeader| + |tg|..] == formatSec;
    } else {
      assert m == formatSec;
      assert formatSec != [] ==> formatSec[1] == 'F';
      assert !(ToneHeader <= m);
    }
    if fg != "" {
      assert formatSec[|FormatHeader|..] == fg + [];
      LineOfGuide(fg, []);
    }
  }

  /** The instructions determine their strategy part: whatever text sits between the
      opening text and the examples is the strategy text of the tone and format. */
  lemma SystemPromptFrame(tone: string, format: string, m: string)
    requires SystemPrompt(tone, format) == FixedText(Opening) + m + FixedText(Examples)
    ensures m == StrategyText(tone, format)
  {
    MiddleDetermined(FixedText(Opening), m, StrategyText(tone, format), FixedText(Examples));
  }

  /** The strategy text carries a tone section with the tone's guidance exactly when
      the tone has guidance, and likewise a format section; any other value adds
      nothing. */
  lemma StrategySections(tone: string, format: string)
    ensures var m := StrategyText(tone, format);
      && ToneSectionOf(m) == (if tone in ToneGuidance then Some(ToneGuidance[tone]) else None)
      && FormatSectionOf(m) == (if format in FormatGuidance then Some(FormatGuidance[format]) else None)
  {
    var tg, fg := Guide(ToneGuidance, tone), Guide(FormatGuidance, format);
    if tone in ToneGuidance {
      ToneGuidanceIsOneLine(tone);
      assert tg != "" by { GuidanceNonEmpty(tone, format); }
    }
    if format in FormatGuidance {
      FormatGuidanceIsOneLine(format);
      assert fg != "" by { GuidanceNonEmpty(tone, format); }
    }
    SectionsDecode(tg, fg);
  }

  /** No guidance text is empty. */
  lemma GuidanceNonEmpty(tone: string, format: string)
    ensures tone in ToneGuidance ==> ToneGuidance[tone] != ""
    ensures format in FormatGuidance ==> FormatGuidance[format] != ""
  {
  }

  /** No tone a request can carry has guidance, so no accepted request ever gets a
      tone section; every format a request can carry has guidance, so every accepted
      request gets a format section. */
  lemma RequestStrategySections(tone: string, format: string)
    requires tone in Tones && format in Formats
    ensures ToneSectionOf(StrategyText(tone, format)) == None
    ensures FormatSectionOf(StrategyText(tone, format)) == Some(FormatGuidance[format])
  {
    assert tone !in ToneGuidance;
    StrategySections(tone, format);
  }

  /** What the agent asks the generative text service about. The service is a
      parameter of type `BeatRequest -> Reply`: the texts it receives, `Messages`,
      are determined by the request. */
  datatype BeatRequest = BeatRequest(script: string, tone: string, format: string)

  /** The label the script follows in the message. */
  const ScriptLabel := "\n            DIRECT RESPONSE AD SCRIPT: "

  /** What follows the script in the message: the tone, the format and the closing
      request. */
  function MessageTail(tone: string, format: string): string
  {
    "\n            TARGET TONE: " + tone
    + "\n            AD FORMAT: " + format
    + "\n            \n            Create B-roll that maximizes clicks and conversions for social media ads.\n            "
  }

  /** The message sent with the instructions. */
  function UserPrompt(script: string, tone: string, format: string): string
  {
    ScriptLabel + script + MessageTail(tone, format)
  }

  /** For a given tone and format, the message determines the script: two scripts
      are sent as the same message only when they are equal. */
  lemma UserPromptDeterminesScript(s1: string, s2: string, tone: string, format: string)
    requires UserPrompt(s1, tone, format) == UserPrompt(s2, tone, format)
    ensures s1 == s2
  {
    MiddleDetermined(ScriptLabel, s1, s2, MessageTail(tone, format));
  }

  /** The two texts the beat request is sent as: the instructions and the message. */
  function Messages(request: BeatRequest): (string, string)
  {
    (SystemPrompt(request.tone, request.format), UserPrompt(request.script, request.tone, request.format))
  }

  /** The message sent determines the request: two requests with the same tone and
      format are sent with the same message only when they carry the same script. */
  lemma MessagesDetermineRequest(r1: BeatRequest, r2: BeatRequest)
    requires r1.tone == r2.tone && r1.format == r2.format
    requires Messages(r1).1 == Messages(r2).1
    ensures r1 == r2
  {
    UserPromptDeterminesScript(r1.script, r2.script, r1.tone, r1.format);
  }

  // ---------------------------------------------------------------------------
  // Beat parser
  // ---------------------------------------------------------------------------

  /** A reply of the generative text service: the call failed (error or timeout),
      or its content is not JSON, or its content decoded to a value. */
  datatype Reply = CallFailed(detail: string) | NotJson | Decoded(value: Json)

  datatype ParseFailure = MalformedReply | ServiceUnavailable(detail: string)

  /** A `None` result of `parse_script` is `Failed`; the failure says which message was shown. */
  datatype ParseResult = Parsed(beats: seq<SceneBeat>) | Failed(failure: ParseFailure)

  /** The error detail when the decoded reply cannot be iterated. */
  const NotIterableDetail := "object is not iterable"

  /** The message shown to the user for a failed parse. */
  function FailureMessage(f: ParseFailure): string
  {
    match f
    case MalformedReply => MalformedMessage
    case ServiceUnavailable(detail) => UnavailablePrefix + detail + RetrySuffix
  }

  const MalformedMessage :=
    "Failed to parse the script." + " The AI response was not in the expected format." + " Please try again."
  const UnavailablePrefix := "Service temporarily unavailable: "
  const RetrySuffix := ". Please try again."

  /** The message tells the failures apart: a malformed reply and an unavailable
      service never share a message, and the unavailable message quotes its detail
      in full, so two details give two messages. */
  lemma FailureMessageDeterminesFailure(f1: ParseFailure, f2: ParseFailure)
    ensures FailureMessage(f1) == FailureMessage(f2) ==> f1 == f2
  {
    match (f1, f2)
    case (ServiceUnavailable(d1), ServiceUnavailable(d2)) =>
      if FailureMessage(f1) == FailureMessage(f2) {
        MiddleDetermined(UnavailablePrefix, d1, d2, RetrySuffix);
      }
    case (MalformedReply, ServiceUnavailable(d)) =>
      assert FailureMessage(f2)[0] == UnavailablePrefix[0] == 'S';
      assert MalformedMessage[0] == 'F';
    case (ServiceUnavailable(d), MalformedReply) =>
      assert FailureMessage(f1)[0] == UnavailablePrefix[0] == 'S';
      assert MalformedMessage[0] == 'F';
    case (MalformedReply, MalformedReply) =>
  }

  /** The keys of an object in insertion order, each once. */
  function DictKeys(fields: seq<(string, Json)>): (r: seq<string>)
    ensures forall k :: k in r <==> exists i :: 0 <= i < |fields| && fields[i].0 == k
  {
    if fields == [] then []
    else
      var ks := DictKeys(fields[..|fields| - 1]);
      var k := fields[|fields| - 1].0;
      if k in ks then ks else ks + [k]
  }

  /** What `for item in value` walks over: a list's elements, a string's characters,
      an object's keys. `None` when the value cannot be iterated. */
  function Iterate(v: Json): (r: Option<seq<Json>>)
    ensures r.None? <==> v.JNull? || v.JBool? || v.JNum?
    ensures r.Some? && !v.JArr? ==> forall x :: x in r.value ==> x.JStr?
  {
    match v
    case JArr(items) => Some(items)
    case JStr(s) => Some(Map(s, (c: char) => JStr([c])))
    case JObj(fields) => Some(Map(DictKeys(fields), (k: string) => JStr(k)))
    case _ => None
  }

  /** The outcome of one beat request, given the service's reply. */
  function ParseReply(reply: Reply): (r: ParseResult)
    ensures r.Parsed? ==> reply.Decoded? && Iterate(reply.value).Some?
    ensures r.Parsed? ==> |r.beats| <= |Iterate(reply.value).value|
  {
    match reply
    case CallFailed(detail) => Failed(ServiceUnavailable(detail))
    case NotJson => Failed(MalformedReply)
    case Decoded(v) =>
      match Iterate(v)
      case None => Failed(ServiceUnavailable(NotIterableDetail))
      case Some(items) => Parsed(Select(items, ValidateBeat))
  }

  /** A parse fails only when the call fails, the reply is not JSON or the decoded
      reply cannot be iterated, each with its own message. Otherwise it returns the
      valid beats among what the reply iterates over: each well formed, in reply
      order, none lost; a string or an object reply yields none. */
  lemma ParseReplyOutcome(reply: Reply)
    ensures var r := ParseReply(reply);
      && (reply.CallFailed? ==> r == Failed(ServiceUnavailable(reply.detail)))
      && (reply.NotJson? ==> r == Failed(MalformedReply))
      && (reply.Decoded? && Iterate(reply.value).None? ==> r == Failed(ServiceUnavailable(NotIterableDetail)))
      && (r.Parsed? <==> reply.Decoded? && Iterate(reply.value).Some?)
      && (r.Parsed? ==> forall b :: b in r.beats ==> WellFormedBeat(b))
      && (r.Parsed? ==> exists idx :: SelectedAt(r.beats, Iterate(reply.value).value, ValidateBeat, idx))
      && (r.Parsed? && !reply.value.JArr? ==> r.beats == [])
  {
    if reply.Decoded? && Iterate(reply.value).Some? {
      IteratedBeats(reply.value, Iterate(reply.value).value);
    }
  }

  /** The beats kept from an iterated reply are well formed and in reply order; a
      string or an object yields none, since what it iterates over are strings. */
  lemma IteratedBeats(v: Json, items: seq<Json>)
    requires Iterate(v) == Some(items)
    ensures forall b :: b in Select(items, ValidateBeat) ==> WellFormedBeat(b)
    ensures exists idx :: SelectedAt(Select(items, ValidateBeat), items, ValidateBeat, idx)
    ensures !v.JArr? ==> Select(items, ValidateBeat) == []
  {
    SelectIsOrderedSelection(items, ValidateBeat);
    forall b | b in Select(items, ValidateBeat) ensures WellFormedBeat(b) {
      SelectMembers(items, ValidateBeat, b);
    }
    if !v.JArr? {
      SelectNoneAccepted(items, ValidateBeat);
    }
  }

  /** `parse_script`: send the request, decode the reply, keep the elements that are
      valid beats. A malformed reply or a failed call gives `Failed`; invalid
      elements are skipped, and an empty result is not a failure. */
  method ParseScript(script: string, tone: string, format: string, service: BeatRequest -> Reply)
    returns (r: ParseResult)
    ensures r == ParseReply(service(BeatRequest(script, tone, format)))
  {
    var reply := service(BeatRequest(script, tone, format));
    match reply {
      case CallFailed(detail) =>
        r := Failed(ServiceUnavailable(detail));
      case NotJson =>
        r := Failed(MalformedReply);
      case Decoded(beatsData) =>
        var items := Iterate(beatsData);
        if items.None? {
          r := Failed(ServiceUnavailable(NotIterableDetail));
        } else {
          var validated := ValidateBeats(items.value);
          r := Parsed(validated);
        }
    }
  }

  /** The validation loop of `parse_script`: each element that builds a beat is kept
      (`parse_script` keeps its record form), the others are skipped. */
  method ValidateBeats(elements: seq<Json>) returns (validated: seq<SceneBeat>)
    ensures validated == Select(elements, ValidateBeat)
  {
    validated := [];
    var i := 0;
    while i < |elements|
      invariant 0 <= i <= |elements|
      invariant validated == Select(elements[..i], ValidateBeat)
    {
      SelectPrefixStep(elements, i, ValidateBeat);
      var beat := ValidateBeat(elements[i]);
      if beat.Some? {
        assert Emit(beat) == [beat.value];
        validated := validated + [beat.value];
      } else {
        assert Emit(beat) == [];
      }
      i := i + 1;
    }
    assert elements[..i] == elements;
  }

  // ---------------------------------------------------------------------------
  // Feasibility assessment
  // ---------------------------------------------------------------------------

  /** The `(feasible, confidence)` pair, as the values the reply held. */
  datatype Assessment = Assessment(feasible: Json, confidence: Json)

  /** The answer when the assessment fails in any way. */
  const FailOpen := Assessment(JBool(true), JNum(0.7))

  /** `_assess_generation_feasibility`: never fails. A reply that decodes to an
      object gives its `feasible` and `confidence` members, with `False` and `0.0`
      for missing ones; every other reply gives `FailOpen`. */
  function AssessFeasibility(reply: Reply): (r: Assessment)
    ensures !(reply.Decoded? && reply.value.JObj?) ==> r == FailOpen
    ensures reply.Decoded? && reply.value.JObj? ==>
      var fields := reply.value.fields;
      && r.feasible == (if Lookup(fields, "feasible").Some? then Lookup(fields, "feasible").value else JBool(false))
      && r.confidence == (if Lookup(fields, "confidence").Some? then Lookup(fields, "confidence").value else JNum(0.0))
  {
    match reply
    case Decoded(JObj(fields)) => Assessment(Get(fields, "feasible", JBool(false)), Get(fields, "confidence", JNum(0.0)))
    case _ => FailOpen
  }

  // ---------------------------------------------------------------------------
  // Prompt synthesiser
  // ---------------------------------------------------------------------------

  /** The strictly-exceeded confidence a beat needs to be kept. */
  const ConfidenceThreshold: real := 0.4

  const DefaultClipDuration := 3
  const DefaultClipAspectRatio := "9:16"

  const EmotionMap: map<string, string> := map[
    "problem_hook" := "frustrated",
    "solution" := "satisfied",
    "social_proof" := "happy",
    "urgency" := "excited",
    "transformation" := "amazed",
    "curiosity" := "intrigued"
  ]

  /** The emotion label used in the prompt texts: mapped through the table, or the
      beat's own label when the table has no entry for it. */
  function NaturalEmotion(emotion: string): (r: string)
    ensures r !in EmotionMap
    ensures emotion !in EmotionMap ==> r == emotion
  {
    if emotion in EmotionMap then EmotionMap[emotion] else emotion
  }

  /** The generation prompt: the description first, the style word last. */
  function PromptText(description: string, emotion: string): (r: string)
    ensures description <= r
    ensures |description| + |", cinematic"| <= |r| && r[|r| - |", cinematic"|..] == ", cinematic"
  {
    description + ", " + emotion + ", cinematic"
  }

  /** The instruction for a stock-footage search: the description follows the fixed
      opening words. */
  function SearchText(description: string, emotion: string): (r: string)
    ensures "Search for: " <= r
    ensures |"Search for: "| + |description| <= |r|
    ensures r[|"Search for: "|..|"Search for: "| + |description|] == description
  {
    "Search for: " + description + " showing " + emotion + " emotion"
  }

  /** For a given emotion, the prompt text and the search text each determine the
      description: two different descriptions never share either text. */
  lemma TextsDetermineDescription(d1: string, d2: string, emotion: string)
    ensures PromptText(d1, emotion) == PromptText(d2, emotion) ==> d1 == d2
    ensures SearchText(d1, emotion) == SearchText(d2, emotion) ==> d1 == d2
  {
    if PromptText(d1, emotion) == PromptText(d2, emotion) {
      MiddleDetermined([], d1, d2, ", " + emotion + ", cinematic");
    }
    if SearchText(d1, emotion) == SearchText(d2, emotion) {
      MiddleDetermined("Search for: ", d1, d2, " showing " + emotion + " emotion");
    }
  }

  /** One iteration of `generate_prompts`: re-validate the beat, assess it, and build
      its prompt when it passes the gate. `None` covers every way the beat is
      dropped: an invalid beat, `feasible` falsy, a confidence not above the
      threshold, a confidence that cannot be compared with a number, and a prompt
      that fails its own validation. */
  function ProcessBeat(beatData: Json, feasibility: string -> Reply, duration: int, aspectRatio: string)
    : (r: Option<BrollPrompt>)
    ensures r.Some? ==> ValidPrompt(r.value)
    ensures r.Some? ==> && r.value.confidenceScore.Some?
                        && ConfidenceThreshold < r.value.confidenceScore.value <= 1.0
    ensures r.Some? ==> r.value.duration == duration && r.value.aspectRatio == aspectRatio
    ensures r.Some? ==> ValidateBeat(beatData).Some?
  {
    match ValidateBeat(beatData)
    case None => None
    case Some(beat) =>
      var assessment := AssessFeasibility(feasibility(beat.sceneDescription));
      if !Truthy(assessment.feasible) then None
      else
        match NumericValue(assessment.confidence)
        case None => None
        case Some(confidence) =>
          if confidence > ConfidenceThreshold then
            var emotion := NaturalEmotion(beat.emotion);
            NewBrollPrompt(PromptText(beat.sceneDescription, emotion), Some(duration), Some(aspectRatio),
                           beat.scriptExcerpt, SearchText(beat.sceneDescription, emotion), Some(confidence))
          else None
  }

  /** A beat is kept exactly when it re-validates, its assessment is feasible, its
      confidence is a number in (0.4, 1] and the duration is in range; the prompt
      it then yields is made of the beat's fields and the mapped emotion. */
  lemma ProcessBeatCharacterised(beatData: Json, feasibility: string -> Reply, duration: int, aspectRatio: string)
    ensures var r := ProcessBeat(beatData, feasibility, duration, aspectRatio);
      r.Some? <==>
        && ValidateBeat(beatData).Some?
        && var a := AssessFeasibility(feasibility(ValidateBeat(beatData).value.sceneDescription));
        && Truthy(a.feasible)
        && NumericValue(a.confidence).Some?
        && ConfidenceThreshold < NumericValue(a.confidence).value <= 1.0
        && DurationMin <= duration <= DurationMax
    ensures var r := ProcessBeat(beatData, feasibility, duration, aspectRatio);
      r.Some? ==>
        var b := ValidateBeat(beatData).value;
        var e := NaturalEmotion(b.emotion);
        && r.value.prompt == b.sceneDescription + ", " + e + ", cinematic"
        && r.value.searchInstruction == "Search for: " + b.sceneDescription + " showing " + e + " emotion"
        && r.value.insertAfter == b.scriptExcerpt
  {
  }

  /** The per-beat step as a function of the beat record alone. */
  function Gate(feasibility: string -> Reply, duration: int, aspectRatio: string): Json -> Option<BrollPrompt>
  {
    (beatData: Json) => ProcessBeat(beatData, feasibility, duration, aspectRatio)
  }

  /** What every prompt of a batch satisfies: it is valid, carries the batch's
      duration and aspect ratio, and has a confidence in (0.4, 1]. */
  predicate BatchPrompts(prompts: seq<BrollPrompt>, duration: int, aspectRatio: string)
  {
    forall p :: p in prompts ==>
      && ValidPrompt(p) && p.duration == duration && p.aspectRatio == aspectRatio
      && p.confidenceScore.Some? && ConfidenceThreshold < p.confidenceScore.value <= 1.0
  }

  /** Every prompt a batch yields has a confidence in (0.4, 1] and the batch's
      duration and aspect ratio. */
  lemma GateOutputs(beatsData: seq<Json>, feasibility: string -> Reply, duration: int, aspectRatio: string)
    ensures BatchPrompts(Select(beatsData, Gate(feasibility, duration, aspectRatio)), duration, aspectRatio)
  {
    var g := Gate(feasibility, duration, aspectRatio);
    forall p | p in Select(beatsData, g)
      ensures ValidPrompt(p) && p.confidenceScore.Some? && ConfidenceThreshold < p.confidenceScore.value <= 1.0
      ensures p.duration == duration && p.aspectRatio == aspectRatio
    {
      SelectMembers(beatsData, g, p);
    }
  }

  /** `generate_prompts`: `None` arguments become 3 seconds and "9:16"; the result is
      the order-preserving selection of the beats the gate keeps, one prompt each. */
  method GeneratePrompts(beatsData: seq<Json>, feasibility: string -> Reply,
                         duration: Option<int>, aspectRatio: Option<string>)
    returns (prompts: seq<BrollPrompt>)
    ensures var d := if duration.Some? then duration.value else DefaultClipDuration;
            var a := if aspectRatio.Some? then aspectRatio.value else DefaultClipAspectRatio;
      && prompts == Select(beatsData, Gate(feasibility, d, a))
      && (exists idx :: SelectedAt(prompts, beatsData, Gate(feasibility, d, a), idx))
      && BatchPrompts(prompts, d, a)
    ensures |prompts| <= |beatsData|
  {
    var d := if duration.Some? then duration.value else DefaultClipDuration;
    var a := if aspectRatio.Some? then aspectRatio.value else DefaultClipAspectRatio;
    prompts := [];
    var i := 0;
    while i < |beatsData|
      invariant 0 <= i <= |beatsData|
      invariant prompts == Select(beatsData[..i], Gate(feasibility, d, a))
    {
      SelectPrefixStep(beatsData, i, Gate(feasibility, d, a));
      var prompt := ProcessBeat(beatsData[i], feasibility, d, a);
      assert Gate(feasibility, d, a)(beatsData[i]) == prompt;
      if prompt.Some? {
        prompts := prompts + [prompt.value];
      }
      i := i + 1;
    }
    assert beatsData[..i] == beatsData;
    SelectIsOrderedSelection(beatsData, Gate(feasibility, d, a));
    GateOutputs(beatsData, feasibility, d, a);
  }

  /** A duration outside 1..30 makes every beat fail, so the batch yields nothing. */
  lemma DurationOutOfRangeYieldsNothing(beatsData: seq<Json>, feasibility: string -> Reply, duration: int, aspectRatio: string)
    requires !(DurationMin <= duration <= DurationMax)
    ensures Select(beatsData, Gate(feasibility, duration, aspectRatio)) == []
  {
    SelectNoneAccepted(beatsData, Gate(feasibility, duration, aspectRatio));
  }

  /** The assessment of a valid beat's description says not feasible. */
  predicate AssessedInfeasible(beatData: Json, feasibility: string -> Reply)
    requires ValidateBeat(beatData).Some?
  {
    !Truthy(AssessFeasibility(feasibility(ValidateBeat(beatData).value.sceneDescription)).feasible)
  }

  /** The reply gives no assessment: the call failed, or the content is not JSON or
      not an object. */
  predicate NoAssessment(reply: Reply)
  {
    !(reply.Decoded? && reply.value.JObj?)
  }

  /** When the assessment of every valid beat of the batch says not feasible, the
      batch yields nothing. */
  lemma {:induction false} AllInfeasibleYieldsNothing(beatsData: seq<Json>, feasibility: string -> Reply, duration: int, aspectRatio: string)
    requires forall x :: x in beatsData && ValidateBeat(x).Some? ==> AssessedInfeasible(x, feasibility)
    ensures Select(beatsData, Gate(feasibility, duration, aspectRatio)) == []
  {
    var g := Gate(feasibility, duration, aspectRatio);
    forall x | x in beatsData ensures g(x).None? {
      if ValidateBeat(x).Some? {
        assert AssessedInfeasible(x, feasibility);
      }
    }
    SelectNoneAccepted(beatsData, g);
  }

  /** When the duration is in range and no valid beat of the batch gets an
      assessment (its call fails or the reply is not an object), every valid beat
      yields a prompt, with confidence 0.7: the assessment never blocks the batch. */
  lemma {:induction false} FailOpenKeepsEveryValidBeat(beatsData: seq<Json>, feasibility: string -> Reply, duration: int, aspectRatio: string)
    requires forall x :: x in beatsData && ValidateBeat(x).Some? ==>
      NoAssessment(feasibility(ValidateBeat(x).value.sceneDescription))
    requires DurationMin <= duration <= DurationMax
    ensures |Select(beatsData, Gate(feasibility, duration, aspectRatio))| == |Select(beatsData, ValidateBeat)|
    ensures forall p :: p in Select(beatsData, Gate(feasibility, duration, aspectRatio)) ==>
      p.confidenceScore == Some(0.7)
  {
    var g := Gate(feasibility, duration, aspectRatio);
    forall x | x in beatsData ensures g(x).Some? <==> ValidateBeat(x).Some? {
      FailOpenStep(x, feasibility, duration, aspectRatio);
    }
    SelectSameAcceptance(beatsData, g, ValidateBeat);
    forall p: BrollPrompt | p in Select(beatsData, g) ensures p.confidenceScore == Some(0.7) {
      SelectMembers(beatsData, g, p);
      var x :| x in beatsData && g(x) == Some(p);
      FailOpenStep(x, feasibility, duration, aspectRatio);
    }
  }

  /** One record whose own assessment fails: it yields a prompt exactly when it is a
      valid beat (and the duration is in range), and the prompt has confidence 0.7. */
  lemma FailOpenStep(beatData: Json, feasibility: string -> Reply, duration: int, aspectRatio: string)
    requires ValidateBeat(beatData).Some? ==>
      NoAssessment(feasibility(ValidateBeat(beatData).value.sceneDescription))
    requires DurationMin <= duration <= DurationMax
    ensures var r := ProcessBeat(beatData, feasibility, duration, aspectRatio);
      && (r.Some? <==> ValidateBeat(beatData).Some?)
      && (r.Some? ==> r.value.confidenceScore == Some(0.7))
  {
    if ValidateBeat(beatData).Some? {
      var d := ValidateBeat(beatData).value.sceneDescription;
      assert AssessFeasibility(feasibility(d)) == FailOpen;
    }
  }

  /** The threshold is strict: for a valid beat whose assessment is feasible with a
      numeric confidence `c`, the beat is kept exactly when 0.4 < c <= 1 (given a
      duration in range), so c == 0.4 is dropped. */
  lemma ThresholdIsStrict(beat: SceneBeat, feasibility: string -> Reply, c: real, aspectRatio: string)
    requires WellFormedBeat(beat)
    requires feasibility(beat.sceneDescription)
             == Decoded(JObj([("feasible", JBool(true)), ("confidence", JNum(c))]))
    ensures ProcessBeat(BeatToJson(beat), feasibility, DefaultClipDuration, aspectRatio).Some?
            <==> ConfidenceThreshold < c <= 1.0
  {
    RevalidateRoundTrip(beat);
    var fields := [("feasible", JBool(true)), ("confidence", JNum(c))];
    assert fields[..1][0].0 == "feasible";
    assert Lookup(fields, "feasible") == Some(JBool(true));
  }
}
