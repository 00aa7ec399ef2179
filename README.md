# B-roll bot: a verified model of the script-to-prompts pipeline

The B-roll bot turns a direct-response ad script into B-roll suggestions. A press
of the generate button goes through these steps:

1. The page checks the script text (`validate_input`).
2. It builds the request record (`AdScriptInput`).
3. It asks a generative text service to cut the script into scene beats
   (`parse_script`).
4. It asks the service, beat by beat, whether the scene can be generated
   (`_assess_generation_feasibility`).
5. It turns the beats that pass the feasibility gate into prompt records
   (`generate_prompts`).
6. It numbers the prompt records for export (`create_download_data`).

This project models those steps and proves what they promise:
- which records are accepted;
- what the instructions sent to the service contain;
- that both batch loops keep an in-order selection of their input;
- that the feasibility stage fails open;
- that every prompt shown has a confidence in (0.4, 1];
- how a press ends.

Modules, one file each:

- `PyValues` (`pyvalues.dfy`): `Option`, `Result` and decoded JSON values. It also
  models the Python semantics the code relies on: dictionary lookup where the last
  duplicate key wins, `dict.get`, truthiness, and the numbers `>` compares.
- `PyStr` (`pystr.dfy`): Python whitespace and `str.strip()`.
- `Filtering` (`filtering.dfy`): `Select`, the walk-validate-append-or-skip loop
  shape shared by `parse_script` and `generate_prompts`. It comes with the proof
  that its result is an order-preserving selection of its input.
- `Models` (`models.dfy`): the three pydantic records of `models.py`, as
  constructors that return the record or the validation errors.
- `Agents` (`agents.dfy`): the agent of `agents.py`:
  - the instructions text;
  - the beat parser, as a method with a loop;
  - the feasibility assessment;
  - the prompt synthesiser, as a method with a loop.
- `App` (`app.dfy`): `validate_input`, the export rows (a method with a loop) and
  the outcome of one button press in `main.py`.

The two service calls are parameters:
- `service: BeatRequest -> Reply` for the beat request;
- `feasibility: string -> Reply` for the assessment of a scene description.

A `Reply` is one of three things:
- a failed call (error or timeout, with its detail);
- content that is not JSON;
- the decoded JSON value.

The beat request is sent as two texts, `Messages(request)`: the instructions
`SystemPrompt(tone, format)` and the message `UserPrompt(script, tone, format)`.
Modelling the service as a function of the request rather than of those two texts
loses nothing. Every property here holds for every service, and a reply that
depends on the texts depends only on the request that determines them.

## Notes on the code's behaviour

- `_assess_generation_feasibility` returns whatever the reply's `feasible` and
  `confidence` members hold, which need not be a boolean and a number in [0, 1].
  The gate uses Python truthiness for `feasible`. A `confidence` that cannot be
  compared with a number makes the beat be skipped. A confidence above 1 passes
  the gate and is then rejected by the prompt record.
- `script_excerpt` and `emotion` may be empty.
- The record checks the script's length before it strips the script. So an
  accepted request can hold a stripped script shorter than 10 characters
  (`StoredScriptMayBeShorterThanMinimum`).
- The page's message says "less than 5000 characters", but a script of exactly
  5000 characters is accepted.
- None of the eight tones a request can carry has tone guidance. No request from
  the page ever gets a tone section, and every request gets a format section
  (`RequestStrategySections`).
- A decoded beat reply that is a string or an object can be iterated. It then
  yields no beats rather than a failure. `null`, a boolean or a number cannot be
  iterated, and the parse fails with "Service temporarily unavailable".

## Model

| member | source | states |
|---|---|---|
| PyStr.Strip | models.py:12-14 | `str.strip()`: the result is empty exactly when the text is all whitespace, and otherwise neither starts nor ends with whitespace |
| PyStr.StripIsCore | models.py:14 | the stripped text is the part of the input between a whitespace prefix and a whitespace suffix |
| Models.ScriptFieldError | models.py:6-14 | the script field is accepted exactly when its raw length is in 10..5000 and it is not blank |
| Models.NewAdScriptInput | models.py:4-14 | a request is accepted exactly when the script is acceptable, the tone is one of the eight literals and the format one of the three; the stored script is the stripped text; otherwise the errors name exactly the failing fields |
| Models.StoredScriptMayBeShorterThanMinimum | models.py:6-14 | the length bound applies before stripping, so `" abcdefgh "` is accepted and stored as an 8-character script |
| Models.StringField | models.py:27-30 | a required string field is found exactly when the member is present and holds a string, and the value found is that string |
| Models.ValidateBeat | models.py:25-37 | a beat is built exactly when the data is an object with the four string members, the timestamp is non-empty and holds `:`, and the description has at least 10 characters; the beat holds those members unchanged |
| Models.BeatRecordLookups | agents.py:137 | `BeatToJson`, the record form `beat.dict()`, holds each of the beat's four fields under its own name |
| Models.RevalidateRoundTrip | models.py:25-37 | a well-formed beat's record form (`beat.dict()`) validates back to the same beat |
| Models.RevalidateAll | agents.py:136-137 | validating the record forms of a list of well-formed beats gives back the same list |
| Models.EmptyExcerptAccepted | models.py:29-30 | a beat with an empty emotion and an empty excerpt is accepted |
| Models.NewBrollPrompt | models.py:39-46 | a prompt record is built exactly when the duration (5 when not given) is in 1..30 and the confidence is absent or in [0, 1]; the aspect ratio defaults to "9:16"; all fields are kept |
| Filtering.Select | agents.py:194-235 | the append-on-success loop never returns more records than it walks over |
| Filtering.SelectIsOrderedSelection | agents.py:194-235 | the result of the append-on-success loop is an order-preserving selection of the input: every output comes from an accepted element, in input order, and no accepted element is lost |
| Filtering.SelectNoneAccepted | agents.py:194-235 | when every element is rejected, the loop returns nothing |
| Filtering.SelectEmptyRejectsAll | agents.py:194-235 | when the loop returns nothing, every element was rejected |
| Filtering.SelectSameAcceptance | agents.py:194-235 | two loops that accept the same elements return equally many records |
| Agents.SystemPromptFrame | agents.py:25-106 | `SystemPrompt`, the instructions, is the base text, then a middle part, then the examples block, and the middle part is always the strategy text of the tone and format |
| Agents.StrategySections | agents.py:68-91 | the strategy text has a tone section with the tone's guidance exactly when the tone is one of the seven keys, and a format section with the format's guidance exactly when the format is one of the three keys; any other value adds nothing |
| Agents.RequestStrategySections | agents.py:68-91 | for every tone and format a request can carry, there is no tone section and there is a format section with the format's guidance |
| Agents.ToneGuidanceIsOneLine | agents.py:68-76 | every tone guidance text is a single line |
| Agents.UserPromptDeterminesScript | agents.py:113-119 | `UserPrompt`, the message, determines the script: for a given tone and format, two scripts are sent as the same message only when they are equal |
| Agents.MessagesDetermineRequest | agents.py:109-119 | `Messages`, the two texts a request is sent as, determine the request: two requests with the same tone and format are sent with the same message only when they are equal |
| Agents.Iterate | agents.py:133 | `for item in value` fails exactly on null, booleans and numbers; a string or an object iterates over strings |
| Agents.ParseReply | agents.py:109-151 | a parse returns beats only for a decoded reply that can be iterated, and never more beats than the elements it walks over |
| Agents.FailureMessageDeterminesFailure | agents.py:144-151 | `FailureMessage`: the message tells the failures apart; a malformed reply and an unavailable service never share a message, and two different details give two messages |
| Agents.ParseReplyOutcome | agents.py:109-151 | the parse fails only when the call fails, the reply is not JSON or the reply cannot be iterated, each with its message; otherwise it returns well-formed beats, in reply order, none lost; a string or an object reply gives none |
| Agents.ParseScript | agents.py:109-151 | `parse_script` returns the outcome of the service's reply to the request (`ParseReply`) |
| Agents.ValidateBeats | agents.py:132-141 | the validation loop returns the valid beats of the elements, in order |
| Agents.AssessFeasibility | agents.py:153-185 | a reply that decodes to an object gives its `feasible` and `confidence` members, with `False` and `0.0` for missing ones; any other reply gives the fail-open answer (true, 0.7) |
| Agents.NaturalEmotion | agents.py:205-214 | the emotion used in the texts is never a raw beat-type key of the table; a label the table does not know is used unchanged |
| Agents.PromptText | agents.py:215 | the generation prompt begins with the scene description and ends with ", cinematic" |
| Agents.SearchText | agents.py:217 | the search instruction is "Search for: " followed by the scene description |
| Agents.TextsDetermineDescription | agents.py:215-217 | for a given emotion, two different descriptions never share a prompt text or a search text |
| Agents.ProcessBeat | agents.py:196-233 | a beat yields a prompt only if it re-validates; the prompt is valid, carries the batch's duration and aspect ratio, and has a confidence in (0.4, 1] |
| Agents.ProcessBeatCharacterised | agents.py:198-227 | a beat yields a prompt exactly when it re-validates, its assessment is truthy-feasible with a numeric confidence in (0.4, 1] and the duration is in 1..30; the prompt text and search text are built from the description and the mapped emotion, and `insert_after` is the excerpt |
| Agents.GateOutputs | agents.py:194-235 | every prompt a batch yields is valid, has the batch's duration and aspect ratio and a confidence in (0.4, 1] |
| Agents.GeneratePrompts | agents.py:187-235 | missing arguments become 3 seconds and "9:16"; the result is the in-order selection of the prompts the gate makes, never longer than the input, with every confidence in (0.4, 1] |
| Agents.DurationOutOfRangeYieldsNothing | agents.py:219-233 | a duration outside 1..30 makes every beat fail, so the batch is empty |
| Agents.AllInfeasibleYieldsNothing | agents.py:203 | when the assessment of every valid beat of the batch says not feasible, the batch is empty |
| Agents.FailOpenKeepsEveryValidBeat | agents.py:183-185 | when the assessment of no valid beat of the batch succeeds and the duration is in range, every valid beat yields a prompt, with confidence 0.7 |
| Agents.FailOpenStep | agents.py:183-185 | when a valid beat's own assessment fails, it yields a prompt with confidence 0.7 (duration in range); an invalid record yields none |
| Agents.ThresholdIsStrict | agents.py:203 | for a feasible beat with numeric confidence c, the beat is kept exactly when 0.4 < c <= 1, so 0.4 itself is dropped |
| App.ValidateInput | main.py:35-46 | the check passes, with an empty message, exactly when the request record accepts the script; a blank script gets "Please enter a script." before any length check |
| App.LengthMessages | main.py:40-44 | for a non-blank script, the short message appears exactly below 10 characters and the long message exactly above 5000 |
| App.ChoicesAreAccepted | main.py:126-137 | the select boxes offer exactly the tones and formats the request record accepts |
| App.ControlDefaults | main.py:92-93 | the slider starts inside its range at the generator's default of 3 seconds, the aspect-ratio box starts on "9:16", and every slider value passes the prompt record's duration check |
| App.ExportRows | main.py:51-61 | one export row per prompt, numbered 1..n in order, each carrying its prompt's fields |
| App.ExportRoundTrip | main.py:53-61 | reading the prompts back from the export rows gives the prompts exported |
| App.CreateDownloadData | main.py:48-61 | the row-building loop produces exactly the export rows |
| App.OutcomeMessagesDistinct | main.py:145-170 | `OutcomeMessage`: a stopped parse always shows a message, and the two warnings and the parse-failure messages are pairwise different, so the empty outcomes never look alike |
| App.PressOutcome | main.py:140-171 | the agent runs only on a script the page's check accepts and a request the record accepts |
| App.PressChecksInput | main.py:140-157 | a press stops at the input check exactly when the check fails, with its message; a rejected request carries the record's errors; with choices from the select boxes, an accepted script always reaches the agent, stripped |
| App.AgentOutcome | main.py:157-171 | prompts are shown only after a successful parse, at least one and never more than the beats, with one export row each |
| App.AgentOutcomeCases | main.py:157-171 | a failed parse stops with its failure; no beats give the first warning; the synthesiser runs only on a non-empty list; the second warning comes exactly when it rejects every beat; otherwise the prompts are the in-order selection of the kept beats, with confidences in (0.4, 1], and the export rows are theirs |
| App.Present | main.py:157-199 | the page's steps after the parse produce the outcome of `AgentOutcome` |
| App.GenerateBroll | main.py:140-199 | one press, step by step, produces the outcome `PressOutcome` describes |
| App.FailOpenKeepsEveryParsedBeat | main.py:157-167 | when the assessment of no parsed beat succeeds and the duration is from the slider, every beat the parser returned yields a prompt |

## Left out

- The network calls to the generative text service, and the client set-up
  (`initialize_openai_client`, `create_agent`). The two services are function
  parameters. Timeouts and errors are folded into `CallFailed` with its detail.
  The exact text of an exception message is not modelled: the detail is
  whatever the parameter supplies.
- `NotIterableDetail`: the detail for a decoded reply that cannot be iterated is
  simplified to "object is not iterable"; Python's message also names the type
  (for example "'NoneType' object is not iterable").
- `ParseScript`: the request is passed to the service as a `BeatRequest`. The
  two texts are stated separately, as `Messages`, so the model does not carry
  the texts through the call itself.
- JSON decoding (`json.loads`). A reply is already decoded or marked as not JSON.
  The feasibility request's fixed instruction text is not modelled, because the
  assessment is a function of the scene description.
- The `st.cache_data` memoisation of `parse_script`. It only avoids repeated
  calls with the same arguments.
- All Streamlit rendering:
  - the character counter;
  - the result cards;
  - the percentage display of the confidence, which is floating point used only
    for presentation;
  - the usage tips;
  - the download buttons.

  The outcome of a press is a returned value (`Outcome`). `OutcomeMessage` gives
  the error or warning text it shows, except for `InputRejected`, whose message
  text embeds the exception text.
- CSV and JSON serialisation of the export rows (pandas, `json.dumps`). The
  model stops at the row list both are written from.
- Logging.
- `Config.from_env`. The defaults are used: minimum 10, maximum 5000, slider
  default 3. The unused tables `TONE_GUIDANCE`, `FORMAT_GUIDANCE`,
  `SCENE_TYPES` and `PLATFORM_SPECS` are not part of this model.
- Pydantic's coercion of non-string values into string fields. A member that is
  not a JSON string makes a beat invalid. The coercion of booleans and numbers
  for `confidence_score` is modelled through `NumericValue`.
- Floating-point confidences are modelled as `real`. Only comparisons with 0,
  0.4 and 1 matter.
