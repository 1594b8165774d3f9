/**
 * The generation pipeline (src/lib/agents/orchestrator.ts): three agent
 * stages (schema, UI, API), each trying the caller's models in order until
 * one produces non-blank text; a textual check of the generated code with at
 * most one repair request per file; and the storage of three files and one
 * version.
 *
 * The language model is reached through the client module: `Ask(api)` sends
 * a stage prompt to a model id the way the stages do, and `Repair(api)` is
 * `generateCode` with its defaults. The stages and the repair step are
 * specified for any such functions, so their proofs never look inside the
 * client. Identifiers and the clock are parameters.
 */
module Orchestrator {
  import opened Wrappers
  import opened JsText
  import opened Types
  import opened GroqClient
  import opened Storage

  // --------------------------------------------------------------- logging

  function LevelName(level: LogLevel): string
  {
    match level
    case Info => "info"
    case Warning => "warning"
    case Error => "error"
  }

  /** What `addLog` hands to `storage.logs.add` for one entry. */
  function ToStored(log: AILog): StoredLog
  {
    StoredLog(log.agent, LevelName(log.level), log.message, log.context)
  }

  function StoredAll(logs: seq<AILog>): (r: seq<StoredLog>)
    ensures |r| == |logs|
    ensures forall k :: 0 <= k < |logs| ==> r[k] == ToStored(logs[k])
  {
    if logs == [] then [] else [ToStored(logs[0])] + StoredAll(logs[1..])
  }

  lemma StoredAllAppend(a: seq<AILog>, b: seq<AILog>)
    ensures StoredAll(a + b) == StoredAll(a) + StoredAll(b)
  {
    assert |StoredAll(a + b)| == |StoredAll(a) + StoredAll(b)|;
    forall k | 0 <= k < |a| + |b|
      ensures StoredAll(a + b)[k] == (StoredAll(a) + StoredAll(b))[k]
    {
      if k >= |a| {
        assert (a + b)[k] == b[k - |a|];
      }
    }
  }

  lemma AppendAssoc<T>(a: seq<T>, b: seq<T>, c: seq<T>)
    ensures (a + b) + c == a + (b + c)
  {
  }

  // --------------------------------------------------------- model dispatch

  /** Which client method a model id is sent to. */
  datatype Route = GptOssRoute | FamilyRoute(family: Family)

  /** The dispatch shared by the three stages: every id has a route, and unknown ids go to Llama 3.3. */
  function RouteOf(modelId: string): (r: Route)
    ensures modelId == GptOssModel <==> r == GptOssRoute
    ensures r.FamilyRoute? && r.family != Llama33 ==> FamilyModel(r.family) == modelId
    ensures modelId !in {GptOssModel, MaverickModel, ScoutModel, KimiModel} <==> r == FamilyRoute(Llama33)
  {
    if modelId == GptOssModel then GptOssRoute
    else if modelId == MaverickModel then FamilyRoute(Maverick)
    else if modelId == ScoutModel then FamilyRoute(Scout)
    else if modelId == KimiModel then FamilyRoute(Kimi)
    else FamilyRoute(Llama33)
  }

  /** One generation request to the model `modelId`, with the wrapper's default options. */
  function Generate(api: Api, modelId: string, prompt: string): (r: Result<string, Thrown>)
    ensures r.Ok? ==> IsTrimmed(r.value)
    ensures modelId != GptOssModel && AllSpace(prompt) ==> r == Err(GroqError(PromptRequiredMessage, None))
  {
    match RouteOf(modelId)
    case GptOssRoute => GenerateWithGptOss(api, prompt, NoOptions)
    case FamilyRoute(f) => GenerateWith(api, f, prompt, NoOptions)
  }

  /** A stage's request to one model: the model id and what the stage's prompt is built from. */
  type Asker = (string, Brief) -> Result<string, Thrown>

  /** A repair request: the code and its issues. */
  type Repairer = (string, seq<string>) -> Result<string, Thrown>

  /** How the stages ask: the stage's prompt, sent to the named model. */
  function Ask(api: Api): Asker
  {
    (modelId: string, brief: Brief) => Generate(api, modelId, BriefText(brief))
  }

  /** How the repair step asks: the repair prompt, sent through `generateCode` with no options. */
  function Repair(api: Api): Repairer
  {
    (code: string, errors: seq<string>) => GenerateCode(api, FixPrompt(code, errors), NoOptions)
  }

  /** Every model id is answered by the model it names, and an unknown one by Llama 3.3. */
  lemma RoutedToNamedModel(api: Api, modelId: string, prompt: string)
    ensures modelId == GptOssModel ==> Generate(api, modelId, prompt) == GenerateWithGptOss(api, prompt, NoOptions)
    ensures modelId != GptOssModel ==>
      exists f :: Generate(api, modelId, prompt) == GenerateCode(api, prompt, FamilyOptions(f, NoOptions)) &&
        (FamilyModel(f) == modelId || (f == Llama33 && modelId !in {MaverickModel, ScoutModel, KimiModel}))
  {
    if modelId != GptOssModel {
      var f := RouteOf(modelId).family;
      assert Generate(api, modelId, prompt) == GenerateCode(api, prompt, FamilyOptions(f, NoOptions));
    }
  }

  // ------------------------------------------------------------------ stages

  /** The three agent stages; they differ only in their messages and prompt. */
  datatype Stage = SchemaStage | UiStage | ApiStage

  function Agent(stage: Stage): string
  {
    match stage
    case SchemaStage => "database-agent"
    case UiStage => "ui-agent"
    case ApiStage => "backend-agent"
  }

  function IntroMessage(stage: Stage, modelCount: nat): string
  {
    var n := NatToString(modelCount);
    match stage
    case SchemaStage => "Analyzing data requirements using " + n + " model(s)"
    case UiStage => "Analyzing UI requirements using " + n + " model(s)"
    case ApiStage => "Generating API routes using " + n + " model(s)"
  }

  function SuccessMessage(stage: Stage, modelId: string): string
  {
    match stage
    case SchemaStage => "Successfully generated schema with model: " + modelId
    case UiStage => "Successfully generated UI code with model: " + modelId
    case ApiStage => "Successfully generated API code with model: " + modelId
  }

  function ExhaustedMessage(stage: Stage): string
  {
    match stage
    case SchemaStage => "All models failed to generate database schema"
    case UiStage => "All models failed to generate UI code"
    case ApiStage => "All models failed to generate API code"
  }

  function AttemptLog(stage: Stage, modelId: string): AILog
  {
    AILog(Agent(stage), Info, "Attempting generation with model: " + modelId, None)
  }

  function SuccessLog(stage: Stage, modelId: string): AILog
  {
    AILog(Agent(stage), Info, SuccessMessage(stage, modelId), None)
  }

  function FailureLog(stage: Stage, modelId: string, e: Thrown): AILog
  {
    AILog(Agent(stage), Warning, "Model " + modelId + " failed: " + e.MessageOr("Unknown error"), None)
  }

  /**
   * `code && code.trim()`: the text counts as a result. `trim()` gives the
   * empty string exactly on text made of white space only, the empty text
   * included.
   */
  predicate Usable(r: Result<string, Thrown>)
  {
    r.Ok? && !AllSpace(r.value)
  }

  /** The result of a stage, the log entries of its loop, and how many models it asked. */
  datatype StageOutcome = StageOutcome(result: Result<string, Thrown>, logs: seq<AILog>, tried: nat)

  /** The entries one asked model adds: the attempt, then its failure or its success, if any. */
  function AttemptEntries(stage: Stage, modelId: string, outcome: Result<string, Thrown>): seq<AILog>
  {
    [AttemptLog(stage, modelId)] +
    (if outcome.Err? then [FailureLog(stage, modelId, outcome.error)]
     else if Usable(outcome) then [SuccessLog(stage, modelId)]
     else [])
  }

  /**
   * The fallback loop over `models`, with `lastError` the last value thrown
   * so far: stop at the first usable text; log every failure and go on; when
   * the models run out, throw the last error or the stage's own error.
   */
  function Fallback(stage: Stage, ask: Asker, brief: Brief,
                    models: seq<string>, lastError: Option<Thrown>): (o: StageOutcome)
    ensures o.tried <= |models|
    ensures o.result.Ok? ==> !AllSpace(o.result.value)
    decreases |models|
  {
    if models == [] then StageOutcome(Err(lastError.GetOr(PlainError(ExhaustedMessage(stage)))), [], 0)
    else
      var m := models[0];
      var outcome := ask(m, brief);
      if Usable(outcome) then StageOutcome(outcome, AttemptEntries(stage, m, outcome), 1)
      else
        var rest := Fallback(stage, ask, brief, models[1..], if outcome.Err? then Some(outcome.error) else lastError);
        StageOutcome(rest.result, AttemptEntries(stage, m, outcome) + rest.logs, rest.tried + 1)
  }

  /** One step of the fallback loop: the first model, then the rest. */
  lemma FallbackStep(stage: Stage, ask: Asker, brief: Brief,
                     models: seq<string>, lastError: Option<Thrown>)
    requires models != []
    ensures var outcome := ask(models[0], brief);
      var f := Fallback(stage, ask, brief, models, lastError);
      (Usable(outcome) ==> f == StageOutcome(outcome, AttemptEntries(stage, models[0], outcome), 1)) &&
      (!Usable(outcome) ==>
        var rest := Fallback(stage, ask, brief, models[1..], if outcome.Err? then Some(outcome.error) else lastError);
        f == StageOutcome(rest.result, AttemptEntries(stage, models[0], outcome) + rest.logs, rest.tried + 1))
  {
  }

  /** A stage tries its models in order and returns the first usable text. */
  lemma {:induction false} FallbackFirstUsable(stage: Stage, ask: Asker, brief: Brief,
                                               models: seq<string>, lastError: Option<Thrown>, i: nat)
    requires i < |models| && Usable(ask(models[i], brief))
    requires forall j :: 0 <= j < i ==> !Usable(ask(models[j], brief))
    ensures Fallback(stage, ask, brief, models, lastError).result == ask(models[i], brief)
    ensures Fallback(stage, ask, brief, models, lastError).tried == i + 1
    decreases i
  {
    if i > 0 {
      var outcome := ask(models[0], brief);
      assert !Usable(outcome);
      FallbackFirstUsable(stage, ask, brief, models[1..], if outcome.Err? then Some(outcome.error) else lastError, i - 1);
    }
  }

  /**
   * Models after the first usable one are never asked: two ways of asking
   * that agree up to it give the same stage outcome.
   */
  lemma {:induction false} FallbackIgnoresLater(stage: Stage, ask1: Asker,
                                                ask2: Asker, brief: Brief,
                                                models: seq<string>, lastError: Option<Thrown>, i: nat)
    requires i < |models| && Usable(ask1(models[i], brief))
    requires forall j :: 0 <= j <= i ==> ask1(models[j], brief) == ask2(models[j], brief)
    ensures Fallback(stage, ask1, brief, models, lastError) == Fallback(stage, ask2, brief, models, lastError)
    decreases i
  {
    if !Usable(ask1(models[0], brief)) {
      assert i > 0;
      var outcome := ask1(models[0], brief);
      FallbackIgnoresLater(stage, ask1, ask2, brief, models[1..], if outcome.Err? then Some(outcome.error) else lastError, i - 1);
    }
  }

  /** When no model gives usable text, every model is asked and the stage throws. */
  lemma {:induction false} FallbackExhausted(stage: Stage, ask: Asker, brief: Brief,
                                             models: seq<string>, lastError: Option<Thrown>)
    requires forall j :: 0 <= j < |models| ==> !Usable(ask(models[j], brief))
    ensures Fallback(stage, ask, brief, models, lastError).tried == |models|
    ensures Fallback(stage, ask, brief, models, lastError).result.Err?
    decreases |models|
  {
    if models != [] {
      var outcome := ask(models[0], brief);
      FallbackExhausted(stage, ask, brief, models[1..], if outcome.Err? then Some(outcome.error) else lastError);
    }
  }

  /**
   * The error a stage throws: that of the last model that threw, or, when
   * none threw, the earlier error or the stage's own error.
   */
  lemma {:induction false} FallbackThrowsLastError(stage: Stage, ask: Asker, brief: Brief,
                                                   models: seq<string>, lastError: Option<Thrown>, j: int)
    requires forall k :: 0 <= k < |models| ==> !Usable(ask(models[k], brief))
    requires -1 <= j < |models|
    requires forall k :: j < k < |models| ==> ask(models[k], brief).Ok?
    ensures j == -1 ==>
      Fallback(stage, ask, brief, models, lastError).result == Err(lastError.GetOr(PlainError(ExhaustedMessage(stage))))
    ensures j >= 0 && ask(models[j], brief).Err? ==>
      Fallback(stage, ask, brief, models, lastError).result == ask(models[j], brief)
    decreases |models|
  {
    if models != [] {
      var outcome := ask(models[0], brief);
      var next := if outcome.Err? then Some(outcome.error) else lastError;
      assert forall k :: 0 <= k < |models| - 1 ==> models[1..][k] == models[k + 1];
      if j <= 0 {
        FallbackThrowsLastError(stage, ask, brief, models[1..], next, -1);
      } else {
        FallbackThrowsLastError(stage, ask, brief, models[1..], next, j - 1);
      }
    }
  }

  /** The entries of the asked models, in order. */
  function Trail(stage: Stage, ask: Asker, brief: Brief, asked: seq<string>): seq<AILog>
  {
    if asked == [] then [] else AttemptEntries(stage, asked[0], ask(asked[0], brief)) + Trail(stage, ask, brief, asked[1..])
  }

  /**
   * The stage's log: each asked model, in order, adds one attempt entry and
   * one warning when it threw, or one success entry when its text was usable.
   */
  lemma {:induction false} FallbackLogIsTrail(stage: Stage, ask: Asker, brief: Brief,
                                              models: seq<string>, lastError: Option<Thrown>)
    ensures Fallback(stage, ask, brief, models, lastError).logs ==
      Trail(stage, ask, brief, models[..Fallback(stage, ask, brief, models, lastError).tried])
    decreases |models|
  {
    if models != [] {
      var outcome := ask(models[0], brief);
      var o := Fallback(stage, ask, brief, models, lastError);
      var asked := models[..o.tried];
      if Usable(outcome) {
        assert asked == [models[0]];
        assert Trail(stage, ask, brief, asked[1..]) == [];
      } else {
        var next := if outcome.Err? then Some(outcome.error) else lastError;
        FallbackLogIsTrail(stage, ask, brief, models[1..], next);
        var rest := Fallback(stage, ask, brief, models[1..], next);
        assert asked[0] == models[0];
        assert asked[1..] == models[1..][..rest.tried];
      }
    }
  }

  /** A stage whose first `i` models are done, with `written` the entries so far. */
  function Resume(stage: Stage, ask: Asker, brief: Brief, models: seq<string>, i: nat,
                  lastError: Option<Thrown>, written: seq<AILog>): StageOutcome
    requires i <= |models|
  {
    var f := Fallback(stage, ask, brief, models[i..], lastError);
    StageOutcome(f.result, written + f.logs, i + f.tried)
  }

  /** One turn of a stage's loop: a usable answer ends the stage, anything else leaves the rest of the models. */
  lemma StageStep(stage: Stage, ask: Asker, brief: Brief, models: seq<string>, i: nat,
                  lastError: Option<Thrown>, written: seq<AILog>)
    requires i < |models|
    ensures var outcome := ask(models[i], brief);
      var entries := AttemptEntries(stage, models[i], outcome);
      var spec := Resume(stage, ask, brief, models, i, lastError, written);
      (Usable(outcome) ==> spec == StageOutcome(outcome, written + entries, i + 1)) &&
      (!Usable(outcome) ==>
        spec == Resume(stage, ask, brief, models, i + 1, if outcome.Err? then Some(outcome.error) else lastError,
                       written + entries))
  {
    assert models[i..][0] == models[i] && models[i..][1..] == models[i + 1..];
    FallbackStep(stage, ask, brief, models[i..], lastError);
    var outcome := ask(models[i], brief);
    if !Usable(outcome) {
      var f := Fallback(stage, ask, brief, models[i + 1..], if outcome.Err? then Some(outcome.error) else lastError);
      AppendAssoc(written, AttemptEntries(stage, models[i], outcome), f.logs);
    }
  }

  /** A stage whose models are all done throws the last error, or its own. */
  lemma StageEnd(stage: Stage, ask: Asker, brief: Brief, models: seq<string>,
                 lastError: Option<Thrown>, written: seq<AILog>)
    ensures Resume(stage, ask, brief, models, |models|, lastError, written) ==
      StageOutcome(Err(lastError.GetOr(PlainError(ExhaustedMessage(stage)))), written, |models|)
  {
    assert models[|models|..] == [];
  }

  /** A stage before its first model. */
  lemma StageStart(stage: Stage, ask: Asker, brief: Brief, models: seq<string>, intro: AILog)
    requires intro == AILog(Agent(stage), Info, IntroMessage(stage, |models|), None)
    ensures Resume(stage, ask, brief, models, 0, None, [intro]) == RunStageSpec(stage, ask, brief, models)
  {
    assert models[0..] == models;
  }

  /** A whole stage: its introduction, then the fallback loop from no error. */
  function RunStageSpec(stage: Stage, ask: Asker, brief: Brief, models: seq<string>): StageOutcome
  {
    var o := Fallback(stage, ask, brief, models, None);
    StageOutcome(o.result, [AILog(Agent(stage), Info, IntroMessage(stage, |models|), None)] + o.logs, o.tried)
  }

  // ----------------------------------------------------------------- prompts

  /** How every stage prompt opens: the user's description follows, in double quotes. */
  const DescriptionLead: string := "Based on this app description: \""

  /** The prompt opens with the lead and then the user's description, verbatim and closed by a quote. */
  predicate QuotesDescription(r: string, prompt: string)
  {
    |r| > |DescriptionLead| + |prompt| && r[..|DescriptionLead|] == DescriptionLead &&
    r[|DescriptionLead|..|DescriptionLead| + |prompt|] == prompt && r[|DescriptionLead| + |prompt|] == '"'
  }

  lemma QuotedBetween(prompt: string, rest: string)
    requires rest != [] && rest[0] == '"'
    ensures QuotesDescription(DescriptionLead + prompt + rest, prompt)
  {
    var r := DescriptionLead + prompt + rest;
    assert r[|DescriptionLead| + |prompt|] == rest[0];
  }

  lemma QuotedExtend(prompt: string, x: string, y: string, z: string)
    requires QuotesDescription(x, prompt)
    ensures QuotesDescription(x + y + z, prompt)
  {
    assert (x + y + z)[..|x|] == x;
  }

  function SchemaPrompt(prompt: string): (r: string)
    ensures QuotesDescription(r, prompt)
  {
    QuotedBetween(prompt, SchemaPromptTail);
    DescriptionLead + prompt + SchemaPromptTail
  }

  const SchemaPromptTail: string :=
    "\"\n\n" +
    "Generate a TypeScript interface/type for the database schema. Include:\n" +
    "1. All necessary fields for the app\n" +
    "2. Proper TypeScript types\n" +
    "3. Optional fields marked as optional\n" +
    "4. Timestamps for created/updated dates\n\n" +
    "Return ONLY the TypeScript interfaces, no explanations. Wrap in triple backticks."

  function UiPrompt(prompt: string): (r: string)
    ensures QuotesDescription(r, prompt)
  {
    QuotedBetween(prompt, UiPromptTail);
    DescriptionLead + prompt + UiPromptTail
  }

  const UiPromptTail: string :=
    "\"\n  \n" +
    "Generate a production-ready React page component. Return ONLY valid TypeScript/React code:\n\n" +
    "1. Use React hooks (useState, useEffect, useContext)\n" +
    "2. Use Tailwind CSS for styling\n" +
    "3. Include proper TypeScript types\n" +
    "4. Create a clean, modern UI with white background, black text, orange accents\n" +
    "5. Make it fully functional (not a mock)\n" +
    "6. Import from @/components for reusable components if needed\n" +
    "7. No placeholder text or comments\n\n" +
    "Return only the component code, starting with 'export default function' or 'function', wrapped in triple backticks."

  const SchemaLead: string := "\" and database schema:\n"

  function ApiPromptHead(prompt: string): string
  {
    DescriptionLead + prompt + SchemaLead
  }

  const ApiPromptTail: string :=
    "\n\nGenerate Next.js API route handlers. Return ONLY valid TypeScript code:\n\n" +
    "1. Create API routes for common operations (GET, POST, PUT, DELETE)\n" +
    "2. Include proper error handling and validation\n" +
    "3. Use standard HTTP status codes\n" +
    "4. Add CORS headers\n" +
    "5. Return JSON responses\n" +
    "6. No authentication needed (public APIs)\n\n" +
    "Return multiple routes as separate export functions. Wrap in triple backticks."

  function ApiPrompt(prompt: string, schema: string): (r: string)
    ensures QuotesDescription(r, prompt)
  {
    QuotedBetween(prompt, SchemaLead);
    QuotedExtend(prompt, ApiPromptHead(prompt), schema, ApiPromptTail);
    ApiPromptHead(prompt) + schema + ApiPromptTail
  }

  /** What a stage's prompt is built from. */
  datatype Brief = SchemaBrief(prompt: string) | UiBrief(prompt: string) | ApiBrief(prompt: string, schema: string)

  function BriefText(brief: Brief): string
  {
    match brief
    case SchemaBrief(prompt) => SchemaPrompt(prompt)
    case UiBrief(prompt) => UiPrompt(prompt)
    case ApiBrief(prompt, schema) => ApiPrompt(prompt, schema)
  }

  /** The API stage sees the generated schema verbatim, right after its header line. */
  lemma ApiPromptEmbedsSchema(prompt: string, schema: string)
    ensures StartsAt(ApiPrompt(prompt, schema), |ApiPromptHead(prompt)|, schema)
    ensures Includes(ApiPrompt(prompt, schema), schema)
  {
    var head := ApiPromptHead(prompt);
    var p := ApiPrompt(prompt, schema);
    assert p[|head|..|head| + |schema|] == schema;
    IncludesAt(p, |head|, schema);
  }

  const FixLead: string := "Fix the following issues in this React code:\n\nErrors found:\n"

  const CodeLead: string := "\n\nOriginal code:\n```\n"

  function FixPromptHead(errors: seq<string>): string
  {
    FixLead + Join(errors, "\n") + CodeLead
  }

  const FixPromptTail: string :=
    "\n```\n\n" +
    "Return the corrected code. Ensure:\n" +
    "1. No placeholder text or comments\n" +
    "2. All imports are valid\n" +
    "3. No broken references\n" +
    "4. Production-ready code\n\n" +
    "Wrap the fixed code in triple backticks."

  lemma SegmentsOf(a: string, b: string, c: string, d: string, e: string)
    ensures (a + b + c + d + e)[..|a|] == a && (a + b + c + d + e)[|a|..|a| + |b|] == b
  {
  }

  /** The repair request lists the issues one per line right after its lead. */
  function FixPrompt(code: string, errors: seq<string>): (r: string)
    ensures |r| >= |FixLead| + |Join(errors, "\n")| && r[..|FixLead|] == FixLead
    ensures r[|FixLead|..|FixLead| + |Join(errors, "\n")|] == Join(errors, "\n")
  {
    SegmentsOf(FixLead, Join(errors, "\n"), CodeLead, code, FixPromptTail);
    FixPromptHead(errors) + code + FixPromptTail
  }

  /** The repair request carries the code verbatim inside its fence. */
  lemma FixPromptEmbedsCode(code: string, errors: seq<string>)
    ensures StartsAt(FixPrompt(code, errors), |FixPromptHead(errors)|, code)
    ensures Includes(FixPrompt(code, errors), code)
  {
    var head := FixPromptHead(errors);
    var p := FixPrompt(code, errors);
    assert p[|head|..|head| + |code|] == code;
    IncludesAt(p, |head|, code);
  }

  // ------------------------------------------------------- code validation

  /** The kinds of issue `validateCode` reports, one message each. */
  datatype Issue = Todo | Fixme | TsIgnore | Placeholder | Uninitialised(found: seq<string>)

  function Message(issue: Issue): string
  {
    match issue
    case Todo => "Code contains TODO comments"
    case Fixme => "Code contains FIXME comments"
    case TsIgnore => "Code contains type ignore directives"
    case Placeholder => "Code contains placeholder text"
    case Uninitialised(found) => "Found uninitialized variables: " + Join(found, ", ")
  }

  /** The position of a kind of issue in the report: the order of the checks. */
  function Rank(issue: Issue): nat
  {
    match issue
    case Todo => 0
    case Fixme => 1
    case TsIgnore => 2
    case Placeholder => 3
    case Uninitialised(_) => 4
  }

  /** A message tells its kind of issue. */
  lemma MessagesDiffer(a: Issue, b: Issue)
    requires Rank(a) != Rank(b)
    ensures Message(a) != Message(b)
  {
    assert Message(a)[0] != Message(b)[0] || Message(a)[14] != Message(b)[14];
  }

  lemma MessageTellsKind(a: Issue, b: Issue)
    requires Message(a) == Message(b)
    ensures Rank(a) == Rank(b)
  {
    assert Message(a)[0] == Message(b)[0];
    assert Message(a)[14] == Message(b)[14];
  }

  /**
   * `/\/\/\s*placeholder|\/\/\s*stub|\/\/\s*mock/i` at `i`. The words begin
   * with a letter, which is not whitespace, so the greedy run is the only
   * split. Under `/i` without `u` a non-ASCII character never matches an
   * ASCII one, so ASCII lower-casing is exact.
   */
  predicate PlaceholderCommentAt(code: string, i: nat)
  {
    StartsAt(code, i, "//") &&
    var e := RunEnd(code, i + 2, Space);
    StartsAtCI(code, e, "placeholder") || StartsAtCI(code, e, "stub") || StartsAtCI(code, e, "mock")
  }

  predicate HasPlaceholderComment(code: string)
  {
    exists i :: 0 <= i <= |code| && PlaceholderCommentAt(code, i)
  }

  /**
   * `/\w+\s*=\s*undefined/` at `i`. A word character is neither whitespace
   * nor '=', and '=' is not whitespace, so each greedy run is the only split.
   */
  function UndefinedAssignment(code: string, i: nat): Option<nat>
  {
    if i < |code| && IsWordChar(code[i]) then
      var w := RunEnd(code, i, Word);
      var e := RunEnd(code, w, Space);
      if e < |code| && code[e] == '=' then
        var v := RunEnd(code, e + 1, Space);
        if StartsAt(code, v, "undefined") then Some(v + 9) else None
      else None
    else None
  }

  predicate HasUndefinedAssignment(code: string)
  {
    exists i :: 0 <= i <= |code| && IsMatch(UndefinedAssignment, code, i)
  }

  /** A match of the `= undefined` pattern means the code holds both 'undefined' and '='. */
  lemma UndefinedMatchHasParts(code: string)
    ensures HasUndefinedAssignment(code) ==> Includes(code, "undefined") && Includes(code, "=")
  {
    if i :| 0 <= i <= |code| && IsMatch(UndefinedAssignment, code, i) {
      UndefinedMatchAtHasParts(code, i);
    }
  }

  lemma UndefinedMatchAtHasParts(code: string, i: nat)
    requires i <= |code| && UndefinedAssignment(code, i).Some?
    ensures Includes(code, "undefined") && Includes(code, "=")
  {
    var w := RunEnd(code, i, Word);
    var e := RunEnd(code, w, Space);
    var v := RunEnd(code, e + 1, Space);
    assert StartsAt(code, v, "undefined");
    IncludesAt(code, v, "undefined");
    assert code[e..e + 1] == "=";
    IncludesAt(code, e, "=");
  }

  /** The last check: the matched assignments, listed once, when there is at least one. */
  function UninitialisedIssue(code: string): (r: seq<Issue>)
    ensures |r| <= 1
    ensures r != [] <==> HasUndefinedAssignment(code)
    ensures r != [] ==> r[0] == Uninitialised(MatchAll(code, UndefinedAssignment, 0))
  {
    var matches := MatchAll(code, UndefinedAssignment, 0);
    MatchAllNonEmpty(code, UndefinedAssignment, 0);
    UndefinedMatchHasParts(code);
    if Includes(code, "undefined") && Includes(code, "=") && matches != [] then
      [Uninitialised(matches)]
    else []
  }

  function Flag(found: bool, issue: Issue): seq<Issue>
  {
    if found then [issue] else []
  }

  /** The issues found in generated code: the four fixed checks, then the uninitialised variables. */
  function Issues(code: string): seq<Issue>
  {
    Flag(Includes(code, "TODO"), Todo) +
    (Flag(Includes(code, "FIXME"), Fixme) +
    (Flag(Includes(code, "// @ts-ignore"), TsIgnore) +
    (Flag(HasPlaceholderComment(code), Placeholder) +
    UninitialisedIssue(code))))
  }

  function Messages(issues: seq<Issue>): (r: seq<string>)
    ensures |r| == |issues| && forall k :: 0 <= k < |r| ==> r[k] == Message(issues[k])
  {
    seq(|issues|, k requires 0 <= k < |issues| => Message(issues[k]))
  }

  /** `validateCode`: the messages of the issues found in generated code. */
  function ValidateCode(code: string): (r: seq<string>)
    ensures |r| <= 5
    ensures forall j, k :: 0 <= j < k < |r| ==> r[j] != r[k]
  {
    var issues := Issues(code);
    IssuesRanked(code);
    forall j, k | 0 <= j < k < |issues|
      ensures Message(issues[j]) != Message(issues[k])
    {
      MessagesDiffer(issues[j], issues[k]);
    }
    Messages(issues)
  }

  /** Strictly increasing ranks: one issue of each kind at most, in the order of the checks. */
  predicate Ranked(r: seq<Issue>)
  {
    forall j, k :: 0 <= j < k < |r| ==> Rank(r[j]) < Rank(r[k])
  }

  predicate RanksAbove(r: seq<Issue>, n: nat)
  {
    forall k :: 0 <= k < |r| ==> Rank(r[k]) > n
  }

  /** A check that runs before the later ones keeps the report in order. */
  lemma FlagPrepend(found: bool, issue: Issue, rest: seq<Issue>)
    requires Ranked(rest) && RanksAbove(rest, Rank(issue))
    ensures Ranked(Flag(found, issue) + rest)
    ensures forall k :: 0 <= k < |Flag(found, issue) + rest| ==> Rank((Flag(found, issue) + rest)[k]) >= Rank(issue)
  {
    var r := Flag(found, issue) + rest;
    if found {
      forall j, k | 0 <= j < k < |r|
        ensures Rank(r[j]) < Rank(r[k])
      {
        assert r[k] == rest[k - 1];
        if j > 0 {
          assert r[j] == rest[j - 1];
        }
      }
    } else {
      assert r == rest;
    }
  }

  /** The issues come in the order of the checks, one of each kind at most. */
  lemma IssuesRanked(code: string)
    ensures Ranked(Issues(code)) && |Issues(code)| <= 5
  {
    var u := UninitialisedIssue(code);
    var s4 := Flag(HasPlaceholderComment(code), Placeholder) + u;
    var s3 := Flag(Includes(code, "// @ts-ignore"), TsIgnore) + s4;
    var s2 := Flag(Includes(code, "FIXME"), Fixme) + s3;
    FlagPrepend(HasPlaceholderComment(code), Placeholder, u);
    FlagPrepend(Includes(code, "// @ts-ignore"), TsIgnore, s4);
    FlagPrepend(Includes(code, "FIXME"), Fixme, s3);
    FlagPrepend(Includes(code, "TODO"), Todo, s2);
  }

  /**
   * The uninitialised variables are reported exactly when the pattern
   * matches, last, and with every match.
   */
  lemma IssuesUninitialisedLast(code: string)
    ensures var r := Issues(code);
      HasUndefinedAssignment(code) <==> r != [] && r[|r| - 1].Uninitialised?
    ensures var r := Issues(code);
      HasUndefinedAssignment(code) ==> r[|r| - 1].found == MatchAll(code, UndefinedAssignment, 0)
  {
    LastOfChecks(Includes(code, "TODO"), Includes(code, "FIXME"), Includes(code, "// @ts-ignore"),
                 HasPlaceholderComment(code), UninitialisedIssue(code));
  }

  /** Whatever the four fixed checks find, the last issue is the uninitialised one exactly when that check fires. */
  lemma LastOfChecks(todo: bool, fixme: bool, tsIgnore: bool, placeholder: bool, u: seq<Issue>)
    requires |u| <= 1 && (u != [] ==> u[0].Uninitialised?)
    ensures var r := Flag(todo, Todo) + (Flag(fixme, Fixme) + (Flag(tsIgnore, TsIgnore) + (Flag(placeholder, Placeholder) + u)));
      (r != [] && r[|r| - 1].Uninitialised? <==> u != []) && (u != [] ==> r[|r| - 1] == u[0])
  {
    var s4 := Flag(placeholder, Placeholder) + u;
    var s3 := Flag(tsIgnore, TsIgnore) + s4;
    var s2 := Flag(fixme, Fixme) + s3;
    LastAfterFlag(placeholder, Placeholder, u);
    LastAfterFlag(tsIgnore, TsIgnore, s4);
    LastAfterFlag(fixme, Fixme, s3);
    LastAfterFlag(todo, Todo, s2);
  }

  /** A fixed check in front leaves the last issue, and whether it is the uninitialised one, as it was. */
  lemma LastAfterFlag(found: bool, issue: Issue, rest: seq<Issue>)
    requires !issue.Uninitialised?
    ensures var r := Flag(found, issue) + rest;
      (r != [] && r[|r| - 1].Uninitialised? <==> rest != [] && rest[|rest| - 1].Uninitialised?) &&
      (rest != [] ==> r[|r| - 1] == rest[|rest| - 1])
  {
  }

  /** A fixed message is in a report exactly when its kind of issue is. */
  lemma FixedMessageIn(kind: Issue, issues: seq<Issue>)
    requires !kind.Uninitialised?
    ensures Message(kind) in Messages(issues) <==> kind in issues
  {
    var r := Messages(issues);
    if Message(kind) in r {
      var k :| 0 <= k < |r| && r[k] == Message(kind);
      MessageTellsKind(kind, issues[k]);
      assert issues[k] == kind;
    }
    if kind in issues {
      var k :| 0 <= k < |issues| && issues[k] == kind;
      assert r[k] == Message(kind);
    }
  }

  /** Each fixed message is reported exactly when its marker occurs in the code. */
  lemma ValidateCodeFlags(code: string)
    ensures Message(Todo) in ValidateCode(code) <==> Includes(code, "TODO")
    ensures Message(Fixme) in ValidateCode(code) <==> Includes(code, "FIXME")
    ensures Message(TsIgnore) in ValidateCode(code) <==> Includes(code, "// @ts-ignore")
    ensures Message(Placeholder) in ValidateCode(code) <==> HasPlaceholderComment(code)
  {
    var r := Issues(code);
    FixedKindsFound(code);
    FixedMessageIn(Todo, r);
    FixedMessageIn(Fixme, r);
    FixedMessageIn(TsIgnore, r);
    FixedMessageIn(Placeholder, r);
  }

  /** Each fixed kind of issue is found exactly when its check fires. */
  lemma FixedKindsFound(code: string)
    ensures Todo in Issues(code) <==> Includes(code, "TODO")
    ensures Fixme in Issues(code) <==> Includes(code, "FIXME")
    ensures TsIgnore in Issues(code) <==> Includes(code, "// @ts-ignore")
    ensures Placeholder in Issues(code) <==> HasPlaceholderComment(code)
  {
    var u := UninitialisedIssue(code);
    var s4 := Flag(HasPlaceholderComment(code), Placeholder) + u;
    var s3 := Flag(Includes(code, "// @ts-ignore"), TsIgnore) + s4;
    var s2 := Flag(Includes(code, "FIXME"), Fixme) + s3;
    assert Todo !in u && Fixme !in u && TsIgnore !in u && Placeholder !in u;
    InFlagged(HasPlaceholderComment(code), Placeholder, u);
    InFlagged(Includes(code, "// @ts-ignore"), TsIgnore, s4);
    InFlagged(Includes(code, "FIXME"), Fixme, s3);
    InFlagged(Includes(code, "TODO"), Todo, s2);
  }

  /** What a report holds after one more check. */
  lemma InFlagged(found: bool, issue: Issue, rest: seq<Issue>)
    ensures forall kind :: kind in Flag(found, issue) + rest <==> (found && kind == issue) || kind in rest
  {
  }

  /** The report is empty exactly when no check fires. */
  lemma ValidateCodeEmpty(code: string)
    ensures ValidateCode(code) == [] <==>
      !Includes(code, "TODO") && !Includes(code, "FIXME") && !Includes(code, "// @ts-ignore") &&
      !HasPlaceholderComment(code) && !HasUndefinedAssignment(code)
  {
    assert |ValidateCode(code)| == |Issues(code)|;
  }

  // ------------------------------------------------------------- repairs

  /** A result together with the entries logged while computing it. */
  datatype Logged<T> = Logged(result: Result<T, Thrown>, logs: seq<AILog>)

  /** What `validateAndFixCode` returns and logs. */
  function FixSpec(repair: Repairer, code: string, errors: seq<string>): Logged<string>
  {
    if errors == [] then Logged(Ok(code), [AILog("qa-agent", Info, "Code validation passed", None)])
    else
      var found := AILog("qa-agent", Warning, "Found " + NatToString(|errors|) + " issues to fix", None);
      match repair(code, errors)
      case Ok(fixed) => Logged(Ok(fixed), [found, AILog("qa-agent", Info, "Code fixed successfully", None)])
      case Err(e) => Logged(Err(e), [found])
  }

  /**
   * Code without issues comes back unchanged and nothing is asked; with
   * issues the result is the answer to the repair request, which carries
   * the code, and the log counts the issues.
   */
  lemma FixSpecCases(repair1: Repairer, repair2: Repairer, code: string, errors: seq<string>)
    ensures errors == [] ==>
      FixSpec(repair1, code, errors) == FixSpec(repair2, code, errors) && FixSpec(repair1, code, errors).result == Ok(code)
    ensures errors != [] ==>
      FixSpec(repair1, code, errors).result == repair1(code, errors) &&
      Includes(FixPrompt(code, errors), code) &&
      FixSpec(repair1, code, errors).logs[0].message == "Found " + NatToString(|errors|) + " issues to fix"
  {
    FixPromptEmbedsCode(code, errors);
  }

  // ----------------------------------------------------------- the pipeline

  /** The texts of the three stages. */
  datatype Drafts = Drafts(schema: string, ui: string, api: string)

  /** The contents stored for one successful run. */
  datatype Generated = Generated(page: string, api: string, schema: string)

  /** The three stages in order; the API stage is given the schema stage's text. */
  function DraftsSpec(ask: Asker, prompt: string, models: seq<string>): Logged<Drafts>
  {
    var s1 := RunStageSpec(SchemaStage, ask, SchemaBrief(prompt), models);
    if s1.result.Err? then Logged(Err(s1.result.error), s1.logs)
    else
      var s2 := RunStageSpec(UiStage, ask, UiBrief(prompt), models);
      if s2.result.Err? then Logged(Err(s2.result.error), s1.logs + s2.logs)
      else
        var s3 := RunStageSpec(ApiStage, ask, ApiBrief(prompt, s1.result.value), models);
        if s3.result.Err? then Logged(Err(s3.result.error), s1.logs + s2.logs + s3.logs)
        else Logged(Ok(Drafts(s1.result.value, s2.result.value, s3.result.value)), s1.logs + s2.logs + s3.logs)
  }

  /** The UI code is always checked; the API code is repaired only when it has issues; the schema is kept as it is. */
  function ReviewSpec(repair: Repairer, d: Drafts): Logged<Generated>
  {
    var f1 := FixSpec(repair, d.ui, ValidateCode(d.ui));
    if f1.result.Err? then Logged(Err(f1.result.error), f1.logs)
    else
      var apiErrors := ValidateCode(d.api);
      if apiErrors == [] then Logged(Ok(Generated(f1.result.value, d.api, d.schema)), f1.logs)
      else
        var f2 := FixSpec(repair, d.api, apiErrors);
        if f2.result.Err? then Logged(Err(f2.result.error), f1.logs + f2.logs)
        else Logged(Ok(Generated(f1.result.value, f2.result.value, d.schema)), f1.logs + f2.logs)
  }

  /** Everything between the start entry and the final entry of a run. */
  function PipelineSpec(ask: Asker, repair: Repairer,
                        prompt: string, models: seq<string>): Logged<Generated>
  {
    var d := DraftsSpec(ask, prompt, models);
    if d.result.Err? then Logged(Err(d.result.error), d.logs)
    else
      var v := ReviewSpec(repair, d.result.value);
      Logged(v.result, d.logs + v.logs)
  }

  /**
   * On success the stored schema is the schema stage's text, unchecked and
   * non-blank, and the API stage was asked with that schema in its prompt.
   */
  lemma PipelineKeepsSchema(ask: Asker, repair: Repairer,
                            prompt: string, models: seq<string>)
    requires PipelineSpec(ask, repair, prompt, models).result.Ok?
    ensures var g := PipelineSpec(ask, repair, prompt, models).result.value;
      RunStageSpec(SchemaStage, ask, SchemaBrief(prompt), models).result == Ok(g.schema) &&
      !AllSpace(g.schema) &&
      RunStageSpec(ApiStage, ask, ApiBrief(prompt, g.schema), models).result.Ok?
  {
    var d := DraftsSpec(ask, prompt, models);
    assert d.result.Ok?;
    var v := ReviewSpec(repair, d.result.value);
    assert v.result.Ok? && v.result.value.schema == d.result.value.schema;
  }

  /** API code without issues is stored as its stage produced it. */
  lemma PipelineKeepsCleanApiCode(ask: Asker, repair: Repairer,
                                  prompt: string, models: seq<string>)
    requires DraftsSpec(ask, prompt, models).result.Ok?
    requires ValidateCode(DraftsSpec(ask, prompt, models).result.value.api) == []
    requires PipelineSpec(ask, repair, prompt, models).result.Ok?
    ensures PipelineSpec(ask, repair, prompt, models).result.value.api == DraftsSpec(ask, prompt, models).result.value.api
  {
  }

  /** The run fails exactly when a stage or a repair fails, with that error. */
  lemma PipelineFailsWithStage(ask: Asker, repair: Repairer,
                               prompt: string, models: seq<string>)
    ensures RunStageSpec(SchemaStage, ask, SchemaBrief(prompt), models).result.Err? ==>
      PipelineSpec(ask, repair, prompt, models).result == Err(RunStageSpec(SchemaStage, ask, SchemaBrief(prompt), models).result.error)
    ensures models == [] ==>
      PipelineSpec(ask, repair, prompt, models).result == Err(PlainError(ExhaustedMessage(SchemaStage)))
  {
  }

  /** The three files of a successful run, in the order they are created. */
  const PagePath: string := "src/app/page.tsx"
  const RoutePath: string := "src/app/api/route.ts"
  const SchemaPath: string := "src/types/schema.ts"

  function GeneratedFiles(projectId: string, ids: seq<string>, g: Generated, now: Time): (files: seq<ProjectFile>)
    requires |ids| == 3
    ensures |files| == 3
    ensures files[0].path == PagePath && files[0].content == g.page && files[0].fileType == "page"
    ensures files[1].path == RoutePath && files[1].content == g.api && files[1].fileType == "api"
    ensures files[2].path == SchemaPath && files[2].content == g.schema && files[2].fileType == "schema"
    ensures forall k :: 0 <= k < 3 ==> files[k].projectId == projectId && files[k].id == ids[k]
  {
    [ProjectFile(ids[0], projectId, PagePath, g.page, "page", now, now),
     ProjectFile(ids[1], projectId, RoutePath, g.api, "api", now, now),
     ProjectFile(ids[2], projectId, SchemaPath, g.schema, "schema", now, now)]
  }

  function StartLog(prompt: string, models: seq<string>): AILog
  {
    AILog("orchestrator", Info, "Starting code generation", Some("Prompt: " + prompt + ", Models: " + Join(models, ", ")))
  }

  const CompletedLog: AILog := AILog("orchestrator", Info, "Generation completed successfully", Some("Generated 3 files"))

  function FailedLog(e: Thrown): AILog
  {
    AILog("orchestrator", Error, "Generation failed", Some(e.MessageOr("Unknown error occurred")))
  }

  /** The result of `orchestrateGeneration`. */
  datatype GenerationResult = GenerationResult(files: seq<ProjectFile>, logs: seq<AILog>, success: bool, error: Option<string>)

  /** `orchestrateGeneration`'s default model list. */
  function ModelsOrDefault(models: Option<seq<string>>): seq<string>
  {
    models.GetOr([DefaultModel])
  }

  /**
   * The log of a whole run: the start entry, the pipeline's entries, and the
   * success entry or the failure entry. Earlier runs leave nothing in it.
   */
  function RunLogs(ask: Asker, repair: Repairer,
                   prompt: string, models: seq<string>): (logs: seq<AILog>)
    ensures |logs| >= 2 && logs[0] == StartLog(prompt, models)
    ensures PipelineSpec(ask, repair, prompt, models).result.Ok? <==> logs[|logs| - 1] == CompletedLog
    ensures PipelineSpec(ask, repair, prompt, models).result.Err? ==>
      logs[|logs| - 1] == FailedLog(PipelineSpec(ask, repair, prompt, models).result.error)
  {
    var p := PipelineSpec(ask, repair, prompt, models);
    [StartLog(prompt, models)] + p.logs + [if p.result.Ok? then CompletedLog else FailedLog(p.result.error)]
  }

  /**
   * The orchestrator's state: its log buffer and the store it writes to.
   * Every entry added to the buffer is also added to the store's log list,
   * so the store's list is what it held before the buffer was last cleared
   * (`base`), followed by the buffer.
   */
  class Generator {
    var logs: seq<AILog>
    ghost var base: seq<StoredLog>
    const store: InMemoryStorage

    ghost predicate Synced()
      reads this, store
    {
      store.logs == base + StoredAll(logs)
    }

    /** Everything the store holds besides its log list. */
    ghost function StoreData(): (map<string, Project>, seq<string>, map<string, seq<ProjectFile>>, map<string, seq<ProjectVersion>>)
      reads store
    {
      (store.projects, store.order, store.files, store.versions)
    }

    constructor(store: InMemoryStorage)
      ensures this.store == store && logs == [] && Synced()
    {
      this.store := store;
      logs := [];
      base := store.logs;
    }

    /** `addLog`: the entry goes to the buffer and to the store's log list. */
    method AddLog(log: AILog)
      requires Synced()
      modifies this, store
      ensures Synced() && base == old(base)
      ensures logs == old(logs) + [log]
      ensures store.logs == old(store.logs) + [ToStored(log)]
      ensures StoreData() == old(StoreData())
    {
      StoredAllAppend(logs, [log]);
      AppendAssoc(base, StoredAll(logs), StoredAll([log]));
      logs := logs + [log];
      store.AddLog(log.agent, LevelName(log.level), log.message, log.context);
    }

    /** One asked model: the attempt entry, the call, then the failure or success entry. */
    method TryModel(stage: Stage, ask: Asker, brief: Brief, modelId: string)
      returns (outcome: Result<string, Thrown>)
      requires Synced()
      modifies this, store
      ensures Synced() && base == old(base)
      ensures outcome == ask(modelId, brief)
      ensures logs == old(logs) + AttemptEntries(stage, modelId, outcome)
      ensures StoreData() == old(StoreData())
    {
      var attempt := AttemptLog(stage, modelId);
      AddLog(attempt);
      outcome := ask(modelId, brief);
      if outcome.Err? {
        var failure := FailureLog(stage, modelId, outcome.error);
        AppendAssoc(old(logs), [attempt], [failure]);
        AddLog(failure);
      } else if !AllSpace(outcome.value) {
        var success := SuccessLog(stage, modelId);
        AppendAssoc(old(logs), [attempt], [success]);
        AddLog(success);
      }
    }

    /**
     * One stage: the introduction, then every model in order until one gives
     * usable text. The result and the entries are those of the stage's
     * specification.
     */
    method RunStage(stage: Stage, ask: Asker, brief: Brief, models: seq<string>)
      returns (r: Result<string, Thrown>)
      requires Synced()
      modifies this, store
      ensures Synced() && base == old(base)
      ensures r == RunStageSpec(stage, ask, brief, models).result
      ensures logs == old(logs) + RunStageSpec(stage, ask, brief, models).logs
      ensures StoreData() == old(StoreData())
    {
      ghost var start := logs;
      ghost var spec := RunStageSpec(stage, ask, brief, models);
      var intro := AILog(Agent(stage), Info, IntroMessage(stage, |models|), None);
      AddLog(intro);
      ghost var written: seq<AILog> := [intro];
      var code := "";
      var lastError: Option<Thrown> := None;
      var i := 0;
      var done := false;
      StageStart(stage, ask, brief, models, intro);
      while i < |models| && !done
        invariant 0 <= i <= |models|
        invariant Synced() && base == old(base)
        invariant logs == start + written
        invariant StoreData() == old(StoreData())
        invariant !done ==> spec == Resume(stage, ask, brief, models, i, lastError, written)
        invariant done ==> spec == StageOutcome(Ok(code), written, i)
        decreases |models| - i, !done
      {
        var modelId := models[i];
        StageStep(stage, ask, brief, models, i, lastError, written);
        var outcome := TryModel(stage, ask, brief, modelId);
        ghost var entries := AttemptEntries(stage, modelId, outcome);
        AppendAssoc(start, written, entries);
        if Usable(outcome) {
          code := outcome.value;
          done := true;
        } else if outcome.Err? {
          lastError := Some(outcome.error);
        }
        written := written + entries;
        i := i + 1;
      }
      if !done {
        StageEnd(stage, ask, brief, models, lastError, written);
        r := Err(lastError.GetOr(PlainError(ExhaustedMessage(stage))));
      } else {
        r := Ok(code);
      }
    }

    /** `validateAndFixCode`. */
    method ValidateAndFixCode(repair: Repairer, code: string, errors: seq<string>)
      returns (r: Result<string, Thrown>)
      requires Synced()
      modifies this, store
      ensures Synced() && base == old(base)
      ensures r == FixSpec(repair, code, errors).result
      ensures logs == old(logs) + FixSpec(repair, code, errors).logs
      ensures StoreData() == old(StoreData())
    {
      if |errors| == 0 {
        AddLog(AILog("qa-agent", Info, "Code validation passed", None));
        return Ok(code);
      }
      var found := AILog("qa-agent", Warning, "Found " + NatToString(|errors|) + " issues to fix", None);
      AddLog(found);
      r := repair(code, errors);
      if r.Ok? {
        var fixed := AILog("qa-agent", Info, "Code fixed successfully", None);
        AppendAssoc(old(logs), [found], [fixed]);
        AddLog(fixed);
      }
    }

    /** The three stages, in order, stopping at the first that throws. */
    method GenerateDrafts(ask: Asker, prompt: string, models: seq<string>)
      returns (r: Result<Drafts, Thrown>)
      requires Synced()
      modifies this, store
      ensures Synced() && base == old(base)
      ensures r == DraftsSpec(ask, prompt, models).result
      ensures logs == old(logs) + DraftsSpec(ask, prompt, models).logs
      ensures StoreData() == old(StoreData())
    {
      var schema := RunStage(SchemaStage, ask, SchemaBrief(prompt), models);
      ghost var w1 := RunStageSpec(SchemaStage, ask, SchemaBrief(prompt), models).logs;
      if schema.Err? {
        return Err(schema.error);
      }
      var ui := RunStage(UiStage, ask, UiBrief(prompt), models);
      ghost var w2 := RunStageSpec(UiStage, ask, UiBrief(prompt), models).logs;
      AppendAssoc(old(logs), w1, w2);
      if ui.Err? {
        return Err(ui.error);
      }
      var apiCode := RunStage(ApiStage, ask, ApiBrief(prompt, schema.value), models);
      ghost var w3 := RunStageSpec(ApiStage, ask, ApiBrief(prompt, schema.value), models).logs;
      AppendAssoc(old(logs), w1 + w2, w3);
      if apiCode.Err? {
        return Err(apiCode.error);
      }
      r := Ok(Drafts(schema.value, ui.value, apiCode.value));
    }

    /** Validation and repair of the UI code, then of the API code when it has issues. */
    method Review(repair: Repairer, d: Drafts) returns (r: Result<Generated, Thrown>)
      requires Synced()
      modifies this, store
      ensures Synced() && base == old(base)
      ensures r == ReviewSpec(repair, d).result
      ensures logs == old(logs) + ReviewSpec(repair, d).logs
      ensures StoreData() == old(StoreData())
    {
      var uiErrors := ValidateCode(d.ui);
      var page := ValidateAndFixCode(repair, d.ui, uiErrors);
      if page.Err? {
        return Err(page.error);
      }
      var apiErrors := ValidateCode(d.api);
      var route := Ok(d.api);
      if |apiErrors| > 0 {
        route := ValidateAndFixCode(repair, d.api, apiErrors);
        AppendAssoc(old(logs), FixSpec(repair, d.ui, uiErrors).logs, FixSpec(repair, d.api, apiErrors).logs);
      }
      if route.Err? {
        return Err(route.error);
      }
      r := Ok(Generated(page.value, route.value, d.schema));
    }

    /** The success path's writes: the page, the route and the schema, then version 1. */
    method SaveGenerated(projectId: string, fileIds: seq<string>, versionId: string, prompt: string,
                         g: Generated, now: Time) returns (files: seq<ProjectFile>)
      requires |fileIds| == 3
      requires store.Valid()
      modifies store
      ensures store.Valid()
      ensures files == GeneratedFiles(projectId, fileIds, g, now)
      ensures store.files == old(store.files)[projectId := FilesOf(old(store.files), projectId) + files]
      ensures store.versions == old(store.versions)[projectId := VersionsOf(old(store.versions), projectId) +
        [ProjectVersion(versionId, projectId, 1, Snapshot(files, now),
                        Some("Initial generation from prompt: " + prompt), now)]]
      ensures store.projects == old(store.projects) && store.order == old(store.order)
      ensures store.logs == old(store.logs)
    {
      ghost var before := FilesOf(store.files, projectId);
      var f0 := store.CreateFile(projectId, fileIds[0], FileData(PagePath, g.page, "page"), now);
      var f1 := store.CreateFile(projectId, fileIds[1], FileData(RoutePath, g.api, "api"), now);
      var f2 := store.CreateFile(projectId, fileIds[2], FileData(SchemaPath, g.schema, "schema"), now);
      files := [f0, f1, f2];
      assert before + [f0] + [f1] + [f2] == before + files;
      var _ := store.CreateVersion(projectId, versionId,
        VersionData(1, Snapshot(files, now), Some("Initial generation from prompt: " + prompt)), now);
    }

    /**
     * `orchestrateGeneration`: clears the buffer, runs the pipeline and, on
     * success, stores the three files and version 1. It never throws: a
     * failure is reported in the result and nothing is stored.
     */
    method OrchestrateGeneration(api: Api, projectId: string, prompt: string, models: Option<seq<string>>,
                                 fileIds: seq<string>, versionId: string, now: Time)
      returns (r: GenerationResult)
      requires |fileIds| == 3
      requires store.Valid()
      modifies this, store
      ensures store.Valid() && Synced()
      ensures store.projects == old(store.projects) && store.order == old(store.order)
      ensures r.logs == logs == RunLogs(Ask(api), Repair(api), prompt, ModelsOrDefault(models))
      ensures store.logs == old(store.logs) + StoredAll(logs)
      ensures var outcome := PipelineSpec(Ask(api), Repair(api), prompt, ModelsOrDefault(models)).result;
        r.success == outcome.Ok? &&
        (outcome.Err? ==>
          r.files == [] && r.error == Some(outcome.error.MessageOr("Unknown error occurred")) &&
          store.files == old(store.files) && store.versions == old(store.versions))
      ensures var outcome := PipelineSpec(Ask(api), Repair(api), prompt, ModelsOrDefault(models)).result;
        outcome.Ok? ==>
          r.files == GeneratedFiles(projectId, fileIds, outcome.value, now) && r.error == None &&
          store.files == old(store.files)[projectId := FilesOf(old(store.files), projectId) + r.files] &&
          store.versions == old(store.versions)[projectId := VersionsOf(old(store.versions), projectId) +
            [ProjectVersion(versionId, projectId, 1, Snapshot(r.files, now),
                            Some("Initial generation from prompt: " + prompt), now)]]
    {
      r := Orchestrate(Ask(api), Repair(api), projectId, prompt, models, fileIds, versionId, now);
    }

    /** `orchestrateGeneration` for any way of asking the models and the repair step. */
    method Orchestrate(ask: Asker, repair: Repairer, projectId: string, prompt: string, models: Option<seq<string>>,
                     fileIds: seq<string>, versionId: string, now: Time)
      returns (r: GenerationResult)
      requires |fileIds| == 3
      requires store.Valid()
      modifies this, store
      ensures store.Valid() && Synced()
      ensures store.projects == old(store.projects) && store.order == old(store.order)
      ensures r.logs == logs == RunLogs(ask, repair, prompt, ModelsOrDefault(models))
      ensures store.logs == old(store.logs) + StoredAll(logs)
      ensures var outcome := PipelineSpec(ask, repair, prompt, ModelsOrDefault(models)).result;
        r.success == outcome.Ok? &&
        (outcome.Err? ==>
          r.files == [] && r.error == Some(outcome.error.MessageOr("Unknown error occurred")) &&
          store.files == old(store.files) && store.versions == old(store.versions))
      ensures var outcome := PipelineSpec(ask, repair, prompt, ModelsOrDefault(models)).result;
        outcome.Ok? ==>
          r.files == GeneratedFiles(projectId, fileIds, outcome.value, now) && r.error == None &&
          store.files == old(store.files)[projectId := FilesOf(old(store.files), projectId) + r.files] &&
          store.versions == old(store.versions)[projectId := VersionsOf(old(store.versions), projectId) +
            [ProjectVersion(versionId, projectId, 1, Snapshot(r.files, now),
                            Some("Initial generation from prompt: " + prompt), now)]]
    {
      var ms := ModelsOrDefault(models);
      logs := [];
      base := store.logs;
      var start := StartLog(prompt, ms);
      AddLog(start);
      var outcome := RunPipeline(ask, repair, prompt, ms);
      ghost var p := PipelineSpec(ask, repair, prompt, ms);
      assert logs == [start] + p.logs;
      r := Conclude(outcome, projectId, prompt, fileIds, versionId, now);
      assert logs == RunLogs(ask, repair, prompt, ms);
    }

    /** The end of a run: the files and version 1 on success, then the final entry. */
    method Conclude(outcome: Result<Generated, Thrown>, projectId: string, prompt: string,
                    fileIds: seq<string>, versionId: string, now: Time) returns (r: GenerationResult)
      requires |fileIds| == 3
      requires store.Valid() && Synced()
      modifies this, store
      ensures store.Valid() && Synced() && base == old(base)
      ensures store.projects == old(store.projects) && store.order == old(store.order)
      ensures r.logs == logs == old(logs) + [if outcome.Ok? then CompletedLog else FailedLog(outcome.error)]
      ensures r.success == outcome.Ok?
      ensures outcome.Err? ==>
        r.files == [] && r.error == Some(outcome.error.MessageOr("Unknown error occurred")) &&
        store.files == old(store.files) && store.versions == old(store.versions)
      ensures outcome.Ok? ==>
        r.files == GeneratedFiles(projectId, fileIds, outcome.value, now) && r.error == None &&
        store.files == old(store.files)[projectId := FilesOf(old(store.files), projectId) + r.files] &&
        store.versions == old(store.versions)[projectId := VersionsOf(old(store.versions), projectId) +
          [ProjectVersion(versionId, projectId, 1, Snapshot(r.files, now),
                          Some("Initial generation from prompt: " + prompt), now)]]
    {
      if outcome.Err? {
        AddLog(FailedLog(outcome.error));
        r := GenerationResult([], logs, false, Some(outcome.error.MessageOr("Unknown error occurred")));
      } else {
        var files := SaveGenerated(projectId, fileIds, versionId, prompt, outcome.value, now);
        AddLog(CompletedLog);
        r := GenerationResult(files, logs, true, None);
      }
    }

    /** The pipeline between the start entry and the final entry. */
    method RunPipeline(ask: Asker, repair: Repairer,
                       prompt: string, models: seq<string>) returns (r: Result<Generated, Thrown>)
      requires Synced()
      modifies this, store
      ensures Synced() && base == old(base)
      ensures r == PipelineSpec(ask, repair, prompt, models).result
      ensures logs == old(logs) + PipelineSpec(ask, repair, prompt, models).logs
      ensures StoreData() == old(StoreData())
    {
      var drafts := GenerateDrafts(ask, prompt, models);
      if drafts.Err? {
        return Err(drafts.error);
      }
      r := Review(repair, drafts.value);
      AppendAssoc(old(logs), DraftsSpec(ask, prompt, models).logs, ReviewSpec(repair, drafts.value).logs);
    }
  }
}
