/**
 * The client of the Groq chat-completions service (src/lib/groq-client.ts).
 *
 * The service is a parameter: `Api` answers one non-streaming request with
 * the content of the first choice (or none) or with the value it throws, and
 * `StreamApi` answers a streaming request with the chunks it yields. What the
 * client itself decides (prompt checks, option defaults and clamping, error
 * mapping, response cleaning, JSON extraction, chunk concatenation) is
 * modelled in full.
 */
module GroqClient {
  import opened Wrappers
  import opened JsText
  import opened Types

  // ---------------------------------------------------------------- options

  /** `GroqOptions`; `None` is an absent (or `undefined`) option. */
  datatype GroqOptions = GroqOptions(
    model: Option<string>,
    temperature: Option<real>,
    maxTokens: Option<int>,
    topP: Option<real>)

  const NoOptions := GroqOptions(None, None, None, None)

  const DefaultModel := "llama-3.3-70b-versatile"
  const GptOssModel := "openai/gpt-oss-120b"
  const MaverickModel := "meta-llama/llama-4-maverick-17b-128e-instruct"
  const ScoutModel := "meta-llama/llama-4-scout-17b-16e-instruct"
  const KimiModel := "moonshotai/kimi-k2-instruct-0905"

  /**
   * What the client sends. `builtInTools` marks the GPT-OSS requests, which
   * carry `reasoning_effort: 'medium'` and the browser-search and
   * code-interpreter tools.
   */
  datatype Request = Request(
    model: string,
    prompt: string,
    temperature: real,
    maxTokens: int,
    topP: real,
    stream: bool,
    builtInTools: bool)

  /** The answer to a non-streaming request: the first choice's content, or a thrown value. */
  datatype ApiOutcome = Completion(content: Option<string>) | Raised(error: Thrown)

  type Api = Request -> ApiOutcome

  /** One raw stream chunk: the first choice's delta content and finish reason. */
  datatype RawChunk = RawChunk(delta: Option<string>, finishReason: Option<string>)

  type StreamApi = Request -> seq<RawChunk>

  /** `StreamChunk`. */
  datatype StreamChunk = StreamChunk(content: string, finishReason: Option<string>)

  function ClampReal(lo: real, hi: real, x: real): real
  {
    if x < lo then lo else if x > hi then hi else x
  }

  function ClampInt(lo: int, hi: int, x: int): int
  {
    if x < lo then lo else if x > hi then hi else x
  }

  /** `options.model || 'llama-3.3-70b-versatile'`: an empty model name falls back too. */
  function ModelOr(options: GroqOptions): string
  {
    if options.model.Some? && options.model.value != [] then options.model.value else DefaultModel
  }

  /** The request of `generateCode`: defaults filled in, then every numeric option clamped. */
  function CodeRequest(prompt: string, options: GroqOptions): (r: Request)
    ensures 0.0 <= r.temperature <= 2.0 && 1 <= r.maxTokens <= 65536 && 0.0 <= r.topP <= 1.0
    ensures options.temperature.None? ==> r.temperature == 1.0
    ensures options.maxTokens.None? ==> r.maxTokens == 8192
    ensures options.topP.None? ==> r.topP == 1.0
    ensures options.temperature.Some? && 0.0 <= options.temperature.value <= 2.0 ==> r.temperature == options.temperature.value
    ensures options.maxTokens.Some? && 1 <= options.maxTokens.value <= 65536 ==> r.maxTokens == options.maxTokens.value
    ensures options.topP.Some? && 0.0 <= options.topP.value <= 1.0 ==> r.topP == options.topP.value
    ensures options.temperature.Some? && options.temperature.value < 0.0 ==> r.temperature == 0.0
    ensures options.temperature.Some? && options.temperature.value > 2.0 ==> r.temperature == 2.0
    ensures options.maxTokens.Some? && options.maxTokens.value < 1 ==> r.maxTokens == 1
    ensures options.maxTokens.Some? && options.maxTokens.value > 65536 ==> r.maxTokens == 65536
    ensures options.topP.Some? && options.topP.value < 0.0 ==> r.topP == 0.0
    ensures options.topP.Some? && options.topP.value > 1.0 ==> r.topP == 1.0
    ensures r.model == ModelOr(options) && r.prompt == prompt && !r.stream && !r.builtInTools
  {
    Request(
      ModelOr(options),
      prompt,
      ClampReal(0.0, 2.0, options.temperature.GetOr(1.0)),
      ClampInt(1, 65536, options.maxTokens.GetOr(8192)),
      ClampReal(0.0, 1.0, options.topP.GetOr(1.0)),
      false,
      false)
  }

  /** The request of `generateCodeStream`: defaults filled in, nothing clamped. */
  function StreamRequest(prompt: string, options: GroqOptions): (r: Request)
    ensures r.model == ModelOr(options) && r.prompt == prompt && r.stream && !r.builtInTools
    ensures r.temperature == options.temperature.GetOr(1.0)
    ensures r.maxTokens == options.maxTokens.GetOr(8192)
    ensures r.topP == options.topP.GetOr(1.0)
  {
    Request(ModelOr(options), prompt, options.temperature.GetOr(1.0), options.maxTokens.GetOr(8192),
            options.topP.GetOr(1.0), true, false)
  }

  /** The request of the GPT-OSS calls: their own model and tools, defaults filled in, nothing clamped. */
  function GptOssRequest(prompt: string, options: GroqOptions, stream: bool): (r: Request)
    ensures r.model == GptOssModel && r.prompt == prompt && r.stream == stream && r.builtInTools
    ensures r.temperature == options.temperature.GetOr(1.0)
    ensures r.maxTokens == options.maxTokens.GetOr(65536)
    ensures r.topP == options.topP.GetOr(1.0)
  {
    Request(GptOssModel, prompt, options.temperature.GetOr(1.0), options.maxTokens.GetOr(65536),
            options.topP.GetOr(1.0), stream, true)
  }

  // ------------------------------------------------------------- per model

  /** The models with a convenience method that goes through `generateCode`. */
  datatype Family = Maverick | Scout | Kimi | Llama33

  function FamilyModel(f: Family): string
  {
    match f
    case Maverick => MaverickModel
    case Scout => ScoutModel
    case Kimi => KimiModel
    case Llama33 => DefaultModel
  }

  function FamilyMaxTokens(f: Family): int
  {
    match f
    case Maverick => 8192
    case Scout => 8192
    case Kimi => 16384
    case Llama33 => 32768
  }

  function FamilyTemperature(f: Family): real
  {
    match f
    case Kimi => 0.7
    case _ => 1.0
  }

  /**
   * `{ ...options, model, maxTokens: options.maxTokens ?? d, temperature: options.temperature ?? t }`:
   * the wrapper sets its model and fills only the options the caller left out.
   */
  function FamilyOptions(f: Family, options: GroqOptions): (r: GroqOptions)
    ensures r.model == Some(FamilyModel(f))
    ensures r.maxTokens == Some(if options.maxTokens.Some? then options.maxTokens.value else FamilyMaxTokens(f))
    ensures r.temperature == Some(if options.temperature.Some? then options.temperature.value else FamilyTemperature(f))
    ensures r.topP == options.topP
  {
    options.(model := Some(FamilyModel(f)),
             maxTokens := Some(options.maxTokens.GetOr(FamilyMaxTokens(f))),
             temperature := Some(options.temperature.GetOr(FamilyTemperature(f))))
  }

  /** Without options, each wrapper sends its model with its documented defaults. */
  lemma FamilyDefaults(f: Family, prompt: string)
    ensures CodeRequest(prompt, FamilyOptions(f, NoOptions)) ==
      Request(FamilyModel(f), prompt, FamilyTemperature(f), FamilyMaxTokens(f), 1.0, false, false)
    ensures FamilyMaxTokens(f) == (match f case Kimi => 16384 case Llama33 => 32768 case _ => 8192)
  {
  }

  // ---------------------------------------------------------------- errors

  const PromptRequiredMessage := "Prompt is required and cannot be empty"
  const PromptTooLongMessage := "Prompt is too long (max 10,000 characters)"
  const NoResponseMessage := "No response generated from Groq API"

  /** `${status}` for a status that may be `undefined`. */
  function StatusText(status: Option<int>): string
  {
    if status.Some? then IntToString(status.value) else "undefined"
  }

  /**
   * The `catch` of `generateCode`: a `GroqError` passes unchanged, an error
   * with a `status` becomes a `GroqError` chosen by that status, and anything
   * else is wrapped with its message.
   */
  function MapError(e: Thrown): (r: Thrown)
    ensures r.GroqError?
    ensures e.GroqError? ==> r == e
    ensures e.ApiError? && e.status == Some(401) ==> r == GroqError("Invalid API key", Some(401))
    ensures e.ApiError? && e.status == Some(429) ==> r == GroqError("Rate limit exceeded", Some(429))
    ensures e.ApiError? && e.status.Some? && e.status.value in {500, 502, 503} ==>
      r == GroqError("Groq API service unavailable", e.status)
    ensures e.ApiError? && !(e.status.Some? && e.status.value in {401, 429, 500, 502, 503}) ==>
      r == GroqError("Groq API error: " + StatusText(e.status), e.status)
    ensures e.ApiError? ==> r.statusCode == e.status
    ensures !e.GroqError? && !e.ApiError? ==>
      r == GroqError("Failed to generate code: " + e.MessageOr("Unknown error"), None)
  {
    match e
    case GroqError(_, _) => e
    case ApiError(_, status) =>
      if status == Some(401) then GroqError("Invalid API key", Some(401))
      else if status == Some(429) then GroqError("Rate limit exceeded", Some(429))
      else if status == Some(500) || status == Some(502) || status == Some(503) then
        GroqError("Groq API service unavailable", status)
      else GroqError("Groq API error: " + StatusText(status), status)
    case _ => GroqError("Failed to generate code: " + e.MessageOr("Unknown error"), None)
  }

  // ------------------------------------------------------- response cleaning

  /** `^` under the `m` flag: the start of the text or just after a line terminator. */
  predicate LineStart(s: string, i: nat)
  {
    i == 0 || (0 < i <= |s| && IsLineTerminator(s[i - 1]))
  }

  predicate IsNewline(c: char)
  {
    c == '\n'
  }

  /**
   * `\s*$` under the `m` flag from `p`: the end of the longest whitespace run
   * if it reaches the end of the text, otherwise the last line terminator
   * inside the run (a line terminator is whitespace, so the run cannot stop
   * before one).
   */
  function SpacesToLineEnd(s: string, p: nat): (r: Option<nat>)
    requires p <= |s|
    ensures r.Some? ==> p <= r.value <= |s| && (r.value == |s| || IsLineTerminator(s[r.value]))
    ensures r.Some? ==> forall k :: p <= k < r.value ==> IsSpace(s[k])
  {
    var e := RunEnd(s, p, Space);
    if e == |s| then Some(e)
    else
      match LastIndexIn(s, p, e, IsLineTerminator)
      case Some(q) => Some(q)
      case None => None
  }

  /**
   * `\s*\n` from `p`: up to and including the last newline of the whitespace
   * run (greedy `\s*` gives back characters only until a newline follows).
   */
  function SpacesThroughNewline(s: string, p: nat): (r: Option<nat>)
    requires p <= |s|
    ensures r.Some? ==> p < r.value <= |s| && s[r.value - 1] == '\n'
    ensures r.Some? ==> forall k :: p <= k < r.value ==> IsSpace(s[k])
  {
    var e := RunEnd(s, p, Space);
    match LastIndexIn(s, p, e, IsNewline)
    case Some(q) => Some(q + 1)
    case None => None
  }

  /** The alternatives of `(?:tsx?|javascript|jsx|json)?`, in the order they are tried. */
  const FenceTags: seq<string> := ["tsx", "ts", "javascript", "jsx", "json", ""]

  /** The first alternative from `k` on after which `\s*\n` matches at `p`. */
  function TaggedFenceEnd(s: string, p: nat, k: nat): (r: Option<nat>)
    requires p <= |s|
    ensures r.Some? ==> p < r.value <= |s|
    decreases |FenceTags| - k
  {
    if k >= |FenceTags| then None
    else
      var tag := FenceTags[k];
      if StartsAt(s, p, tag) && SpacesThroughNewline(s, p + |tag|).Some? then SpacesThroughNewline(s, p + |tag|)
      else TaggedFenceEnd(s, p, k + 1)
  }

  /** `/^```(?:tsx?|javascript|jsx|json)?\s*\n/m` at `i`: an opening fence line. */
  function OpeningFence(s: string, i: nat): Option<nat>
  {
    if i <= |s| && LineStart(s, i) && StartsAt(s, i, "```") then TaggedFenceEnd(s, i + 3, 0) else None
  }

  /** `/\n```\s*$/m` at `i`: a closing fence after a newline; the line end itself is kept. */
  function ClosingFence(s: string, i: nat): Option<nat>
  {
    if StartsAt(s, i, "\n```") then SpacesToLineEnd(s, i + 4) else None
  }

  /**
   * `/^\s*```\s*$/m` at `i`: a line holding only a fence. '`' is not
   * whitespace, so the fence can only start where the leading run ends.
   */
  function BareFence(s: string, i: nat): Option<nat>
  {
    if i <= |s| && LineStart(s, i) then
      var e := RunEnd(s, i, Space);
      if StartsAt(s, e, "```") then SpacesToLineEnd(s, e + 3) else None
    else None
  }

  /** `cleanCodeResponse`: the three fence removals, in order, then `trim`. */
  function CleanCodeResponse(response: string): (r: string)
    ensures IsTrimmed(r)
    ensures |r| <= |response|
  {
    var s1 := RemoveAll(response, OpeningFence, 0);
    var s2 := RemoveAll(s1, ClosingFence, 0);
    var s3 := RemoveAll(s2, BareFence, 0);
    TrimShortens(s3);
    Trim(s3)
  }

  /** A cleaning that keeps the length of the response changes nothing in it. */
  lemma CleanKeepsLength(response: string)
    requires |CleanCodeResponse(response)| == |response|
    ensures CleanCodeResponse(response) == response
  {
    var s1 := RemoveAll(response, OpeningFence, 0);
    var s2 := RemoveAll(s1, ClosingFence, 0);
    var s3 := RemoveAll(s2, BareFence, 0);
    TrimShortens(s3);
    RemoveAllKeepsAll(response, OpeningFence, 0);
    RemoveAllKeepsAll(s1, ClosingFence, 0);
    RemoveAllKeepsAll(s2, BareFence, 0);
    assert response[0..] == response && s1[0..] == s1 && s2[0..] == s2;
  }

  /**
   * One cleaning is not always the last: a fence indented on its line is
   * left in place by the opening-fence removal (which wants the backticks at
   * the line start), then `trim` moves it to the start of the text, where a
   * second cleaning removes it.
   */
  lemma CleanCodeResponseNotIdempotent()
    ensures CleanCodeResponse(IndentedFence) == "```ts\nfoo"
    ensures CleanCodeResponse(CleanCodeResponse(IndentedFence)) == "foo"
    ensures CleanCodeResponse(CleanCodeResponse(IndentedFence)) != CleanCodeResponse(IndentedFence)
  {
    IndentedFenceKept(IndentedFence);
    LeadingFenceRemoved("```ts\nfoo");
  }

  /** A fenced block whose opening fence is indented by one space. */
  const IndentedFence := " ```ts\nfoo"

  /** In the indented block, lines start only at the text start and after the newline. */
  lemma IndentedLineStarts(i: nat)
    requires LineStart(IndentedFence, i)
    ensures i == 0 || i == 7
  {
    var x := IndentedFence;
    if i != 0 {
      assert x[i - 1] == '\n';
      assert i - 1 == 6;
    }
  }

  lemma IndentedNoFence(i: nat)
    ensures !IsMatch(OpeningFence, IndentedFence, i)
    ensures !IsMatch(ClosingFence, IndentedFence, i)
    ensures !IsMatch(BareFence, IndentedFence, i)
  {
    var x := IndentedFence;
    if LineStart(x, i) {
      IndentedLineStarts(i);
      if i == 0 {
        DiffersAt(x, 0, "```", 0);
        assert RunEnd(x, 1, Space) == 1;
        assert RunEnd(x, 0, Space) == 1;
        assert RunEnd(x, 4, Space) == 4;
        assert LastIndexIn(x, 4, 4, IsLineTerminator) == None;
      } else {
        DiffersAt(x, 7, "```", 0);
        assert RunEnd(x, 7, Space) == 7;
      }
    }
    if i == 6 {
      DiffersAt(x, i, "\n```", 1);
    } else {
      DiffersAt(x, i, "\n```", 0);
    }
  }

  lemma IndentedFencePasses()
    ensures RemoveAll(IndentedFence, OpeningFence, 0) == IndentedFence
    ensures RemoveAll(IndentedFence, ClosingFence, 0) == IndentedFence
    ensures RemoveAll(IndentedFence, BareFence, 0) == IndentedFence
  {
    var x := IndentedFence;
    forall i | 0 <= i <= |x|
      ensures !IsMatch(OpeningFence, x, i) && !IsMatch(ClosingFence, x, i) && !IsMatch(BareFence, x, i)
    {
      IndentedNoFence(i);
    }
    RemoveAllWithoutMatch(x, OpeningFence, 0);
    RemoveAllWithoutMatch(x, ClosingFence, 0);
    RemoveAllWithoutMatch(x, BareFence, 0);
    assert x[0..] == x;
  }

  /** A text that no removal changes is only trimmed. */
  lemma CleanOfUntouched(x: string)
    requires RemoveAll(x, OpeningFence, 0) == x && RemoveAll(x, ClosingFence, 0) == x
    requires RemoveAll(x, BareFence, 0) == x
    ensures CleanCodeResponse(x) == Trim(x)
  {
  }

  lemma IndentedFenceKept(x: string)
    requires x == IndentedFence
    ensures CleanCodeResponse(x) == "```ts\nfoo"
  {
    IndentedFencePasses();
    CleanOfUntouched(x);
    IndentedShape(x);
    TrimOneSpace(x);
  }

  lemma IndentedShape(x: string)
    requires x == IndentedFence
    ensures |x| >= 2 && IsSpace(x[0]) && !IsSpace(x[1]) && !IsSpace(x[|x| - 1])
    ensures x[1..] == "```ts\nfoo"
  {
  }

  /** One leading space and visible text after it and at the end: `trim` drops just that space. */
  lemma TrimOneSpace(x: string)
    requires |x| >= 2 && IsSpace(x[0]) && !IsSpace(x[1]) && !IsSpace(x[|x| - 1])
    ensures Trim(x) == x[1..]
  {
    assert TrimStart(x[1..]) == x[1..];
  }

  lemma LeadingFencePass()
    ensures RemoveAll("```ts\nfoo", OpeningFence, 0) == "foo"
  {
    var y := "```ts\nfoo";
    assert y == "```" + "ts" + "\n" + "foo";
    OpeningAtStart("ts", "foo");
    forall i | 6 <= i <= |y|
      ensures !IsMatch(OpeningFence, y, i)
    {
      DiffersAt(y, i, "```", 0);
    }
    RemoveAllCopies(y, OpeningFence, 6, |y|);
    assert y[6..] == "foo";
  }

  /** When the opening-fence removal leaves a text without backticks, the rest only trims it. */
  lemma CleanAfterOpening(y: string, z: string)
    requires RemoveAll(y, OpeningFence, 0) == z && '`' !in z
    ensures CleanCodeResponse(y) == Trim(z)
  {
    forall i | 0 <= i <= |z| {
      FenceNeedsBacktick(z, i);
    }
    RemoveAllWithoutMatch(z, ClosingFence, 0);
    RemoveAllWithoutMatch(z, BareFence, 0);
    assert z[0..] == z;
  }

  lemma PlainFoo(z: string)
    requires z == "foo"
    ensures '`' !in z && IsTrimmed(z)
  {
  }

  lemma LeadingFenceRemoved(y: string)
    requires y == "```ts\nfoo"
    ensures CleanCodeResponse(y) == "foo"
  {
    LeadingFencePass();
    var z := RemoveAll(y, OpeningFence, 0);
    PlainFoo(z);
    CleanAfterOpening(y, z);
    TrimOfTrimmed(z);
  }

  /**
   * The cleaning repeated until it changes nothing: the idempotent cleaner
   * that a single `cleanCodeResponse` was evidently meant to be.
   */
  function CleanCodeSettled(response: string): (r: string)
    ensures CleanCodeResponse(r) == r
    ensures IsTrimmed(r)
    ensures |r| <= |response|
    decreases |response|
  {
    var c := CleanCodeResponse(response);
    if |c| < |response| then CleanCodeSettled(c)
    else
      CleanKeepsLength(response);
      c
  }

  /** The settled cleaner is idempotent. */
  lemma CleanCodeSettledIdempotent(response: string)
    ensures CleanCodeSettled(CleanCodeSettled(response)) == CleanCodeSettled(response)
  {
    var r := CleanCodeSettled(response);
    assert CleanCodeResponse(r) == r;
  }

  /** Wherever one cleaning already settles the text, the settled cleaner gives the same answer. */
  lemma CleanCodeSettledAgrees(response: string)
    requires CleanCodeResponse(CleanCodeResponse(response)) == CleanCodeResponse(response)
    ensures CleanCodeSettled(response) == CleanCodeResponse(response)
  {
    var c := CleanCodeResponse(response);
    if |c| < |response| {
      assert CleanCodeSettled(c) == c;
    }
  }

  /** Every fence pattern needs a backtick where it matches. */
  lemma FenceNeedsBacktick(s: string, i: nat)
    requires '`' !in s
    ensures !IsMatch(OpeningFence, s, i) && !IsMatch(ClosingFence, s, i) && !IsMatch(BareFence, s, i)
  {
    NotIncludes(s, "```", '`');
    NotIncludes(s, "\n```", '`');
  }

  /** A response without backticks is only trimmed. */
  lemma CleanWithoutBackticks(response: string)
    requires '`' !in response
    ensures CleanCodeResponse(response) == Trim(response)
  {
    forall i | 0 <= i <= |response| {
      FenceNeedsBacktick(response, i);
    }
    RemoveAllWithoutMatch(response, OpeningFence, 0);
    RemoveAllWithoutMatch(response, ClosingFence, 0);
    RemoveAllWithoutMatch(response, BareFence, 0);
  }

  /** A body a fenced block can carry intact: no backtick, visible text at both ends. */
  predicate PlainBody(body: string)
  {
    body != [] && !IsSpace(body[0]) && !IsSpace(body[|body| - 1]) && '`' !in body
  }

  /**
   * A fenced block, tagged with one of the recognised languages or with
   * nothing, comes out as its body.
   */
  lemma CleanFencedBlock(k: nat, body: string)
    requires k < |FenceTags|
    requires PlainBody(body)
    ensures CleanCodeResponse("```" + FenceTags[k] + "\n" + body + "\n```") == body
  {
    var s := "```" + FenceTags[k] + "\n" + body + "\n```";
    OpeningPass(FenceTags[k], body);
    ClosingPass(body);
    forall i | 0 <= i <= |body| {
      FenceNeedsBacktick(body, i);
    }
    RemoveAllWithoutMatch(body, BareFence, 0);
    TrimOfTrimmed(body);
  }

  /** The first removal takes out the opening fence line and nothing else. */
  lemma OpeningPass(tag: string, body: string)
    requires tag in FenceTags
    requires PlainBody(body)
    ensures RemoveAll("```" + tag + "\n" + body + "\n```", OpeningFence, 0) == body + "\n```"
  {
    var head := "```" + tag + "\n";
    var rest := body + "\n```";
    var s := head + rest;
    assert s == "```" + tag + "\n" + body + "\n```";
    OpeningAtStart(tag, rest);
    NoOpeningInBlock(s, |head|, body);
    RemoveAllCopies(s, OpeningFence, |head|, |s|);
    assert s[|head|..] == rest;
  }

  /** After the opening line, only the closing fence has backticks, and it opens nothing. */
  lemma NoOpeningInBlock(s: string, h: nat, body: string)
    requires PlainBody(body)
    requires h <= |s| && s[h..] == body + "\n```"
    ensures forall i :: h <= i < |s| ==> !IsMatch(OpeningFence, s, i)
  {
    var rest := body + "\n```";
    forall i | h <= i < |s|
      ensures !IsMatch(OpeningFence, s, i)
    {
      assert s[i] == rest[i - h];
      if i <= h + |body| {
        if i < h + |body| {
          assert rest[i - h] == body[i - h];
        }
        DiffersAt(s, i, "```", 0);
      } else if i == h + |body| + 1 {
        NoTaggedFence(s, |s|, 0);
      } else {
        assert s[i - 1] == rest[i - 1 - h] == '`';
      }
    }
  }

  /** The second removal takes out the closing fence and nothing else. */
  lemma ClosingPass(body: string)
    requires PlainBody(body)
    ensures RemoveAll(body + "\n```", ClosingFence, 0) == body
  {
    var s1 := body + "\n```";
    forall i | 0 <= i < |body|
      ensures !IsMatch(ClosingFence, s1, i)
    {
      if i + 1 < |body| {
        assert s1[i + 1] == body[i + 1];
      } else {
        assert s1[i] == body[i];
      }
    }
    RemoveAllCopies(s1, ClosingFence, 0, |body|);
    assert s1[|body|..|body| + 4] == "\n```";
    assert ClosingFence(s1, |body|) == Some(|s1|);
    assert s1[0..|body|] == body;
  }

  /** `"```" + tag + "\n"` opens a block for each recognised tag. */
  lemma OpeningAtStart(tag: string, rest: string)
    requires tag in FenceTags
    requires rest != [] && !IsSpace(rest[0])
    ensures OpeningFence("```" + tag + "\n" + rest, 0) == Some(|tag| + 4)
  {
    var s := "```" + tag + "\n" + rest;
    var k :| 0 <= k < |FenceTags| && FenceTags[k] == tag;
    assert s[..3] == "```";
    assert s[3..3 + |tag|] == tag;
    assert s[3 + |tag|] == '\n';
    assert s[4 + |tag|] == rest[0];
    assert SpacesThroughNewline(s, 3 + |tag|) == Some(4 + |tag|) by {
      assert RunEnd(s, 4 + |tag|, Space) == 4 + |tag|;
      assert RunEnd(s, 3 + |tag|, Space) == 4 + |tag|;
    }
    EarlierTagsFail(s, k);
    TaggedFenceFrom(s, 0, k, 4 + |tag|);
  }

  /** The prefix of the text right after the backticks, as far as the tags can tell apart. */
  lemma EarlierTagsFail(s: string, k: nat)
    requires k < |FenceTags|
    requires StartsAt(s, 3, FenceTags[k]) && 4 + |FenceTags[k]| <= |s| && s[3 + |FenceTags[k]|] == '\n'
    ensures forall t :: 0 <= t < k ==> !StartsAt(s, 3, FenceTags[t])
  {
    var tag := FenceTags[k];
    if k == 1 {
      DiffersAt(s, 3, "tsx", 2);
    } else if k == 2 || k == 3 || k == 4 {
      CharAt(s, 3, tag, 0);
      DiffersAt(s, 3, "tsx", 0);
      DiffersAt(s, 3, "ts", 0);
      if k > 2 {
        CharAt(s, 3, tag, 1);
        DiffersAt(s, 3, "javascript", 1);
      }
      if k > 3 {
        CharAt(s, 3, tag, 2);
        DiffersAt(s, 3, "jsx", 2);
      }
    } else if k == 5 {
      DiffersAt(s, 3, "tsx", 0);
      DiffersAt(s, 3, "ts", 0);
      DiffersAt(s, 3, "javascript", 0);
      DiffersAt(s, 3, "jsx", 0);
      DiffersAt(s, 3, "json", 0);
    }
  }

  /** The alternatives are tried in order: the first one that fits decides. */
  lemma {:induction false} TaggedFenceFrom(s: string, j: nat, k: nat, x: nat)
    requires j <= k < |FenceTags| && 3 <= |s|
    requires StartsAt(s, 3, FenceTags[k]) && SpacesThroughNewline(s, 3 + |FenceTags[k]|) == Some(x)
    requires forall t :: j <= t < k ==> !StartsAt(s, 3, FenceTags[t])
    ensures TaggedFenceEnd(s, 3, j) == Some(x)
    decreases k - j
  {
    if j < k {
      assert !StartsAt(s, 3, FenceTags[j]);
      TaggedFenceFrom(s, j + 1, k, x);
    }
  }

  /** At the end of the text no tagged fence can follow. */
  lemma {:induction false} NoTaggedFence(s: string, p: nat, k: nat)
    requires p == |s|
    ensures TaggedFenceEnd(s, p, k) == None
    decreases |FenceTags| - k
  {
    if k < |FenceTags| {
      NoTaggedFence(s, p, k + 1);
    }
  }

  // --------------------------------------------------------- JSON extraction

  const NoJsonMessage := "No valid JSON found in response"

  /** `/\{[\s\S]*\}|\[[\s\S]*\]/` at `i`: an opener and the last matching closer after it. */
  function JsonSpanAt(s: string, i: nat): Option<nat>
  {
    if i >= |s| then None
    else if s[i] == '{' then
      match LastIndexIn(s, i + 1, |s|, (c: char) => c == '}')
      case Some(q) => Some(q + 1)
      case None => None
    else if s[i] == '[' then
      match LastIndexIn(s, i + 1, |s|, (c: char) => c == ']')
      case Some(q) => Some(q + 1)
      case None => None
    else None
  }

  function CloserOf(opener: char): char
  {
    if opener == '{' then '}' else ']'
  }

  /** An opener at `i` with its closer somewhere after it. */
  predicate OpensSpan(s: string, i: nat)
  {
    i < |s| && (s[i] == '{' || s[i] == '[') && exists j :: i < j < |s| && s[j] == CloserOf(s[i])
  }

  /** The span pattern matches exactly at the openers that have a closer after them, up to the last one. */
  lemma JsonSpanAtOpens(s: string, i: nat)
    ensures IsMatch(JsonSpanAt, s, i) <==> OpensSpan(s, i)
    ensures IsMatch(JsonSpanAt, s, i) ==>
      var e := JsonSpanAt(s, i).value;
      i + 2 <= e && s[e - 1] == CloserOf(s[i]) && forall q :: e <= q < |s| ==> s[q] != CloserOf(s[i])
  {
    if i < |s| && (s[i] == '{' || s[i] == '[') {
      var close := CloserOf(s[i]);
      var wanted := (c: char) => c == close;
      assert s[i] == '{' ==> JsonSpanAt(s, i) == (match LastIndexIn(s, i + 1, |s|, wanted) case Some(q) => Some(q + 1) case None => None);
      assert s[i] == '[' ==> JsonSpanAt(s, i) == (match LastIndexIn(s, i + 1, |s|, wanted) case Some(q) => Some(q + 1) case None => None);
      if OpensSpan(s, i) {
        var j :| i < j < |s| && s[j] == close;
        assert wanted(s[j]);
      }
    }
  }

  /** Some `{` is followed by a `}`, or some `[` by a `]`. */
  predicate HasBracketedSpan(s: string)
  {
    exists i, j :: 0 <= i < j < |s| && ((s[i] == '{' && s[j] == '}') || (s[i] == '[' && s[j] == ']'))
  }

  /**
   * `extractJSON`: the text from the leftmost opener that has a closer after
   * it to the last such closer; an error when there is no such span.
   */
  function ExtractJson(text: string): (r: Result<string, Thrown>)
    ensures r.Err? <==> !HasBracketedSpan(text)
    ensures r.Err? ==> r.error == PlainError(NoJsonMessage)
    ensures r.Ok? ==> |r.value| >= 2 && exists i :: 0 <= i <= |text| - |r.value| && StartsAt(text, i, r.value)
    ensures r.Ok? ==> (r.value[0] == '{' && r.value[|r.value| - 1] == '}') ||
                      (r.value[0] == '[' && r.value[|r.value| - 1] == ']')
  {
    match FirstMatch(text, JsonSpanAt, 0)
    case None =>
      assert !HasBracketedSpan(text) by {
        forall i, j | 0 <= i < j < |text|
          ensures !((text[i] == '{' && text[j] == '}') || (text[i] == '[' && text[j] == ']'))
        {
          assert !IsMatch(JsonSpanAt, text, i);
        }
      }
      Err(PlainError(NoJsonMessage))
    case Some(i) =>
      var span := text[i..JsonSpanAt(text, i).value];
      assert StartsAt(text, i, span);
      Ok(span)
  }

  /**
   * The span `extractJSON` picks starts at the leftmost opener that has its
   * closer after it and runs to the last closer of the same kind.
   */
  lemma ExtractJsonPicks(text: string, i: nat)
    requires OpensSpan(text, i)
    requires forall p :: 0 <= p < i ==> !OpensSpan(text, p)
    ensures ExtractJson(text).Ok?
    ensures var v := ExtractJson(text).value;
      |v| >= 2 && StartsAt(text, i, v) && v[|v| - 1] == CloserOf(text[i]) &&
      forall q :: i + |v| <= q < |text| ==> text[q] != CloserOf(text[i])
  {
    forall p | 0 <= p < i
      ensures !IsMatch(JsonSpanAt, text, p)
    {
      JsonSpanAtOpens(text, p);
    }
    JsonSpanAtOpens(text, i);
    assert FirstMatch(text, JsonSpanAt, 0) == Some(i);
    var e := JsonSpanAt(text, i).value;
    assert ExtractJson(text) == Ok(text[i..e]);
  }

  // --------------------------------------------------------------- calls

  /**
   * `generateCode`. The prompt checks come before any request; a missing or
   * empty content is an error; every failure comes out as a `GroqError`.
   */
  function GenerateCode(api: Api, prompt: string, options: GroqOptions): (r: Result<string, Thrown>)
    ensures r.Err? ==> r.error.GroqError?
    ensures r.Ok? ==> IsTrimmed(r.value)
    ensures AllSpace(prompt) ==> r == Err(GroqError(PromptRequiredMessage, None))
    ensures !AllSpace(prompt) && |prompt| > 10000 ==> r == Err(GroqError(PromptTooLongMessage, None))
    ensures !AllSpace(prompt) && |prompt| <= 10000 ==>
      match api(CodeRequest(prompt, options))
      case Completion(content) =>
        if content.Some? && content.value != [] then r == Ok(CleanCodeResponse(content.value))
        else r == Err(GroqError(NoResponseMessage, None))
      case Raised(e) => r == Err(MapError(e))
  {
    if Trim(prompt) == [] then Err(GroqError(PromptRequiredMessage, None))
    else if |prompt| > 10000 then Err(GroqError(PromptTooLongMessage, None))
    else
      match api(CodeRequest(prompt, options))
      case Completion(content) =>
        if content.Some? && content.value != [] then Ok(CleanCodeResponse(content.value))
        else Err(GroqError(NoResponseMessage, None))
      case Raised(e) => Err(MapError(e))
  }

  /** The convenience methods for Maverick, Scout, Kimi K2 and Llama 3.3. */
  function GenerateWith(api: Api, f: Family, prompt: string, options: GroqOptions): (r: Result<string, Thrown>)
    ensures r.Err? ==> r.error.GroqError?
    ensures r.Ok? ==> IsTrimmed(r.value)
    ensures AllSpace(prompt) ==> r == Err(GroqError(PromptRequiredMessage, None))
    ensures !AllSpace(prompt) && |prompt| > 10000 ==> r == Err(GroqError(PromptTooLongMessage, None))
    ensures !AllSpace(prompt) && |prompt| <= 10000 ==>
      var request := Request(FamilyModel(f), prompt,
                             ClampReal(0.0, 2.0, options.temperature.GetOr(FamilyTemperature(f))),
                             ClampInt(1, 65536, options.maxTokens.GetOr(FamilyMaxTokens(f))),
                             ClampReal(0.0, 1.0, options.topP.GetOr(1.0)), false, false);
      match api(request)
      case Completion(content) =>
        if content.Some? && content.value != [] then r == Ok(CleanCodeResponse(content.value))
        else r == Err(GroqError(NoResponseMessage, None))
      case Raised(e) => r == Err(MapError(e))
  {
    FamilyRequest(f, prompt, options);
    GenerateCode(api, prompt, FamilyOptions(f, options))
  }

  /** The request a convenience method sends: its model, its defaults where the caller set none, all clamped. */
  lemma FamilyRequest(f: Family, prompt: string, options: GroqOptions)
    ensures CodeRequest(prompt, FamilyOptions(f, options)) ==
      Request(FamilyModel(f), prompt,
              ClampReal(0.0, 2.0, options.temperature.GetOr(FamilyTemperature(f))),
              ClampInt(1, 65536, options.maxTokens.GetOr(FamilyMaxTokens(f))),
              ClampReal(0.0, 1.0, options.topP.GetOr(1.0)), false, false)
  {
    var o := FamilyOptions(f, options);
    assert ModelOr(o) == FamilyModel(f) by {
      match f
      case Maverick =>
      case Scout =>
      case Kimi =>
      case Llama33 =>
    }
  }

  /**
   * `generateWithGPTOSS`: no prompt checks, no clamping, and a thrown value
   * passes through unmapped; only a missing or empty content is reported.
   */
  function GenerateWithGptOss(api: Api, prompt: string, options: GroqOptions): (r: Result<string, Thrown>)
    ensures r.Ok? ==> IsTrimmed(r.value)
    ensures api(GptOssRequest(prompt, options, false)).Raised? ==>
      r == Err(api(GptOssRequest(prompt, options, false)).error)
    ensures api(GptOssRequest(prompt, options, false)).Completion? ==>
      var content := api(GptOssRequest(prompt, options, false)).content;
      (r.Err? <==> content.None? || content.value == []) &&
      (r.Err? ==> r == Err(GroqError(NoResponseMessage, None))) &&
      (content.Some? && content.value != [] ==> r == Ok(CleanCodeResponse(content.value)))
  {
    match api(GptOssRequest(prompt, options, false))
    case Raised(e) => Err(e)
    case Completion(content) =>
      if content.Some? && content.value != [] then Ok(CleanCodeResponse(content.value))
      else Err(GroqError(NoResponseMessage, None))
  }

  /**
   * `generateJSON`: asks for JSON only, parses the cleaned answer, and on a
   * parse failure parses the extracted span instead. `parse` is `JSON.parse`,
   * returning the `SyntaxError` message on failure.
   */
  function GenerateJson<J>(api: Api, parse: string -> Result<J, string>, prompt: string, options: GroqOptions): (r: Result<J, Thrown>)
    ensures GenerateCode(api, JsonPrompt(prompt), options).Err? ==> r == Err(GenerateCode(api, JsonPrompt(prompt), options).error)
    ensures GenerateCode(api, JsonPrompt(prompt), options).Ok? ==>
      var text := GenerateCode(api, JsonPrompt(prompt), options).value;
      (parse(text).Ok? ==> r == Ok(parse(text).value)) &&
      (parse(text).Err? && !HasBracketedSpan(text) ==> r == Err(PlainError(NoJsonMessage))) &&
      (parse(text).Err? && HasBracketedSpan(text) && parse(ExtractJson(text).value).Ok? ==>
        r == Ok(parse(ExtractJson(text).value).value)) &&
      (parse(text).Err? && HasBracketedSpan(text) && parse(ExtractJson(text).value).Err? ==>
        r == Err(PlainError(parse(ExtractJson(text).value).error)))
  {
    match GenerateCode(api, JsonPrompt(prompt), options)
    case Err(e) => Err(e)
    case Ok(text) =>
      match parse(text)
      case Ok(v) => Ok(v)
      case Err(_) =>
        match ExtractJson(text)
        case Err(e) => Err(e)
        case Ok(span) =>
          match parse(span)
          case Ok(v) => Ok(v)
          case Err(msg) => Err(PlainError(msg))
  }

  const JsonInstruction := "\n\nReturn only valid JSON, no explanations."

  /** The prompt of `generateJSON`: the caller's prompt kept whole, the instruction after it. */
  function JsonPrompt(prompt: string): (r: string)
    ensures |r| == |prompt| + |JsonInstruction|
    ensures r[..|prompt|] == prompt && r[|prompt|..] == JsonInstruction
  {
    prompt + JsonInstruction
  }

  // -------------------------------------------------------------- streams

  /** `content: chunk.choices[0]?.delta?.content || ''`. */
  function ToStreamChunk(raw: RawChunk): (c: StreamChunk)
    ensures raw.delta.Some? ==> c.content == raw.delta.value
    ensures raw.delta.None? ==> c.content == []
    ensures c.finishReason == raw.finishReason
  {
    StreamChunk(raw.delta.GetOr([]), raw.finishReason)
  }

  function ToStreamChunks(raws: seq<RawChunk>): (r: seq<StreamChunk>)
    ensures |r| == |raws|
    ensures forall k :: 0 <= k < |raws| ==> r[k] == ToStreamChunk(raws[k])
  {
    if raws == [] then [] else [ToStreamChunk(raws[0])] + ToStreamChunks(raws[1..])
  }

  /** `generateCodeStream`: the chunks of the unchecked, unclamped streaming request. */
  function GenerateCodeStream(stream: StreamApi, prompt: string, options: GroqOptions): (r: seq<StreamChunk>)
    ensures var raws := stream(Request(ModelOr(options), prompt, options.temperature.GetOr(1.0),
                                       options.maxTokens.GetOr(8192), options.topP.GetOr(1.0), true, false));
      r == ToStreamChunks(raws)
  {
    ToStreamChunks(stream(StreamRequest(prompt, options)))
  }

  /** The streaming convenience methods for Maverick, Scout, Kimi K2 and Llama 3.3. */
  function GenerateWithStream(stream: StreamApi, f: Family, prompt: string, options: GroqOptions): (r: seq<StreamChunk>)
    ensures var raws := stream(Request(FamilyModel(f), prompt, options.temperature.GetOr(FamilyTemperature(f)),
                                       options.maxTokens.GetOr(FamilyMaxTokens(f)), options.topP.GetOr(1.0), true, false));
      r == ToStreamChunks(raws)
  {
    GenerateCodeStream(stream, prompt, FamilyOptions(f, options))
  }

  /** `generateWithGPTOSSStream`. */
  function GenerateWithGptOssStream(stream: StreamApi, prompt: string, options: GroqOptions): (r: seq<StreamChunk>)
    ensures var raws := stream(Request(GptOssModel, prompt, options.temperature.GetOr(1.0),
                                       options.maxTokens.GetOr(65536), options.topP.GetOr(1.0), true, true));
      r == ToStreamChunks(raws)
  {
    ToStreamChunks(stream(GptOssRequest(prompt, options, true)))
  }

  /** The concatenation of the chunk contents, `chunks.join('')`. */
  function Contents(chunks: seq<StreamChunk>): (r: seq<string>)
    ensures |r| == |chunks|
    ensures forall k :: 0 <= k < |chunks| ==> r[k] == chunks[k].content
  {
    if chunks == [] then [] else [chunks[0].content] + Contents(chunks[1..])
  }

  /** Joining with the empty separator, one more piece at the end. */
  lemma {:induction false} JoinEmptySnoc(parts: seq<string>, x: string)
    ensures Join(parts + [x], "") == Join(parts, "") + x
  {
    if parts == [] {
      assert parts + [x] == [x];
    } else if |parts| == 1 {
      assert (parts + [x])[1..] == [x];
    } else {
      assert (parts + [x])[1..] == parts[1..] + [x];
      JoinEmptySnoc(parts[1..], x);
    }
  }

  /** The joined text is as long as all the pieces together. */
  lemma {:induction false} JoinEmptyLength(parts: seq<string>)
    ensures |Join(parts, "")| == TotalLength(parts)
  {
    if |parts| > 1 {
      JoinEmptyLength(parts[1..]);
    }
  }

  function TotalLength(parts: seq<string>): nat
  {
    if parts == [] then 0 else |parts[0]| + TotalLength(parts[1..])
  }

  /**
   * `generateStreamingAsString`: collects every chunk's content, in order,
   * and joins them.
   */
  method GenerateStreamingAsString(stream: StreamApi, prompt: string, options: GroqOptions) returns (r: string)
    ensures r == Join(Contents(GenerateCodeStream(stream, prompt, options)), "")
    ensures |r| == TotalLength(Contents(GenerateCodeStream(stream, prompt, options)))
  {
    var chunks := GenerateCodeStream(stream, prompt, options);
    var collected: seq<string> := [];
    r := "";
    var k := 0;
    while k < |chunks|
      invariant 0 <= k <= |chunks|
      invariant collected == Contents(chunks[..k])
      invariant r == Join(collected, "")
    {
      JoinEmptySnoc(collected, chunks[k].content);
      assert Contents(chunks[..k + 1]) == Contents(chunks[..k]) + [chunks[k].content];
      collected := collected + [chunks[k].content];
      r := r + chunks[k].content;
      k := k + 1;
    }
    assert chunks[..k] == chunks;
    JoinEmptyLength(collected);
  }
}
