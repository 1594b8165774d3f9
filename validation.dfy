/**
 * Input validation, the mapping of errors to HTTP responses and the
 * fixed-window rate limiter (src/lib/validation.ts).
 */
module Validation {
  import opened Wrappers
  import opened JsText
  import opened Types

  /** The result every validator returns. */
  datatype ValidationResult = ValidationResult(isValid: bool, errors: seq<string>)

  /** `{ isValid: errors.length === 0, errors }`. */
  function FromErrors(errors: seq<string>): (r: ValidationResult)
    ensures r.errors == errors
    ensures r.isValid <==> errors == []
  {
    ValidationResult(|errors| == 0, errors)
  }

  // ---------------------------------------------------------------- prompts

  const PromptRequired := "Prompt is required"
  const PromptEmpty := "Prompt cannot be empty"
  const PromptTooShort := "Prompt must be at least 10 characters long"
  const PromptTooLong := "Prompt cannot exceed 2000 characters"
  const PromptUnsafe := "Prompt contains potentially unsafe content"

  /** End of `\s*\(` at `i`: the position just after the parenthesis. */
  function OpenParenAfterSpaces(s: string, i: nat): Option<nat>
  {
    if i > |s| then None
    else
      var e := RunEnd(s, i, Space);
      if e < |s| && s[e] == '(' then Some(e + 1) else None
  }

  /**
   * `/on\w+\s*=/i` at `i`. `\w+` and `\s*` are followed by characters outside
   * their class, so their greedy runs are the only ones that can succeed.
   */
  predicate HandlerAssignmentAt(s: string, i: nat)
  {
    StartsAtCI(s, i, "on") &&
    var w := RunEnd(s, i + 2, Word);
    w > i + 2 &&
    var e := RunEnd(s, w, Space);
    e < |s| && s[e] == '='
  }

  /** One of the prompt's harmful patterns matches at `i`. */
  predicate HarmfulAt(t: string, i: nat)
  {
    StartsAtCI(t, i, "<script") ||
    StartsAtCI(t, i, "javascript:") ||
    HandlerAssignmentAt(t, i) ||
    (StartsAtCI(t, i, "eval") && OpenParenAfterSpaces(t, i + 4).Some?) ||
    StartsAtCI(t, i, "document.") ||
    StartsAtCI(t, i, "window.")
  }

  /** `harmfulPatterns.some(pattern => pattern.test(t))`. */
  predicate IsUnsafePrompt(t: string)
  {
    exists i :: 0 <= i <= |t| && HarmfulAt(t, i)
  }

  /** The five prompt messages are pairwise different. */
  lemma PromptMessagesDiffer()
    ensures PromptRequired != PromptEmpty && PromptRequired != PromptTooShort
    ensures PromptRequired != PromptTooLong && PromptRequired != PromptUnsafe
    ensures PromptEmpty != PromptTooShort && PromptEmpty != PromptTooLong && PromptEmpty != PromptUnsafe
    ensures PromptTooShort != PromptTooLong && PromptTooShort != PromptUnsafe && PromptTooLong != PromptUnsafe
  {
    assert PromptRequired[7] == 'i' && PromptEmpty[7] == 'c' && PromptTooShort[7] == 'm';
    assert PromptTooLong[7] == 'c' && PromptUnsafe[7] == 'c';
    assert PromptEmpty[8] == 'a' && PromptTooLong[8] == 'a' && PromptUnsafe[8] == 'o';
    assert PromptEmpty[14] == 'b' && PromptTooLong[14] == 'e';
  }

  /** The length check of `validatePrompt` on the trimmed prompt: at most one error. */
  function LengthErrors(trimmed: string): (r: seq<string>)
    ensures |r| <= 1 && (r == [] <==> 10 <= |trimmed| <= 2000)
    ensures PromptEmpty in r <==> |trimmed| == 0
    ensures PromptTooShort in r <==> 0 < |trimmed| < 10
    ensures PromptTooLong in r <==> |trimmed| > 2000
    ensures PromptRequired !in r && PromptUnsafe !in r
  {
    PromptMessagesDiffer();
    if |trimmed| == 0 then [PromptEmpty]
    else if |trimmed| < 10 then [PromptTooShort]
    else if |trimmed| > 2000 then [PromptTooLong]
    else []
  }

  /**
   * `validatePrompt`. A falsy prompt only yields 'Prompt is required'.
   * Otherwise the length checks use the trimmed length and give at most one
   * error, and the unsafe-content check runs independently of them.
   */
  function ValidatePrompt(prompt: string): (r: ValidationResult)
    ensures r.isValid <==> r.errors == []
    ensures prompt == [] ==> r.errors == [PromptRequired]
    ensures prompt != [] ==> (PromptEmpty in r.errors <==> AllSpace(prompt))
    ensures prompt != [] ==> (PromptTooShort in r.errors <==> 0 < |Trim(prompt)| < 10)
    ensures prompt != [] ==> (PromptTooLong in r.errors <==> |Trim(prompt)| > 2000)
    ensures prompt != [] ==> (PromptUnsafe in r.errors <==> IsUnsafePrompt(Trim(prompt)))
    ensures prompt != [] ==> PromptRequired !in r.errors
    ensures |r.errors| <= 2
    ensures r.isValid <==> prompt != [] && 10 <= |Trim(prompt)| <= 2000 && !IsUnsafePrompt(Trim(prompt))
  {
    if prompt == [] then FromErrors([PromptRequired])
    else
      var trimmed := Trim(prompt);
      PromptMessagesDiffer();
      FromErrors(LengthErrors(trimmed) + (if IsUnsafePrompt(trimmed) then [PromptUnsafe] else []))
  }

  // ------------------------------------------------------------ project ids

  /** `[a-zA-Z0-9_-]`. */
  predicate IsIdChar(c: char)
  {
    IsWordChar(c) || c == '-'
  }

  /** `/^[a-zA-Z0-9_-]{8,}$/.test(id)`. */
  predicate MatchesIdPattern(id: string)
  {
    |id| >= 8 && forall k :: 0 <= k < |id| ==> IsIdChar(id[k])
  }

  /** `validateProjectId`: exactly the strings of at least 8 characters over `[A-Za-z0-9_-]` pass. */
  function ValidateProjectId(id: string): (r: ValidationResult)
    ensures r.isValid <==> |id| >= 8 && forall k :: 0 <= k < |id| ==> IsIdChar(id[k])
    ensures id == [] ==> r.errors == ["Project ID is required"]
    ensures id != [] && !r.isValid ==> r.errors == ["Invalid project ID format"]
  {
    if id == [] then FromErrors(["Project ID is required"])
    else if !MatchesIdPattern(id) then FromErrors(["Invalid project ID format"])
    else FromErrors([])
  }

  // ------------------------------------------------------------- file paths

  const AllowedExtensions: seq<string> := [".tsx", ".ts", ".js", ".jsx", ".json", ".css", ".scss"]

  predicate HasAllowedExtension(path: string)
  {
    exists k :: 0 <= k < |AllowedExtensions| && EndsWith(path, AllowedExtensions[k])
  }

  predicate IsTraversal(path: string)
  {
    Includes(path, "../") || Includes(path, "..\\") || StartsWith(path, "/")
  }

  /**
   * `validateFilePath`: a traversal ('../', '..\' or a leading '/') and a
   * disallowed extension are reported independently of each other.
   */
  function ValidateFilePath(path: string): (r: ValidationResult)
    ensures r.isValid <==> r.errors == []
    ensures path == [] ==> r.errors == ["File path is required"]
    ensures path != [] ==> ("Invalid file path" in r.errors <==> IsTraversal(path))
    ensures path != [] ==> ("File type not allowed" in r.errors <==> !HasAllowedExtension(path))
    ensures path != [] ==> |r.errors| <= 2 && "File path is required" !in r.errors
  {
    if path == [] then FromErrors(["File path is required"])
    else
      FromErrors((if IsTraversal(path) then ["Invalid file path"] else []) +
                 (if HasAllowedExtension(path) then [] else ["File type not allowed"]))
  }

  /**
   * A path the validator accepts never climbs out of the project: it is
   * relative, and none of its '/'-separated segments is '..'.
   */
  lemma AcceptedPathStaysInside(path: string)
    requires ValidateFilePath(path).isValid
    ensures path != [] && path[0] != '/'
    ensures forall k :: 0 <= k < |Split(path, '/')| ==> Split(path, '/')[k] != ".."
  {
    assert !StartsWith(path, "/");
    assert path[0..1] == [path[0]];
    NoDotDotSegment(path);
  }

  /**
   * Without '../' in it and with an allowed extension, a path has no '..'
   * segment: an inner one would be followed by '/', a last one would make the
   * path end in '.'.
   */
  lemma NoDotDotSegment(path: string)
    requires !Includes(path, "../")
    requires HasAllowedExtension(path)
    ensures forall k :: 0 <= k < |Split(path, '/')| ==> Split(path, '/')[k] != ".."
  {
    var parts := Split(path, '/');
    forall k | 0 <= k < |parts|
      ensures parts[k] != ".."
    {
      var off := SegmentOffset(path, k);
      SegmentAt(path, k);
      if |parts[k]| == 2 {
        if k < |parts| - 1 {
          assert path[off..off + 3] == parts[k] + "/";
          assert !StartsAt(path, off, "../");
        } else {
          var j :| 0 <= j < |AllowedExtensions| && EndsWith(path, AllowedExtensions[j]);
          var ext := AllowedExtensions[j];
          assert path[|path| - 1] == ext[|ext| - 1];
          assert path[|path| - 1] == parts[k][1];
        }
      }
    }
  }

  /** The offset in `path` at which segment `k` of `Split(path, '/')` starts. */
  function SegmentOffset(path: string, k: nat): nat
    decreases |path|
  {
    if path == [] || k == 0 then 0
    else if path[0] == '/' then 1 + SegmentOffset(path[1..], k - 1)
    else 1 + SegmentOffset(path[1..], k)
  }

  /** Segment `k` of the split is the text at its offset, followed by '/' unless it is the last. */
  lemma {:induction false} SegmentAt(path: string, k: nat)
    requires k < |Split(path, '/')|
    ensures var parts := Split(path, '/'); var off := SegmentOffset(path, k);
      off + |parts[k]| <= |path| &&
      path[off..off + |parts[k]|] == parts[k] &&
      (k < |parts| - 1 ==> off + |parts[k]| < |path| && path[off + |parts[k]|] == '/') &&
      (k == |parts| - 1 ==> off + |parts[k]| == |path|)
    decreases |path|
  {
    if path != [] {
      var parts := Split(path, '/');
      var rest := Split(path[1..], '/');
      var tail := path[1..];
      if path[0] == '/' {
        assert parts == [[]] + rest;
        if k > 0 {
          assert parts[k] == rest[k - 1];
          SegmentAt(tail, k - 1);
          SliceOfTail(path, SegmentOffset(tail, k - 1), |parts[k]|);
        }
      } else {
        assert parts == [[path[0]] + rest[0]] + rest[1..];
        if k == 0 {
          SegmentAt(tail, 0);
          SliceOfTail(path, 0, |rest[0]|);
          assert path[0..1 + |rest[0]|] == [path[0]] + path[1..1 + |rest[0]|];
        } else {
          assert parts[k] == rest[k];
          SegmentAt(tail, k);
          SliceOfTail(path, SegmentOffset(tail, k), |parts[k]|);
        }
      }
    }
  }

  lemma SliceOfTail(path: string, o: nat, n: nat)
    requires 1 + o + n <= |path|
    ensures path[1 + o..1 + o + n] == path[1..][o..o + n]
  {
  }

  // ----------------------------------------------------------- code content

  predicate IsQuote(c: char)
  {
    c == '"' || c == '\''
  }

  /** A quote, then `[^"']*`, then a quote: some quote follows position `q`. */
  predicate QuotedFrom(s: string, q: nat)
  {
    q < |s| && IsQuote(s[q]) && exists r :: q < r < |s| && IsQuote(s[r])
  }

  /** `/<script[^>]*>[\s\S]*?<\/script>/i` at `i`: the first '>' after the tag name is followed by a closing tag. */
  predicate ScriptBlockAt(s: string, i: nat)
  {
    StartsAtCI(s, i, "<script") &&
    var gt := IndexOfFrom(s, '>', i + 7);
    gt.Some? && OccursCIFrom(s, gt.value + 1, "</script>")
  }

  /** `/javascript:\s*[^"'\s]+/i` at `i`. */
  predicate JavascriptUrlAt(s: string, i: nat)
  {
    StartsAtCI(s, i, "javascript:") &&
    var e := RunEnd(s, i + 11, Space);
    e < |s| && !IsQuote(s[e]) && !IsSpace(s[e])
  }

  /** `/on\w+\s*=\s*["'][^"']*["']/i` at `i`. */
  predicate QuotedHandlerAt(s: string, i: nat)
  {
    HandlerAssignmentAt(s, i) &&
    var w := RunEnd(s, i + 2, Word);
    var e := RunEnd(s, w, Space);
    QuotedFrom(s, RunEnd(s, e + 1, Space))
  }

  /** `/<name>\s*\(\s*["'][^"']*["']/i` at `i`: a timer called with a string body. */
  predicate StringTimerAt(s: string, i: nat, name: string)
  {
    StartsAtCI(s, i, name) &&
    var open := OpenParenAfterSpaces(s, i + |name|);
    open.Some? && QuotedFrom(s, RunEnd(s, open.value, Space))
  }

  /** One of the code content's dangerous patterns matches at `i`. */
  predicate DangerousAt(s: string, i: nat)
  {
    ScriptBlockAt(s, i) ||
    JavascriptUrlAt(s, i) ||
    QuotedHandlerAt(s, i) ||
    (StartsAtCI(s, i, "eval") && OpenParenAfterSpaces(s, i + 4).Some?) ||
    (StartsAtCI(s, i, "function") && OpenParenAfterSpaces(s, i + 8).Some?) ||
    StringTimerAt(s, i, "settimeout") ||
    StringTimerAt(s, i, "setinterval")
  }

  predicate IsDangerousCode(s: string)
  {
    exists i :: 0 <= i <= |s| && DangerousAt(s, i)
  }

  /**
   * `validateCodeContent`: the size check (at most 100000 characters) and the
   * dangerous-pattern check are independent.
   */
  function ValidateCodeContent(content: string): (r: ValidationResult)
    ensures r.isValid <==> content != [] && |content| <= 100000 && !IsDangerousCode(content)
    ensures content == [] ==> r.errors == ["Code content is required"]
    ensures "Code content is too large" in r.errors <==> |content| > 100000
    ensures "Code contains potentially unsafe patterns" in r.errors <==> IsDangerousCode(content)
  {
    var sizeErrors :=
      if content == [] then ["Code content is required"]
      else if |content| > 100000 then ["Code content is too large"]
      else [];
    assert content == [] ==> !IsDangerousCode(content);
    FromErrors(sizeErrors + (if IsDangerousCode(content) then ["Code contains potentially unsafe patterns"] else []))
  }

  // ------------------------------------------------------------ API errors

  datatype ApiErrorResponse = ApiErrorResponse(message: string, status: int)

  /**
   * `handleApiError`: a validation error is a 400; otherwise an error whose
   * message mentions the network (503), a timeout (408) or the rate limit
   * (429), checked in that order; any other error is a 500 with its own
   * message, and a thrown non-error a 500 with a generic message.
   */
  function HandleApiError(error: Thrown): (r: ApiErrorResponse)
    ensures error.ValidationError? ==> r == ApiErrorResponse(error.message, 400)
    ensures r.status in {400, 408, 429, 500, 503}
    ensures !error.ValidationError? && !error.NonError? ==>
      (r.status == 503 <==> Includes(error.message, "network") || Includes(error.message, "fetch"))
    ensures r.status == 408 ==> (!error.NonError? && Includes(error.message, "timeout") &&
      !Includes(error.message, "network") && !Includes(error.message, "fetch"))
    ensures r.status == 429 ==> (!error.NonError? && Includes(error.message, "rate limit") &&
      !Includes(error.message, "timeout"))
    ensures error.NonError? ==> r == ApiErrorResponse("An unexpected error occurred", 500)
    ensures r.status == 500 && !error.NonError? ==> r.message == error.message
    ensures !error.ValidationError? && !error.NonError? ==>
      var m := error.message;
      (Includes(m, "network") || Includes(m, "fetch") ==> r == ApiErrorResponse("Network error occurred", 503)) &&
      (!Includes(m, "network") && !Includes(m, "fetch") && Includes(m, "timeout") ==>
        r == ApiErrorResponse("Request timed out", 408)) &&
      (!Includes(m, "network") && !Includes(m, "fetch") && !Includes(m, "timeout") && Includes(m, "rate limit") ==>
        r == ApiErrorResponse("Too many requests", 429)) &&
      (!Includes(m, "network") && !Includes(m, "fetch") && !Includes(m, "timeout") && !Includes(m, "rate limit") ==>
        r == ApiErrorResponse(m, 500))
  {
    if error.ValidationError? then ApiErrorResponse(error.message, 400)
    else if error.NonError? then ApiErrorResponse("An unexpected error occurred", 500)
    else if Includes(error.message, "network") || Includes(error.message, "fetch") then ApiErrorResponse("Network error occurred", 503)
    else if Includes(error.message, "timeout") then ApiErrorResponse("Request timed out", 408)
    else if Includes(error.message, "rate limit") then ApiErrorResponse("Too many requests", 429)
    else ApiErrorResponse(error.message, 500)
  }

  // ----------------------------------------------------------- rate limiter

  /** `times.filter(time => time > windowStart)`. */
  function Recent(times: seq<int>, windowStart: int): (r: seq<int>)
    ensures |r| <= |times|
    ensures forall t :: t in r <==> t in times && t > windowStart
  {
    if times == [] then []
    else (if times[0] > windowStart then [times[0]] else []) + Recent(times[1..], windowStart)
  }

  /** Filtering keeps every entry that is already inside the window. */
  lemma {:induction false} RecentKeepsInside(times: seq<int>, windowStart: int)
    requires forall k :: 0 <= k < |times| ==> times[k] > windowStart
    ensures Recent(times, windowStart) == times
  {
    if times != [] {
      RecentKeepsInside(times[1..], windowStart);
      assert [times[0]] + times[1..] == times;
    }
  }

  /** Filtering drops everything when no entry is inside the window. */
  lemma {:induction false} RecentOfExpired(times: seq<int>, windowStart: int)
    requires forall t :: t in times ==> t <= windowStart
    ensures Recent(times, windowStart) == []
  {
    if times != [] {
      assert times[0] in times;
      assert forall t :: t in times[1..] ==> t in times;
      RecentOfExpired(times[1..], windowStart);
    }
  }

  lemma {:induction false} RecentAppend(a: seq<int>, b: seq<int>, windowStart: int)
    ensures Recent(a + b, windowStart) == Recent(a, windowStart) + Recent(b, windowStart)
  {
    if a != [] {
      assert (a + b)[1..] == a[1..] + b;
      RecentAppend(a[1..], b, windowStart);
    } else {
      assert a + b == b;
    }
  }

  /**
   * One decision of `isAllowed` for one key: the decision and the list stored
   * for the key afterwards (`history` itself when the call is rejected).
   */
  function Admit(history: seq<int>, maxRequests: int, windowMs: int, now: int): (bool, seq<int>)
  {
    var recent := Recent(history, now - windowMs);
    if |recent| >= maxRequests then (false, history) else (true, recent + [now])
  }

  /**
   * After an accepted call the key's list holds only timestamps inside the
   * window and ends with `now`; a rejected call records nothing.
   */
  lemma AdmitShape(history: seq<int>, maxRequests: int, windowMs: int, now: int)
    requires windowMs > 0
    ensures var (ok, stored) := Admit(history, maxRequests, windowMs, now);
      (ok ==> stored != [] && stored[|stored| - 1] == now && |stored| <= maxRequests &&
              forall k :: 0 <= k < |stored| ==> stored[k] > now - windowMs) &&
      (!ok ==> stored == history) &&
      (ok <==> |Recent(history, now - windowMs)| < maxRequests)
  {
    var recent := Recent(history, now - windowMs);
    assert forall k :: 0 <= k < |recent| ==> recent[k] in recent;
  }

  /** A timestamp exactly `windowMs` old no longer counts. */
  lemma BoundaryTimestampExpired(history: seq<int>, maxRequests: int, windowMs: int, now: int)
    requires forall t :: t in history ==> t <= now - windowMs
    ensures Admit(history, maxRequests, windowMs, now).0 <==> maxRequests > 0
  {
    RecentOfExpired(history, now - windowMs);
  }

  /** The decisions of successive calls on one key, and the key's list afterwards. */
  function Replay(history: seq<int>, maxRequests: int, windowMs: int, nows: seq<int>): (r: (seq<bool>, seq<int>))
    ensures |r.0| == |nows|
    decreases |nows|
  {
    if nows == [] then ([], history)
    else
      var (ok, stored) := Admit(history, maxRequests, windowMs, nows[0]);
      var (rest, last) := Replay(stored, maxRequests, windowMs, nows[1..]);
      ([ok] + rest, last)
  }

  /**
   * Within one window a key admits calls until it holds `maxRequests`
   * timestamps: with `c` timestamps already inside the window, call `i` of a
   * burst is admitted exactly when `c + i < maxRequests`.
   */
  lemma {:induction false} BurstWithinWindow(history: seq<int>, maxRequests: int, windowMs: int, nows: seq<int>, lo: int, hi: int)
    requires hi - windowMs < lo
    requires forall k :: 0 <= k < |nows| ==> lo <= nows[k] <= hi
    requires OutsideBand(history, lo - windowMs, hi - windowMs)
    ensures var c := |Recent(history, hi - windowMs)|;
      forall i :: 0 <= i < |nows| ==> Replay(history, maxRequests, windowMs, nows).0[i] == (c + i < maxRequests)
    decreases |nows|
  {
    if nows != [] {
      var c := |Recent(history, hi - windowMs)|;
      BurstStep(history, maxRequests, windowMs, nows[0], lo, hi);
      var step := Admit(history, maxRequests, windowMs, nows[0]);
      BurstWithinWindow(step.1, maxRequests, windowMs, nows[1..], lo, hi);
      var later := Replay(step.1, maxRequests, windowMs, nows[1..]).0;
      var r := Replay(history, maxRequests, windowMs, nows).0;
      assert r == [step.0] + later;
      forall i | 1 <= i < |nows|
        ensures r[i] == (c + i < maxRequests)
      {
        assert r[i] == later[i - 1];
      }
    }
  }

  /** No timestamp lies in the band (loStart, hiStart]. */
  predicate OutsideBand(history: seq<int>, loStart: int, hiStart: int)
  {
    forall t :: t in history ==> t <= loStart || t > hiStart
  }

  /**
   * One call of a burst: it is admitted while fewer than `maxRequests`
   * timestamps are inside the window, and an admitted call adds one.
   */
  lemma BurstStep(history: seq<int>, maxRequests: int, windowMs: int, now: int, lo: int, hi: int)
    requires hi - windowMs < lo <= now <= hi
    requires OutsideBand(history, lo - windowMs, hi - windowMs)
    ensures var (ok, stored) := Admit(history, maxRequests, windowMs, now);
      var c := |Recent(history, hi - windowMs)|;
      ok == (c < maxRequests) &&
      OutsideBand(stored, lo - windowMs, hi - windowMs) &&
      |Recent(stored, hi - windowMs)| == (if ok then c + 1 else c)
  {
    SameRecent(history, now - windowMs, hi - windowMs, lo - windowMs);
    var recent := Recent(history, now - windowMs);
    if |recent| < maxRequests {
      forall k | 0 <= k < |recent|
        ensures recent[k] > hi - windowMs
      {
        assert recent[k] in recent;
      }
      AdmittedInside(recent, now, hi - windowMs);
    }
  }

  /** An admitted call stores the recent entries and `now`, all of them inside the window. */
  lemma AdmittedInside(recent: seq<int>, now: int, windowStart: int)
    requires forall k :: 0 <= k < |recent| ==> recent[k] > windowStart
    requires now > windowStart
    ensures Recent(recent + [now], windowStart) == recent + [now]
    ensures forall t :: t in recent + [now] ==> t > windowStart
  {
    RecentAppend(recent, [now], windowStart);
    RecentKeepsInside(recent, windowStart);
    assert Recent([now], windowStart) == [now];
  }

  /** Entries outside the band (lo - W, hi - W] are filtered the same by every window start in it. */
  lemma {:induction false} SameRecent(history: seq<int>, w: int, hiStart: int, loStart: int)
    requires loStart <= w <= hiStart
    requires forall t :: t in history ==> t <= loStart || t > hiStart
    ensures Recent(history, w) == Recent(history, hiStart)
  {
    if history != [] {
      assert history[0] in history;
      assert forall t :: t in history[1..] ==> t in history;
      SameRecent(history[1..], w, hiStart, loStart);
    }
  }

  /**
   * With a fresh key, `maxRequests` = N and a burst of calls inside one window,
   * exactly the first N calls are admitted.
   */
  lemma FirstNAdmitted(maxRequests: int, windowMs: int, nows: seq<int>, lo: int, hi: int)
    requires hi - windowMs < lo
    requires forall k :: 0 <= k < |nows| ==> lo <= nows[k] <= hi
    ensures forall i :: 0 <= i < |nows| ==> Replay([], maxRequests, windowMs, nows).0[i] == (i < maxRequests)
  {
    BurstWithinWindow([], maxRequests, windowMs, nows, lo, hi);
  }

  /** What the periodic cleanup leaves: every key's recent entries, and no key with none. */
  function Prune(requests: map<string, seq<int>>, windowStart: int): map<string, seq<int>>
  {
    map k | k in requests && Recent(requests[k], windowStart) != [] :: Recent(requests[k], windowStart)
  }

  /**
   * After the cleanup every remaining key holds only timestamps after
   * `windowStart`, at least one of them, and exactly the keys with such a
   * timestamp remain.
   */
  lemma PruneShape(requests: map<string, seq<int>>, windowStart: int)
    ensures var r := Prune(requests, windowStart);
      forall key :: key in r ==> r[key] != [] && forall t :: t in r[key] ==> t > windowStart
    ensures var r := Prune(requests, windowStart);
      forall key :: key in r <==> key in requests && exists t :: t in requests[key] && t > windowStart
  {
    var r := Prune(requests, windowStart);
    forall key | key in requests
      ensures key in r <==> exists t :: t in requests[key] && t > windowStart
    {
      var rec := Recent(requests[key], windowStart);
      if rec != [] {
        assert rec[0] in rec;
      }
    }
  }

  /** The cleanup part-way: the keys still `pending` are untouched, the others pruned. */
  ghost function PartlyPruned(requests: map<string, seq<int>>, pending: set<string>, windowStart: int): map<string, seq<int>>
  {
    map k | k in requests && (k in pending || Recent(requests[k], windowStart) != []) ::
      if k in pending then requests[k] else Recent(requests[k], windowStart)
  }

  /** The stored timestamps of a key, `requests.get(key) || []`. */
  function Lookup(requests: map<string, seq<int>>, key: string): seq<int>
  {
    if key in requests then requests[key] else []
  }

  /** `class RateLimiter`: request timestamps per identifier. */
  class RateLimiter {
    var requests: map<string, seq<int>>

    constructor()
      ensures requests == map[]
    {
      requests := map[];
    }

    /**
     * `isAllowed`. The clock reading `now` and the outcome of the random draw
     * that triggers the cleanup (`cleanup`) are parameters.
     */
    method IsAllowed(identifier: string, maxRequests: int, windowMs: int, now: int, cleanup: bool) returns (allowed: bool)
      modifies this
      ensures allowed == Admit(Lookup(old(requests), identifier), maxRequests, windowMs, now).0
      ensures !allowed ==> requests == old(requests)
      ensures allowed && !cleanup ==>
        requests == old(requests)[identifier := Admit(Lookup(old(requests), identifier), maxRequests, windowMs, now).1]
      ensures allowed && cleanup ==>
        requests == Prune(old(requests)[identifier := Admit(Lookup(old(requests), identifier), maxRequests, windowMs, now).1], now - windowMs)
    {
      var windowStart := now - windowMs;
      var userRequests := if identifier in requests then requests[identifier] else [];
      var recentRequests := Recent(userRequests, windowStart);
      if |recentRequests| >= maxRequests {
        return false;
      }
      requests := requests[identifier := recentRequests + [now]];
      ghost var admitted := requests;
      assert admitted == old(requests)[identifier := Admit(Lookup(old(requests), identifier), maxRequests, windowMs, now).1];
      if cleanup {
        CleanUp(windowStart);
        assert requests == Prune(admitted, windowStart);
      }
      return true;
    }

    /** The periodic cleanup: keeps each key's entries after `windowStart` and drops the keys left without any. */
    method CleanUp(windowStart: int)
      modifies this
      ensures requests == Prune(old(requests), windowStart)
    {
      ghost var before := requests;
      var pending := requests.Keys;
      while pending != {}
        invariant pending <= before.Keys
        invariant requests == PartlyPruned(before, pending, windowStart)
        decreases pending
      {
        var key :| key in pending;
        var filtered := Recent(requests[key], windowStart);
        if filtered == [] {
          requests := requests - {key};
        } else {
          requests := requests[key := filtered];
        }
        pending := pending - {key};
      }
    }
  }
}
