/**
 * The projects collection endpoint (src/app/api/projects/route.ts): the
 * validation of a new project's body, and the POST and GET handlers with
 * their per-client rate limits.
 *
 * The request is given by its two client-address headers and its parsed
 * body; the configured request budget and window, the clock, the new
 * project's id and the limiter's cleanup draw are parameters.
 */
module ProjectsRoute {
  import opened Wrappers
  import opened JsText
  import opened Types
  import opened Validation
  import Storage

  /** A property of the parsed body: absent, `null`, a string, or any other value, truthy or not. */
  datatype Field = Missing | Null | Str(text: string) | Other(truthy: bool)

  datatype Body = Body(name: Field, description: Field)

  predicate Truthy(f: Field)
  {
    match f
    case Missing => false
    case Null => false
    case Str(s) => s != ""
    case Other(t) => t
  }

  const NameRequired := "Project name is required"
  const NameEmpty := "Project name cannot be empty"
  const NameTooLong := "Project name cannot exceed 100 characters"
  const DescriptionNotString := "Project description must be a string"
  const DescriptionTooLong := "Project description cannot exceed 500 characters"

  /** The name check: at most one error, the first that applies. */
  function NameErrors(name: Field): (r: seq<string>)
    ensures |r| <= 1
    ensures r == [NameRequired] <==> !(name.Str? && name.text != "")
    ensures r == [NameEmpty] <==> name.Str? && name.text != "" && Trim(name.text) == []
    ensures r == [NameTooLong] <==> name.Str? && Trim(name.text) != [] && |name.text| > 100
    ensures r == [] <==> name.Str? && Trim(name.text) != [] && |name.text| <= 100
  {
    assert |NameRequired| == 24 && |NameEmpty| == 28 && |NameTooLong| == 41;
    if !Truthy(name) || !name.Str? then [NameRequired]
    else if |Trim(name.text)| == 0 then [NameEmpty]
    else if |name.text| > 100 then [NameTooLong]
    else []
  }

  /** The description check: a truthy non-string, or a string longer than 500 characters. */
  function DescriptionErrors(description: Field): (r: seq<string>)
    ensures |r| <= 1
    ensures r == [DescriptionNotString] <==> description == Other(true)
    ensures r == [DescriptionTooLong] <==> description.Str? && |description.text| > 500
    ensures r == [] <==> description != Other(true) && !(description.Str? && |description.text| > 500)
  {
    assert |DescriptionNotString| == 36 && |DescriptionTooLong| == 48;
    if Truthy(description) && !description.Str? then [DescriptionNotString]
    else if Truthy(description) && |description.text| > 500 then [DescriptionTooLong]
    else []
  }

  /** `validateProjectData`: the name's error, if any, then the description's. */
  function ValidateProjectData(body: Body): (r: ValidationResult)
    ensures r.isValid <==> r.errors == []
    ensures r.isValid <==> NameErrors(body.name) == [] && DescriptionErrors(body.description) == []
    ensures |r.errors| <= 2
    ensures !(body.name.Str? && body.name.text != "") ==> r.errors[0] == NameRequired
    ensures body.description in {Missing, Null, Str("")} ==> r.errors == NameErrors(body.name)
  {
    FromErrors(NameErrors(body.name) + DescriptionErrors(body.description))
  }

  /** `x-forwarded-for || x-real-ip || 'unknown'`: an absent or empty header is skipped. */
  function ClientIp(forwarded: Option<string>, realIp: Option<string>): (r: string)
    ensures r != []
    ensures forwarded.Some? && forwarded.value != "" ==> r == forwarded.value
    ensures (forwarded.None? || forwarded.value == "") && realIp.Some? && realIp.value != "" ==> r == realIp.value
    ensures (forwarded.None? || forwarded.value == "") && (realIp.None? || realIp.value == "") ==> r == "unknown"
  {
    if forwarded.Some? && forwarded.value != "" then forwarded.value
    else if realIp.Some? && realIp.value != "" then realIp.value
    else "unknown"
  }

  /** The limiter key of project creation. */
  function PostKey(ip: string): string
  {
    "projects:" + ip
  }

  /** The limiter key of project listing. */
  function ListKey(ip: string): string
  {
    "projects-list:" + ip
  }

  /** Creation and listing never share a budget, and each key names one client. */
  lemma RouteKeysSeparate(a: string, b: string)
    ensures PostKey(a) != ListKey(b)
    ensures PostKey(a) == PostKey(b) ==> a == b
    ensures ListKey(a) == ListKey(b) ==> a == b
  {
    assert PostKey(a)[8] == ':' && ListKey(b)[8] == '-';
    if PostKey(a) == PostKey(b) {
      assert a == PostKey(a)[9..] && b == PostKey(b)[9..];
    }
    if ListKey(a) == ListKey(b) {
      assert a == ListKey(a)[14..] && b == ListKey(b)[14..];
    }
  }

  /** `Math.floor(rateLimitRequests / 2)`. */
  function PostQuota(requests: int): (q: int)
    ensures 2 * q <= requests < 2 * q + 2
  {
    requests / 2
  }

  /** `rateLimitRequests * 2`. */
  function ListQuota(requests: int): (q: int)
    ensures q - requests == requests
  {
    requests * 2
  }

  /** For a non-negative budget, creation gets at most the budget and listing at least it. */
  lemma QuotasOrdered(requests: int)
    requires requests >= 0
    ensures 0 <= PostQuota(requests) <= requests <= ListQuota(requests)
  {
  }

  /** `body.description?.trim()` for a body that passed validation: `None` is `undefined`. */
  function TrimmedDescription(description: Field): (r: Option<string>)
    ensures r.Some? <==> description.Str?
    ensures r.Some? ==> IsTrimmed(r.value) && (r.value == [] <==> AllSpace(description.text))
  {
    match description
    case Str(s) => Some(Trim(s))
    case _ => None
  }

  /** The security settings the handlers read. */
  datatype Limits = Limits(rateLimitRequests: int, rateLimitWindowMs: int)

  datatype Response = Created(project: Project) | Listed(projects: seq<Project>) | Failure(message: string, status: int)

  const RateLimited := Failure("Rate limit exceeded. Please try again later.", 429)

  /** The response for a thrown value, through `handleApiError`. */
  function Caught(error: Thrown): Response
  {
    var e := HandleApiError(error);
    Failure(e.message, e.status)
  }

  /**
   * `POST`. `body` is what `request.json()` yields or throws; `typeError`
   * is the message of the `TypeError` that `?.trim()` raises on a falsy
   * non-null, non-string description.
   */
  method Post(limiter: RateLimiter, store: Storage.InMemoryStorage, limits: Limits,
              forwarded: Option<string>, realIp: Option<string>, body: Result<Body, Thrown>,
              id: string, now: Time, cleanup: bool, typeError: string) returns (r: Response)
    requires store.Valid()
    modifies limiter, store
    ensures store.Valid()
    ensures var key := PostKey(ClientIp(forwarded, realIp));
      var allowed := Admit(Lookup(old(limiter.requests), key), PostQuota(limits.rateLimitRequests),
                           limits.rateLimitWindowMs, now).0;
      (!allowed ==> r == RateLimited) &&
      (allowed && body.Err? ==> r == Caught(body.error)) &&
      (allowed && body.Ok? && !ValidateProjectData(body.value).isValid ==>
        r == Failure(Join(ValidateProjectData(body.value).errors, ", "), 400)) &&
      (allowed && body.Ok? && ValidateProjectData(body.value).isValid && body.value.description == Other(false) ==>
        r == Caught(PlainError(typeError))) &&
      (allowed && body.Ok? && ValidateProjectData(body.value).isValid && body.value.description != Other(false) ==>
        r == Created(Project(id, Trim(body.value.name.text), TrimmedDescription(body.value.description), now, now)) &&
        store.projects == old(store.projects)[id := r.project])
    ensures var key := PostKey(ClientIp(forwarded, realIp));
      var admitted := Admit(Lookup(old(limiter.requests), key), PostQuota(limits.rateLimitRequests),
                            limits.rateLimitWindowMs, now);
      (!admitted.0 ==> limiter.requests == old(limiter.requests)) &&
      (admitted.0 && !cleanup ==> limiter.requests == old(limiter.requests)[key := admitted.1]) &&
      (admitted.0 && cleanup ==>
        limiter.requests == Prune(old(limiter.requests)[key := admitted.1], now - limits.rateLimitWindowMs))
    ensures r.Created? ==>
      store.order == (if id in old(store.order) then old(store.order) else old(store.order) + [id]) &&
      store.files == old(store.files)[id := []] && store.versions == old(store.versions)[id := []]
    ensures store.logs == old(store.logs)
    ensures !r.Created? ==>
      store.projects == old(store.projects) && store.order == old(store.order) &&
      store.files == old(store.files) && store.versions == old(store.versions)
  {
    var key := PostKey(ClientIp(forwarded, realIp));
    var allowed := limiter.IsAllowed(key, PostQuota(limits.rateLimitRequests), limits.rateLimitWindowMs, now, cleanup);
    if !allowed {
      return RateLimited;
    }
    if body.Err? {
      return Caught(body.error);
    }
    var validation := ValidateProjectData(body.value);
    if !validation.isValid {
      return Failure(Join(validation.errors, ", "), 400);
    }
    if body.value.description == Other(false) {
      return Caught(PlainError(typeError));
    }
    var data := Storage.ProjectData(Trim(body.value.name.text), TrimmedDescription(body.value.description));
    var project := store.CreateProject(id, data, now);
    return Created(project);
  }

  /** `GET`: every project, in creation order, within the listing budget. */
  method Get(limiter: RateLimiter, store: Storage.InMemoryStorage, limits: Limits,
             forwarded: Option<string>, realIp: Option<string>, now: Time, cleanup: bool) returns (r: Response)
    requires store.Valid()
    modifies limiter
    ensures var key := ListKey(ClientIp(forwarded, realIp));
      var allowed := Admit(Lookup(old(limiter.requests), key), ListQuota(limits.rateLimitRequests),
                           limits.rateLimitWindowMs, now).0;
      (!allowed ==> r == RateLimited) &&
      (allowed ==>
        r.Listed? && |r.projects| == |store.order| &&
        forall i :: 0 <= i < |store.order| ==> r.projects[i] == store.projects[store.order[i]])
    ensures var key := ListKey(ClientIp(forwarded, realIp));
      var admitted := Admit(Lookup(old(limiter.requests), key), ListQuota(limits.rateLimitRequests),
                            limits.rateLimitWindowMs, now);
      (!admitted.0 ==> limiter.requests == old(limiter.requests)) &&
      (admitted.0 && !cleanup ==> limiter.requests == old(limiter.requests)[key := admitted.1]) &&
      (admitted.0 && cleanup ==>
        limiter.requests == Prune(old(limiter.requests)[key := admitted.1], now - limits.rateLimitWindowMs))
  {
    var key := ListKey(ClientIp(forwarded, realIp));
    var allowed := limiter.IsAllowed(key, ListQuota(limits.rateLimitRequests), limits.rateLimitWindowMs, now, cleanup);
    if !allowed {
      return RateLimited;
    }
    var projects := store.ListProjects();
    return Listed(projects);
  }
}
