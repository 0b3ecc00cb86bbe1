/** The application's fetch wrapper: URL prefixing, the Authorization and
    Content-Type header decisions, and the debug log of the last 20 failed
    requests. `fetch` itself is an outcome given as a parameter. */
module Api {
  import opened Wrappers
  import opened Text

  /** The test `/^https?:\/\//i`. */
  predicate IsAbsoluteUrl(input: string) {
    StartsWith(LowerAsciiString(input), "http://") || StartsWith(LowerAsciiString(input), "https://")
  }

  /** The request URL: an absolute http(s) URL is used unchanged; any other
      input is appended to `base` with exactly one `/` added when it does not
      start with one. */
  function BuildUrl(base: string, input: string): (url: string)
    ensures IsAbsoluteUrl(input) ==> url == input
    ensures !IsAbsoluteUrl(input) && StartsWith(input, "/") ==> url == base + input
    ensures !IsAbsoluteUrl(input) && !StartsWith(input, "/") ==> url == base + "/" + input
    ensures !IsAbsoluteUrl(input) ==> StartsWith(url, base) && |url| > |base| && url[|base|] == '/'
  {
    if IsAbsoluteUrl(input) then input
    else
      var sep := if StartsWith(input, "/") then "" else "/";
      assert (base + sep + input)[..|base|] == base;
      base + sep + input
  }

  lemma UpperCaseSchemeIsAbsolute()
    ensures IsAbsoluteUrl("HTTP://")
    ensures !IsAbsoluteUrl("/http://")
  {
    var up := LowerAsciiString("HTTP://");
    assert up[..7] == "http://";
    var lead := LowerAsciiString("/http://");
    assert lead[0] == '/';
  }

  /** A request body: absent, a string (falsy when empty), a `FormData`, or
      any other object (always truthy). */
  datatype Body = NoBody | StringBody(s: string) | FormDataBody | OtherBody

  predicate TruthyBody(b: Body) {
    !b.NoBody? && b != StringBody("")
  }

  const AuthorizationHeader := "authorization"
  const ContentTypeHeader := "content-type"

  /** The two header decisions of `apiFetch`: existing headers are kept as
      they are; `Authorization: Bearer <token>` is added only when auth is not
      skipped, a token is stored and none was given; `Content-Type:
      application/json` only when none was given and the body is present and
      not a `FormData`. Nothing else is added. Header names are lower-case, as
      a `Headers` object keeps them. */
  ghost predicate HeadersDecided(given: map<string, string>, skipAuth: bool, storedToken: Option<string>, body: Body,
                                 headers: map<string, string>)
  {
    && (forall k :: k in given ==> k in headers && headers[k] == given[k])
    && headers.Keys <= given.Keys + {AuthorizationHeader, ContentTypeHeader}
    && (AuthorizationHeader !in given ==>
          (AuthorizationHeader in headers <==> !skipAuth && Truthy(storedToken)))
    && (AuthorizationHeader !in given && AuthorizationHeader in headers ==>
          headers[AuthorizationHeader] == "Bearer " + storedToken.value)
    && (ContentTypeHeader !in given ==>
          (ContentTypeHeader in headers <==> TruthyBody(body) && !body.FormDataBody?))
    && (ContentTypeHeader !in given && ContentTypeHeader in headers ==>
          headers[ContentTypeHeader] == "application/json")
  }

  /** Builds the request headers; `storedToken` is the `google_credential`
      entry of localStorage. */
  method PrepareHeaders(given: map<string, string>, skipAuth: bool, storedToken: Option<string>, body: Body)
    returns (headers: map<string, string>)
    ensures HeadersDecided(given, skipAuth, storedToken, body, headers)
  {
    headers := given;
    if !skipAuth {
      var token := storedToken;
      if Truthy(token) && AuthorizationHeader !in headers {
        headers := headers[AuthorizationHeader := "Bearer " + token.value];
      }
    }
    if ContentTypeHeader !in headers && TruthyBody(body) && !body.FormDataBody? {
      headers := headers[ContentTypeHeader := "application/json"];
    }
  }

  /** The response of a completed `fetch`. `text` is `None` when reading the
      body failed. */
  datatype Response = Response(ok: bool, status: int, statusText: string, text: Option<string>)

  /** What the awaited `fetch` did: resolved with a response, or threw. */
  datatype FetchOutcome = Resolved(response: Response) | Threw(message: string)

  /** One entry of the debug log. */
  datatype ApiError = ApiError(url: string, status: int, statusText: string, text: Option<string>, timestamp: int)

  /** Number of entries the debug log keeps. */
  const MaxErrors: nat := 20

  /** The last `n` elements of `s` (all of them when there are fewer). */
  function LastN<T>(s: seq<T>, n: nat): (r: seq<T>)
    ensures |r| == if |s| <= n then |s| else n
    ensures r == s[|s| - |r|..]
  {
    if |s| <= n then s else s[|s| - n..]
  }

  /** Trimming after every append keeps exactly the last `n` entries of the
      whole history: the buffer never loses a recent entry early. */
  lemma LastNAppend<T>(s: seq<T>, x: T, n: nat)
    requires n > 0
    ensures LastN(LastN(s, n) + [x], n) == LastN(s + [x], n)
  {
    var t := LastN(s, n);
    if |s| > n {
      assert |t + [x]| == n + 1;
      assert (t + [x])[1..] == s[|s| - n + 1..] + [x];
      assert (s + [x])[|s| + 1 - n..] == s[|s| - n + 1..] + [x];
    } else {
      assert t == s;
    }
  }

  /** After an append the new item is last, and the entries before it are the
      most recent old ones, in their old order. */
  lemma LastNAppendShape<T>(s: seq<T>, x: T, n: nat)
    requires n > 0
    ensures var r := LastN(s + [x], n);
      && 1 <= |r| <= n && r[|r| - 1] == x
      && r[..|r| - 1] == s[|s| - (|r| - 1)..]
  {
    var r := LastN(s + [x], n);
    assert r == (s + [x])[|s| + 1 - |r|..];
    assert r[..|r| - 1] == s[|s| + 1 - |r|..];
  }

  /** `window.__API_ERRORS__`: `None` until the first error is recorded. The
      ghost history holds every error ever recorded. */
  class ApiErrorLog {
    var recorded: Option<seq<ApiError>>
    ghost var history: seq<ApiError>

    ghost predicate Valid()
      reads this
    {
      (recorded.None? ==> history == []) && Entries() == LastN(history, MaxErrors)
    }

    function Entries(): seq<ApiError>
      reads this
    {
      recorded.GetOr([])
    }

    constructor ()
      ensures Valid() && recorded.None? && history == []
    {
      recorded := None;
      history := [];
    }

    /** `addApiError`: append the entry stamped with `now` and drop the oldest
        entries beyond 20. */
    method AddApiError(url: string, status: int, statusText: string, text: Option<string>, now: int)
      requires Valid()
      modifies this
      ensures Valid()
      ensures history == old(history) + [ApiError(url, status, statusText, text, now)]
      ensures Entries() == LastN(old(Entries()) + [ApiError(url, status, statusText, text, now)], MaxErrors)
      ensures |Entries()| <= MaxErrors
    {
      var item := ApiError(url, status, statusText, text, now);
      var g := recorded.GetOr([]);
      g := g + [item];
      if |g| > MaxErrors {
        g := g[|g| - MaxErrors..];
      }
      recorded := Some(g);
      LastNAppend(history, item, MaxErrors);
      history := history + [item];
    }

    /** `getApiErrors`: the recorded entries, or an empty list when nothing
        was ever recorded. */
    method GetApiErrors() returns (errors: seq<ApiError>)
      requires Valid()
      ensures errors == LastN(history, MaxErrors)
      ensures recorded.None? ==> errors == []
    {
      errors := if recorded.Some? then recorded.value else [];
    }
  }

  /** The request `apiFetch` hands to `fetch`. */
  datatype Request = Request(url: string, headers: map<string, string>)

  /** How `apiFetch` ends: the response is returned (also when it is not ok),
      or the fetch error is rethrown. */
  datatype FetchResult = Returned(response: Response) | Rethrown(message: string)

  /** `apiFetch`. `base` is `VITE_API_BASE_URL` (or empty), `storedToken` the
      stored credential, `outcome` what `fetch` did with the request and `now`
      the clock read when an error is recorded. */
  method ApiFetch(log: ApiErrorLog, input: string, givenHeaders: map<string, string>, skipAuth: bool, body: Body,
                  base: string, storedToken: Option<string>, outcome: FetchOutcome, now: int)
    returns (request: Request, result: FetchResult)
    requires log.Valid()
    modifies log
    ensures log.Valid()
    ensures request.url == BuildUrl(base, input)
    ensures HeadersDecided(givenHeaders, skipAuth, storedToken, body, request.headers)
    ensures outcome.Resolved? ==> result == Returned(outcome.response)
    ensures outcome.Resolved? && outcome.response.ok ==> log.history == old(log.history)
    ensures outcome.Resolved? && !outcome.response.ok ==>
      log.history == old(log.history) + [ApiError(request.url, outcome.response.status,
        outcome.response.statusText, Some(outcome.response.text.GetOr("")), now)]
    ensures outcome.Threw? ==> result == Rethrown(outcome.message)
    ensures outcome.Threw? ==> log.history == old(log.history) + [ApiError(request.url, 0, outcome.message, Some(""), now)]
    ensures outcome.Resolved? && outcome.response.ok ==> log.recorded == old(log.recorded)
  {
    var url := BuildUrl(base, input);
    var headers := PrepareHeaders(givenHeaders, skipAuth, storedToken, body);
    request := Request(url, headers);
    match outcome {
      case Resolved(r) =>
        if !r.ok {
          var errText := r.text.GetOr("");
          log.AddApiError(url, r.status, r.statusText, Some(errText), now);
        }
        result := Returned(r);
      case Threw(message) =>
        log.AddApiError(url, 0, message, Some(""), now);
        result := Rethrown(message);
    }
  }
}
