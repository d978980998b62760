/** The `GET /scrape/:username` handler: it validates and cleans the username, runs the
    scraper with its default number of attempts, and maps the outcome to an HTTP status
    and a JSON body. */
module Routes {
  import opened Wrappers
  import opened Js
  import opened Proxy
  import opened Extraction
  import opened Scraper

  /** `scrapeInstagramProfile`'s default `maxRetries`, used by the route. */
  const DefaultMaxRetries: int := 3

  const RequiredMessage: string := "Invalid username. Username is required."
  const EmptyMessage: string := "Invalid username. Username cannot be empty."
  const InternalErrorMessage: string := "Internal server error"

  /** A JSON response body: the scraped record, or an error object whose `message` is
      left out when it is `undefined`. */
  datatype Body = Record(record: ScrapeRecord) | ErrorBody(error: string, message: Option<string>)

  datatype HttpResponse = HttpResponse(status: int, body: Body)

  /** `username.replace(/^@/, '')`: one `@` at the very start is removed. */
  function StripAt(s: string): (r: string)
    ensures s != [] && s[0] == '@' ==> s == "@" + r
    ensures s == [] || s[0] != '@' ==> r == s
  {
    if s != [] && s[0] == '@' then s[1..] else s
  }

  /** The cleaned username: one leading `@` removed, then trimmed. It carries no
      surrounding whitespace, and it is empty exactly when what is left after removing the
      `@` is blank. */
  function CleanUsername(s: string): (c: string)
    ensures c != "" ==> !IsWhitespace(c[0]) && !IsWhitespace(c[|c| - 1])
    ensures c == "" <==> AllWhitespace(StripAt(s))
  {
    var t := StripAt(s);
    TrimEmpty(t);
    if Trim(t) == "" then Trim(t) else TrimEnds(t); Trim(t)
  }

  /** `!username || typeof username !== 'string' || username.trim().length === 0` fails:
      the check passes exactly for a string that is not all whitespace (the empty string
      included). */
  function HasUsername(username: JsValue): (ok: bool)
    ensures ok <==> username.Str? && !AllWhitespace(username.s)
  {
    if username.Str? then TrimEmpty(username.s); Truthy(username) && Trim(username.s) != ""
    else false
  }

  /** The response for an error the scraper threw. */
  function ErrorResponse(e: Error, development: bool): (r: HttpResponse)
    ensures e.message == UserNotFound ==> r == HttpResponse(404, ErrorBody(UserNotFound, None))
    ensures e.message != UserNotFound ==>
      r == HttpResponse(500, ErrorBody(InternalErrorMessage, if development then Some(e.message) else None))
  {
    if e.message == UserNotFound then HttpResponse(404, ErrorBody("User not found", None))
    else HttpResponse(500, ErrorBody("Internal server error", if development then Some(e.message) else None))
  }

  /** The handler, given NODE_ENV and the scraper as a function of the cleaned username.
      The status is 400, 200, 404 or 500: 400 exactly when the username fails validation
      or cleans to nothing, 200 exactly when the scrape of the cleaned username succeeds. */
  function Respond(username: JsValue, nodeEnv: Option<string>, scrape: string -> Result<ScrapeRecord, Error>): (r: HttpResponse)
    ensures r.status in {200, 400, 404, 500}
    ensures r.status == 400 <==> !HasUsername(username) || CleanUsername(username.s) == ""
    ensures r.status == 200 <==>
      HasUsername(username) && CleanUsername(username.s) != "" && scrape(CleanUsername(username.s)).Success?
  {
    if !HasUsername(username) then HttpResponse(400, ErrorBody(RequiredMessage, None))
    else
      var clean := CleanUsername(username.s);
      if clean == "" then HttpResponse(400, ErrorBody(EmptyMessage, None))
      else
        match scrape(clean)
        case Success(record) => HttpResponse(200, Record(record))
        case Failure(e) => ErrorResponse(e, nodeEnv == Some("development"))
  }

  /** The route with the scraper of this model: `scrapeInstagramProfile(cleanUsername)`
      with the default three attempts, attempt `k` seeing `script(k)`. */
  function HandleScrape(username: JsValue, nodeEnv: Option<string>, proxyEnv: ProxyEnv, script: nat -> AttemptEnv): HttpResponse {
    Respond(username, nodeEnv, (u: string) => Run(u, DefaultMaxRetries, proxyEnv, script).result)
  }

  // ---------------------------------------------------------------------------
  // Properties

  /** A missing, non-string or blank username is a 400 before any scrape: the response
      does not depend on the scraper at all. */
  lemma MissingUsernameRejected(username: JsValue, nodeEnv: Option<string>,
                                scrape: string -> Result<ScrapeRecord, Error>, other: string -> Result<ScrapeRecord, Error>)
    requires !HasUsername(username)
    ensures Respond(username, nodeEnv, scrape) == HttpResponse(400, ErrorBody(RequiredMessage, None))
    ensures Respond(username, nodeEnv, scrape) == Respond(username, nodeEnv, other)
  {
  }

  /** A username that is empty once cleaned is a 400 before any scrape. */
  lemma EmptyUsernameRejected(username: JsValue, nodeEnv: Option<string>,
                              scrape: string -> Result<ScrapeRecord, Error>, other: string -> Result<ScrapeRecord, Error>)
    requires HasUsername(username) && CleanUsername(username.s) == ""
    ensures Respond(username, nodeEnv, scrape) == HttpResponse(400, ErrorBody(EmptyMessage, None))
    ensures Respond(username, nodeEnv, scrape) == Respond(username, nodeEnv, other)
  {
  }

  /** A valid username is scraped exactly under its cleaned form, and the response follows
      the outcome: the record unchanged with 200, 404 for 'User not found', 500 otherwise
      with the message only in development. */
  lemma ScrapeOutcome(username: JsValue, nodeEnv: Option<string>, scrape: string -> Result<ScrapeRecord, Error>)
    requires HasUsername(username) && CleanUsername(username.s) != ""
    ensures var r := Respond(username, nodeEnv, scrape);
      var outcome := scrape(CleanUsername(username.s));
      && (outcome.Success? ==> r == HttpResponse(200, Record(outcome.value)))
      && (outcome.Failure? && outcome.error.message == UserNotFound ==> r == HttpResponse(404, ErrorBody(UserNotFound, None)))
      && (outcome.Failure? && outcome.error.message != UserNotFound ==>
            && r.status == 500 && r.body.error == InternalErrorMessage
            && (r.body.message.Some? <==> nodeEnv == Some("development"))
            && (r.body.message.Some? ==> r.body.message.value == outcome.error.message))
  {
  }

  /** The cleaned username is a piece of the input after its one leading `@`, with only
      whitespace around it. */
  lemma CleanUsernameSlice(s: string) returns (k: nat)
    ensures var t := StripAt(s);
      var c := CleanUsername(s);
      && k + |c| <= |t| && c == t[k..k + |c|]
      && AllWhitespace(t[..k]) && AllWhitespace(t[k + |c|..])
  {
    k := TrimSlice(StripAt(s));
  }

  /** `"@Foo "` is scraped as `"Foo"`. */
  lemma ExampleAtAndSpace()
    ensures CleanUsername("@Foo ") == "Foo"
  {
    assert StripAt("@Foo ") == "Foo ";
    assert TrimStart("Foo ") == "Foo ";
    assert "Foo "[..3] == "Foo";
    assert TrimEnd("Foo") == "Foo";
  }

  /** Only one `@` is removed: `"@@foo"` is scraped as `"@foo"`. */
  lemma ExampleDoubleAt()
    ensures CleanUsername("@@foo") == "@foo"
  {
    assert StripAt("@@foo") == "@foo";
    assert TrimStart("@foo") == "@foo";
    assert TrimEnd("@foo") == "@foo";
  }

  /** The `@` is removed before trimming, so one after leading blanks stays:
      `" @foo"` is scraped as `"@foo"`. */
  lemma ExampleBlankThenAt()
    ensures CleanUsername(" @foo") == "@foo"
  {
    assert StripAt(" @foo") == " @foo";
    assert " @foo"[1..] == "@foo";
    assert TrimStart("@foo") == "@foo";
    assert TrimEnd("@foo") == "@foo";
  }

  /** `"@"` and `"@  "` are rejected as empty, without a scrape. */
  lemma ExampleOnlyAt(scrape: string -> Result<ScrapeRecord, Error>, nodeEnv: Option<string>)
    ensures Respond(Str("@"), nodeEnv, scrape) == HttpResponse(400, ErrorBody(EmptyMessage, None))
    ensures Respond(Str("@  "), nodeEnv, scrape) == HttpResponse(400, ErrorBody(EmptyMessage, None))
  {
    assert StripAt("@") == "";
    assert StripAt("@  ") == "  ";
    assert Trim("@") != "" by {
      assert TrimStart("@") == "@";
      assert TrimEnd("@") == "@";
    }
    assert Trim("@  ") != "" by {
      assert TrimStart("@  ") == "@  ";
      TrimEmpty("@  ");
      assert !AllWhitespace("@  ") by { assert !IsWhitespace("@  "[0]); }
    }
    TrimEmpty("  ");
    assert AllWhitespace("  ") by { assert forall i :: 0 <= i < 2 ==> "  "[i] == ' '; }
  }

  /** From request to response with the scraper of this model: a username that survives
      validation ends in the outcome of `Run` for its cleaned form. */
  lemma EndToEnd(username: JsValue, nodeEnv: Option<string>, proxyEnv: ProxyEnv, script: nat -> AttemptEnv)
    requires HasUsername(username) && CleanUsername(username.s) != ""
    ensures var run := Run(CleanUsername(username.s), DefaultMaxRetries, proxyEnv, script);
      var r := HandleScrape(username, nodeEnv, proxyEnv, script);
      && 1 <= run.attempts <= DefaultMaxRetries
      && (run.result.Success? ==> r == HttpResponse(200, Record(run.result.value)))
      && (run.result.Failure? ==> r == ErrorResponse(run.result.error, nodeEnv == Some("development")))
  {
  }

  /** Incomplete proxy settings answer every valid request with 500 after three attempts. */
  lemma ProxyErrorIs500(username: JsValue, nodeEnv: Option<string>, proxyEnv: ProxyEnv, script: nat -> AttemptEnv)
    requires HasUsername(username) && CleanUsername(username.s) != ""
    requires GetProxyConfig(proxyEnv).Failure?
    ensures HandleScrape(username, nodeEnv, proxyEnv, script).status == 500
  {
    ProxyErrorRetried(CleanUsername(username.s), DefaultMaxRetries, proxyEnv, script);
  }
}
