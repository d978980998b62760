/** `scrapeInstagramProfile` and the pieces of the scraper around it: the user-agent pool,
    the request filter, the not-found checks, one attempt of the `try` block, and the retry
    loop with its browser clean-up. The browser is an object whose `close` is counted; what
    the browser and the page report arrives as an `AttemptEnv` per attempt. */
module Scraper {
  import opened Wrappers
  import opened Js
  import opened Proxy
  import opened Extraction

  // ---------------------------------------------------------------------------
  // User agents

  /** The rotating pool, in source order. The last entry repeats the first. */
  const UserAgents: seq<string> := [
    "Mozilla/5.0 (Windows NT 10.0; Win64; x64) AppleWebKit/537.36 (KHTML, like Gecko) Chrome/120.0.0.0 Safari/537.36",
    "Mozilla/5.0 (Windows NT 10.0; Win64; x64) AppleWebKit/537.36 (KHTML, like Gecko) Chrome/119.0.0.0 Safari/537.36",
    "Mozilla/5.0 (Windows NT 10.0; Win64; x64) AppleWebKit/537.36 (KHTML, like Gecko) Chrome/118.0.0.0 Safari/537.36",
    "Mozilla/5.0 (Windows NT 11.0; Win64; x64) AppleWebKit/537.36 (KHTML, like Gecko) Chrome/120.0.0.0 Safari/537.36",
    "Mozilla/5.0 (Macintosh; Intel Mac OS X 10_15_7) AppleWebKit/537.36 (KHTML, like Gecko) Chrome/120.0.0.0 Safari/537.36",
    "Mozilla/5.0 (Macintosh; Intel Mac OS X 10_15_7) AppleWebKit/537.36 (KHTML, like Gecko) Chrome/119.0.0.0 Safari/537.36",
    "Mozilla/5.0 (Macintosh; Intel Mac OS X 13_6_1) AppleWebKit/537.36 (KHTML, like Gecko) Chrome/120.0.0.0 Safari/537.36",
    "Mozilla/5.0 (Macintosh; Intel Mac OS X 10_15_7) AppleWebKit/537.36 (KHTML, like Gecko) Chrome/118.0.0.0 Safari/537.36",
    "Mozilla/5.0 (X11; Linux x86_64) AppleWebKit/537.36 (KHTML, like Gecko) Chrome/120.0.0.0 Safari/537.36",
    "Mozilla/5.0 (X11; Ubuntu; Linux x86_64) AppleWebKit/537.36 (KHTML, like Gecko) Chrome/120.0.0.0 Safari/537.36",
    "Mozilla/5.0 (X11; Linux x86_64) AppleWebKit/537.36 (KHTML, like Gecko) Chrome/119.0.0.0 Safari/537.36",
    "Mozilla/5.0 (Macintosh; Intel Mac OS X 10_15_7) AppleWebKit/605.1.15 (KHTML, like Gecko) Version/17.1 Safari/605.1.15",
    "Mozilla/5.0 (Macintosh; Intel Mac OS X 10_15_7) AppleWebKit/605.1.15 (KHTML, like Gecko) Version/17.0 Safari/605.1.15",
    "Mozilla/5.0 (Macintosh; Intel Mac OS X 13_6_1) AppleWebKit/605.1.15 (KHTML, like Gecko) Version/17.1 Safari/605.1.15",
    "Mozilla/5.0 (Macintosh; Intel Mac OS X 10_15_7) AppleWebKit/605.1.15 (KHTML, like Gecko) Version/16.6 Safari/605.1.15",
    "Mozilla/5.0 (Windows NT 10.0; Win64; x64; rv:121.0) Gecko/20100101 Firefox/121.0",
    "Mozilla/5.0 (Windows NT 10.0; Win64; x64; rv:120.0) Gecko/20100101 Firefox/120.0",
    "Mozilla/5.0 (Windows NT 11.0; Win64; x64; rv:121.0) Gecko/20100101 Firefox/121.0",
    "Mozilla/5.0 (Macintosh; Intel Mac OS X 10.15; rv:121.0) Gecko/20100101 Firefox/121.0",
    "Mozilla/5.0 (Macintosh; Intel Mac OS X 10.15; rv:120.0) Gecko/20100101 Firefox/120.0",
    "Mozilla/5.0 (X11; Linux x86_64; rv:121.0) Gecko/20100101 Firefox/121.0",
    "Mozilla/5.0 (X11; Ubuntu; Linux x86_64; rv:121.0) Gecko/20100101 Firefox/121.0",
    "Mozilla/5.0 (Windows NT 10.0; Win64; x64) AppleWebKit/537.36 (KHTML, like Gecko) Chrome/120.0.0.0 Safari/537.36 Edg/120.0.0.0",
    "Mozilla/5.0 (Windows NT 10.0; Win64; x64) AppleWebKit/537.36 (KHTML, like Gecko) Chrome/119.0.0.0 Safari/537.36 Edg/119.0.0.0",
    "Mozilla/5.0 (Windows NT 11.0; Win64; x64) AppleWebKit/537.36 (KHTML, like Gecko) Chrome/120.0.0.0 Safari/537.36 Edg/120.0.0.0",
    "Mozilla/5.0 (Macintosh; Intel Mac OS X 10_15_7) AppleWebKit/537.36 (KHTML, like Gecko) Chrome/120.0.0.0 Safari/537.36 Edg/120.0.0.0",
    "Mozilla/5.0 (Macintosh; Intel Mac OS X 10_15_7) AppleWebKit/537.36 (KHTML, like Gecko) Chrome/119.0.0.0 Safari/537.36 Edg/119.0.0.0",
    "Mozilla/5.0 (Windows NT 10.0; Win64; x64) AppleWebKit/537.36 (KHTML, like Gecko) Chrome/120.0.0.0 Safari/537.36 OPR/106.0.0.0",
    "Mozilla/5.0 (Windows NT 10.0; Win64; x64) AppleWebKit/537.36 (KHTML, like Gecko) Chrome/119.0.0.0 Safari/537.36 OPR/105.0.0.0",
    "Mozilla/5.0 (Windows NT 10.0; Win64; x64) AppleWebKit/537.36 (KHTML, like Gecko) Chrome/120.0.0.0 Safari/537.36"
  ]

  /** `USER_AGENTS.length`. */
  const AgentCount: nat := 30

  lemma AgentCountIsPoolSize()
    ensures |UserAgents| == AgentCount
  {
  }

  /** A value of `Math.random()`. */
  type Draw = r: real | 0.0 <= r < 1.0

  /** `Math.floor(Math.random() * USER_AGENTS.length)`: an index into the pool. */
  function AgentIndex(draw: Draw): (i: nat)
    ensures i < AgentCount
  {
    (draw * AgentCount as real).Floor
  }

  /** `getRandomUserAgent`: an entry of the pool. */
  function GetRandomUserAgent(draw: Draw): (ua: string)
    ensures ua in UserAgents
  {
    AgentCountIsPoolSize();
    UserAgents[AgentIndex(draw)]
  }

  /** The pick is uniform: index `i` is chosen exactly by the draws in [i/30, (i+1)/30). */
  lemma AgentIndexUniform(draw: Draw, i: nat)
    requires i < AgentCount
    ensures AgentIndex(draw) == i <==>
      i as real / AgentCount as real <= draw < (i + 1) as real / AgentCount as real
  {
    var n := AgentCount as real;
    var x := draw * n;
    assert i as real <= x <==> i as real / n <= draw;
    assert x < (i + 1) as real <==> draw < (i + 1) as real / n;
  }

  /** Every entry can be drawn. */
  lemma EveryAgentReachable(i: nat)
    requires i < AgentCount
    ensures var draw: Draw := i as real / AgentCount as real; AgentIndex(draw) == i
  {
    var draw: Draw := i as real / AgentCount as real;
    AgentIndexUniform(draw, i);
  }

  /** The first agent appears twice, so it is drawn twice as often as any other. */
  lemma RepeatedAgent()
    ensures UserAgents[0] == UserAgents[|UserAgents| - 1]
    ensures forall i :: 0 < i < |UserAgents| - 1 ==> UserAgents[i] != UserAgents[0]
  {
  }

  // ---------------------------------------------------------------------------
  // The request filter

  datatype RequestAction = Abort | Continue

  /** The resource types that are blocked. */
  const BlockedTypes: seq<string> := ["image", "stylesheet", "font", "media"]

  /** The interception handler: block images, stylesheets, fonts and media. */
  function FilterRequest(resourceType: string): (a: RequestAction)
    ensures a == Abort <==>
      resourceType == "image" || resourceType == "stylesheet" || resourceType == "font" || resourceType == "media"
  {
    if resourceType in BlockedTypes then Abort else Continue
  }

  // ---------------------------------------------------------------------------
  // Not found

  const UserNotFound: string := "User not found"
  const RetriesExhausted: string := "Scraping failed after all retries"

  /** What `page.goto` resolves to. */
  datatype Navigation = NoResponse | Response(status: int)

  /** `!response || response.status() === 404`: no response, or a 404. Any other status,
      including other errors, is not a missing profile. */
  function MissingProfile(nav: Navigation): (missing: bool)
    ensures missing <==> nav == NoResponse || nav == Response(404)
  {
    nav.NoResponse? || nav.status == 404
  }

  /** The title or the content shows Instagram's page-not-found text. */
  function NotFoundPage(title: string, content: string): (found: bool)
    ensures found <==>
      || Occurs(title, "Page Not Found")
      || Occurs(content, "Sorry, this page isn't available")
      || Occurs(content, "The link you followed may be broken")
  {
    IncludesMeaning(title, "Page Not Found");
    IncludesMeaning(content, "Sorry, this page isn't available");
    IncludesMeaning(content, "The link you followed may be broken");
    || Includes(title, "Page Not Found")
    || Includes(content, "Sorry, this page isn't available")
    || Includes(content, "The link you followed may be broken")
  }

  // ---------------------------------------------------------------------------
  // The browser

  /** A launched browser; only how often it is closed is observed. */
  class Browser {
    var closeCount: nat

    constructor ()
      ensures closeCount == 0
    {
      closeCount := 0;
    }

    method Close()
      modifies this
      ensures closeCount == old(closeCount) + 1
    {
      closeCount := closeCount + 1;
    }
  }

  // ---------------------------------------------------------------------------
  // One attempt

  /** What the browser, the page and the clock do during one attempt. An `Option<Error>`
      is the error a step throws, if it throws. */
  datatype AttemptEnv = AttemptEnv(
    uaDraw: Draw,                              // Math.random() for the user agent
    launch: Option<Error>,                     // puppeteer.launch
    setup: Option<Error>,                      // newPage, authenticate, setUserAgent, setViewport, interception
    navigation: Result<Navigation, Error>,     // page.goto
    settle: Option<Error>,                     // waitForSelector, or else waitForTimeout
    title: Result<string, Error>,              // page.title()
    content: Result<string, Error>,            // page.content()
    sharedData: JsValue,                       // parsed window._sharedData, null when absent
    jsonLd: JsValue,                           // the Person/ProfilePage JSON-LD record, null when absent
    htmlPage: Option<HtmlPage>,                // the rendered page, None when it cannot be read
    scrapedAt: string)                         // new Date().toISOString()

  /** How the `try` block of one attempt ends: its result or thrown error, the index of the
      user agent it picked, whether it launched a browser, how often it closed that browser
      itself, and whether the `browser` variable still holds it. */
  datatype AttemptEnd = AttemptEnd(result: Result<ScrapeRecord, Error>, agentIndex: Option<nat>,
                                   launched: bool, inlineCloses: nat, holdsBrowser: bool)

  /** The `try` block of an attempt, as a function of its environment. */
  function AttemptSpec(username: string, proxyEnv: ProxyEnv, env: AttemptEnv): AttemptEnd {
    AttemptFlow(GetProxyConfig(proxyEnv), env, Conclude(username, env))
  }

  /** The `try` block given what `getProxyConfig` returns and how the block ends once it
      gets past every check (`conclusion`). */
  function AttemptFlow(config: Result<ProxyConfig, Error>, env: AttemptEnv,
                       conclusion: Result<ScrapeRecord, Error>): AttemptEnd {
    if config.Failure? then AttemptEnd(Failure(config.error), None, false, 0, false)
    else
      var ua := Some(AgentIndex(env.uaDraw));
      if env.launch.Some? then AttemptEnd(Failure(env.launch.value), ua, false, 0, false)
      else if env.setup.Some? then AttemptEnd(Failure(env.setup.value), ua, true, 0, true)
      else if env.navigation.Failure? then AttemptEnd(Failure(env.navigation.error), ua, true, 0, true)
      else if MissingProfile(env.navigation.value) then AttemptEnd(Failure(Error(UserNotFound)), ua, true, 1, true)
      else if env.settle.Some? then AttemptEnd(Failure(env.settle.value), ua, true, 0, true)
      else if env.title.Failure? then AttemptEnd(Failure(env.title.error), ua, true, 0, true)
      else if env.content.Failure? then AttemptEnd(Failure(env.content.error), ua, true, 0, true)
      else if NotFoundPage(env.title.value, env.content.value) then AttemptEnd(Failure(Error(UserNotFound)), ua, true, 1, true)
      else AttemptEnd(conclusion, ua, true, 1, false)
  }

  /** The profile data the three extractors and the merge produce from the page. */
  function Gathered(env: AttemptEnv): Option<Profile> {
    Merged(ExtractFromSharedData(env.sharedData), ExtractFromJsonLd(env.jsonLd), HtmlResult(env.htmlPage))
  }

  /** The end of the `try` block, after the browser is closed: 'User not found' without
      profile data, the assembled record with it. */
  function Conclude(username: string, env: AttemptEnv): (r: Result<ScrapeRecord, Error>)
    ensures r.Failure? <==> Gathered(env).None?
    ensures r.Failure? ==> r.error == Error(UserNotFound)
    ensures r.Success? ==> r.value == Assemble(username, Gathered(env).value, env.scrapedAt)
  {
    var pd := Gathered(env);
    if pd.None? then Failure(Error(UserNotFound)) else Success(Assemble(username, pd.value, env.scrapedAt))
  }

  /** The `try` block of one attempt. `browser` is the value the loop's `browser` variable
      has when the block ends; `launched` is the browser the attempt launched, if any. */
  method TryAttempt(username: string, proxyEnv: ProxyEnv, env: AttemptEnv)
    returns (result: Result<ScrapeRecord, Error>, browser: Browser?, ghost launched: Browser?)
    ensures var end := AttemptSpec(username, proxyEnv, env);
      && result == end.result
      && (launched != null <==> end.launched)
      && (browser != null <==> end.holdsBrowser)
      && (browser != null ==> browser == launched)
    ensures launched != null ==> fresh(launched) && launched.closeCount == AttemptSpec(username, proxyEnv, env).inlineCloses
  {
    assert AttemptSpec(username, proxyEnv, env) == AttemptFlow(GetProxyConfig(proxyEnv), env, Conclude(username, env));
    browser, launched := null, null;

    // createBrowser
    var config := GetProxyConfig(proxyEnv);
    if config.Failure? {
      return Failure(config.error), browser, launched;
    }
    // getRandomUserAgent: the agent only reaches page setup, so its index stands for it
    var agentIndex := AgentIndex(env.uaDraw);
    if env.launch.Some? {
      return Failure(env.launch.value), browser, launched;
    }
    browser := new Browser();
    launched := browser;

    // createPage, then page.goto
    if env.setup.Some? {
      return Failure(env.setup.value), browser, launched;
    }
    if env.navigation.Failure? {
      return Failure(env.navigation.error), browser, launched;
    }
    if MissingProfile(env.navigation.value) {
      browser.Close();
      return Failure(Error(UserNotFound)), browser, launched;
    }

    // waiting, title and content
    if env.settle.Some? {
      return Failure(env.settle.value), browser, launched;
    }
    if env.title.Failure? {
      return Failure(env.title.error), browser, launched;
    }
    if env.content.Failure? {
      return Failure(env.content.error), browser, launched;
    }
    if NotFoundPage(env.title.value, env.content.value) {
      browser.Close();
      return Failure(Error(UserNotFound)), browser, launched;
    }

    var profileData, _, _ := GatherProfile(env.sharedData, env.jsonLd, env.htmlPage);
    assert profileData == Gathered(env);
    browser.Close();
    browser := null;

    if profileData.None? {
      return Failure(Error(UserNotFound)), browser, launched;
    }
    result := Success(Assemble(username, profileData.value, env.scrapedAt));
  }

  /** Closes of the browser an attempt launched, counting the one in the `catch` block
      that runs when the `browser` variable still holds it; 0 when nothing was launched. */
  function AttemptCloses(end: AttemptEnd): nat {
    if !end.launched then 0
    else end.inlineCloses + (if end.holdsBrowser && end.result.Failure? then 1 else 0)
  }

  /** The attempt reached a not-found check that closes the browser itself: no response or
      status 404, or the page-not-found text. */
  predicate ClosedInline(config: Result<ProxyConfig, Error>, env: AttemptEnv) {
    && config.Success? && env.launch.None? && env.setup.None? && env.navigation.Success?
    && (|| MissingProfile(env.navigation.value)
        || (&& env.settle.None? && env.title.Success? && env.content.Success?
            && NotFoundPage(env.title.value, env.content.value)))
  }

  /** The attempt got past every step and every not-found check. */
  predicate PassesChecks(config: Result<ProxyConfig, Error>, env: AttemptEnv) {
    && config.Success? && env.launch.None? && env.setup.None?
    && env.navigation.Success? && !MissingProfile(env.navigation.value)
    && env.settle.None? && env.title.Success? && env.content.Success?
    && !NotFoundPage(env.title.value, env.content.value)
  }

  /** A browser is launched exactly when the proxy settings are complete and the launch
      succeeds. Every launched browser is closed before the attempt is left: twice on the
      not-found checks after navigation, once on every other path. */
  lemma AttemptClosesBrowser(config: Result<ProxyConfig, Error>, env: AttemptEnv, conclusion: Result<ScrapeRecord, Error>)
    ensures var end := AttemptFlow(config, env, conclusion);
      end.launched <==> config.Success? && env.launch.None?
    ensures var end := AttemptFlow(config, env, conclusion);
      AttemptCloses(end) == if !end.launched then 0 else if ClosedInline(config, env) then 2 else 1
    ensures ClosedInline(config, env) ==> AttemptFlow(config, env, conclusion).result == Failure(Error(UserNotFound))
  {
  }

  /** Incomplete proxy settings make the attempt throw the configuration error before any
      browser is launched or any user agent is picked. */
  lemma ProxyErrorAttempt(username: string, proxyEnv: ProxyEnv, env: AttemptEnv)
    requires GetProxyConfig(proxyEnv).Failure?
    ensures AttemptSpec(username, proxyEnv, env) == AttemptEnd(Failure(Error(MissingConfigMessage)), None, false, 0, false)
  {
  }

  /** Only an attempt that gets past every check can succeed, and its result is then the
      conclusion; such an attempt closes its browser once and leaves `browser` cleared. */
  lemma AttemptSuccess(config: Result<ProxyConfig, Error>, env: AttemptEnv, conclusion: Result<ScrapeRecord, Error>)
    ensures AttemptFlow(config, env, conclusion).result.Success? ==> PassesChecks(config, env)
    ensures PassesChecks(config, env) ==>
      && AttemptFlow(config, env, conclusion).result == conclusion
      && AttemptCloses(AttemptFlow(config, env, conclusion)) == 1
      && !AttemptFlow(config, env, conclusion).holdsBrowser
  {
  }

  // ---------------------------------------------------------------------------
  // The retry loop

  /** How a scrape ends, and after how many attempts. */
  datatype RunEnd = RunEnd(result: Result<ScrapeRecord, Error>, attempts: nat)

  /** The error ends the loop at once instead of being retried. */
  predicate Final(result: Result<ScrapeRecord, Error>) {
    result.Success? || result.error.message == UserNotFound
  }

  /** The loop from attempt `attempt` on, where attempt `k` ends with `results(k)` and
      `lastError` is the error of the attempt before. */
  function RunFrom(maxRetries: int, results: nat -> Result<ScrapeRecord, Error>,
                   attempt: nat, lastError: Option<Error>): (r: RunEnd)
    ensures attempt > maxRetries ==> r.attempts == 0
    ensures attempt <= maxRetries ==> 1 <= r.attempts <= maxRetries - attempt + 1
    decreases maxRetries - attempt + 1
  {
    if attempt > maxRetries then RunEnd(Failure(lastError.GetOr(Error(RetriesExhausted))), 0)
    else if Final(results(attempt)) then RunEnd(results(attempt), 1)
    else
      var rest := RunFrom(maxRetries, results, attempt + 1, Some(results(attempt).error));
      RunEnd(rest.result, rest.attempts + 1)
  }

  /** The result of each attempt, attempt `k` seeing `script(k)`. */
  function AttemptResults(username: string, proxyEnv: ProxyEnv, script: nat -> AttemptEnv): nat -> Result<ScrapeRecord, Error> {
    (k: nat) => AttemptSpec(username, proxyEnv, script(k)).result
  }

  /** The whole scrape: attempts 1 to `maxRetries`. At most `maxRetries` attempts are
      made, and none when `maxRetries < 1`, in which case the generic error is thrown. */
  function Run(username: string, maxRetries: int, proxyEnv: ProxyEnv, script: nat -> AttemptEnv): (r: RunEnd)
    ensures maxRetries < 1 ==> r == RunEnd(Failure(Error(RetriesExhausted)), 0)
    ensures maxRetries >= 1 ==> 1 <= r.attempts <= maxRetries
  {
    RunFrom(maxRetries, AttemptResults(username, proxyEnv, script), 1, None)
  }

  /** How often the browser of each attempt is closed, attempt `k` seeing `script(k)`. */
  function AttemptCloseCounts(username: string, proxyEnv: ProxyEnv, script: nat -> AttemptEnv): nat -> nat {
    (k: nat) => AttemptCloses(AttemptSpec(username, proxyEnv, script(k)))
  }

  /** The close counts of attempts 1 to `n`, attempt by attempt, where attempt `k` closes
      its browser `closes(k)` times. */
  function CloseHistory(closes: nat -> nat, n: nat): (h: seq<nat>)
    ensures |h| == n
    ensures forall k :: 0 <= k < n ==> h[k] == closes(k + 1)
  {
    if n == 0 then [] else CloseHistory(closes, n - 1) + [closes(n)]
  }

  /** One pass through the loop body up to the retry decision: the `try` block, then the
      `catch` block's clean-up, which closes the browser the `browser` variable still holds
      and clears it. `closes` is how often the attempt's browser was closed in all. */
  method AttemptWithCleanup(username: string, proxyEnv: ProxyEnv, env: AttemptEnv)
    returns (result: Result<ScrapeRecord, Error>, browser: Browser?, ghost closes: nat)
    ensures result == AttemptSpec(username, proxyEnv, env).result
    ensures browser == null
    ensures closes == AttemptCloses(AttemptSpec(username, proxyEnv, env))
  {
    ghost var launched: Browser?;
    result, browser, launched := TryAttempt(username, proxyEnv, env);
    if result.Failure? && browser != null {
      browser.Close();
      browser := null;
    }
    browser := null;
    closes := if launched == null then 0 else launched.closeCount;
  }

  /** `results(k)` and `closeCounts(k)` are the result and the close count of attempt `k`,
      attempt `k` seeing `script(k)`. */
  ghost predicate DescribesAttempts(username: string, proxyEnv: ProxyEnv, script: nat -> AttemptEnv,
                                    results: nat -> Result<ScrapeRecord, Error>, closeCounts: nat -> nat) {
    forall k: nat {:trigger AttemptSpec(username, proxyEnv, script(k))} ::
      && results(k) == AttemptSpec(username, proxyEnv, script(k)).result
      && closeCounts(k) == AttemptCloses(AttemptSpec(username, proxyEnv, script(k)))
  }

  /** Attempt number `attempt` of the loop, which sees `script(attempt)`. */
  method NumberedAttempt(username: string, proxyEnv: ProxyEnv, script: nat -> AttemptEnv, attempt: nat,
                         ghost results: nat -> Result<ScrapeRecord, Error>, ghost closeCounts: nat -> nat)
    returns (result: Result<ScrapeRecord, Error>, browser: Browser?, ghost closes: nat)
    requires DescribesAttempts(username, proxyEnv, script, results, closeCounts)
    ensures result == results(attempt) && closes == closeCounts(attempt) && browser == null
  {
    result, browser, closes := AttemptWithCleanup(username, proxyEnv, script(attempt));
  }

  /** The retry loop of `scrapeInstagramProfile`, where `results(k)` and `closeCounts(k)`
      are the result and the close count of attempt `k`. `attempts` counts the attempts
      made, `delays` the waits between them, and `closes` how often each attempt's browser
      was closed. */
  method RetryLoop(username: string, maxRetries: int, proxyEnv: ProxyEnv, script: nat -> AttemptEnv,
                   ghost results: nat -> Result<ScrapeRecord, Error>, ghost closeCounts: nat -> nat)
    returns (result: Result<ScrapeRecord, Error>, attempts: nat, delays: nat, ghost closes: seq<nat>)
    requires DescribesAttempts(username, proxyEnv, script, results, closeCounts)
    ensures RunFrom(maxRetries, results, 1, None) == RunEnd(result, attempts)
    ensures delays == if attempts == 0 then 0 else attempts - 1
    ensures closes == CloseHistory(closeCounts, attempts)
  {
    var lastError: Option<Error> := None;
    var browser: Browser? := null;
    attempts, delays, closes := 0, 0, [];
    var attempt := 1;
    while attempt <= maxRetries
      invariant attempt == attempts + 1
      invariant attempt == 1 || attempt <= maxRetries + 1
      invariant delays == if attempt > maxRetries && attempts > 0 then attempts - 1 else attempts
      invariant browser == null
      invariant var rest := RunFrom(maxRetries, results, attempt, lastError);
        RunFrom(maxRetries, results, 1, None) == RunEnd(rest.result, attempts + rest.attempts)
      invariant closes == CloseHistory(closeCounts, attempts)
      decreases maxRetries - attempt
    {
      var r;
      ghost var c;
      r, browser, c := NumberedAttempt(username, proxyEnv, script, attempt, results, closeCounts);
      attempts := attempts + 1;
      closes := closes + [c];
      if r.Success? {
        return r, attempts, delays, closes;
      }
      lastError := Some(r.error);
      if r.error.message == UserNotFound {
        return r, attempts, delays, closes;
      }
      if attempt < maxRetries {
        delays := delays + 1;
      }
      attempt := attempt + 1;
    }
    result := Failure(lastError.GetOr(Error(RetriesExhausted)));
  }

  /** `scrapeInstagramProfile(username, maxRetries)`: the retry loop over the attempts of
      this model. */
  method ScrapeInstagramProfile(username: string, maxRetries: int, proxyEnv: ProxyEnv, script: nat -> AttemptEnv)
    returns (result: Result<ScrapeRecord, Error>, attempts: nat, delays: nat, ghost closes: seq<nat>)
    ensures Run(username, maxRetries, proxyEnv, script) == RunEnd(result, attempts)
    ensures delays == if attempts == 0 then 0 else attempts - 1
    ensures closes == CloseHistory(AttemptCloseCounts(username, proxyEnv, script), attempts)
  {
    result, attempts, delays, closes :=
      RetryLoop(username, maxRetries, proxyEnv, script,
                AttemptResults(username, proxyEnv, script), AttemptCloseCounts(username, proxyEnv, script));
  }

  /** From attempt `attempt` on, the loop ends with what the last attempt it makes
      produced; every attempt before that one failed with an error other than
      'User not found'; and it stops before running out of attempts only on a success or
      on 'User not found'. */
  lemma {:induction false} RunFromOutcome(maxRetries: int, results: nat -> Result<ScrapeRecord, Error>,
                                          attempt: nat, lastError: Option<Error>)
    requires attempt <= maxRetries
    ensures var run := RunFrom(maxRetries, results, attempt, lastError);
      var last := attempt + run.attempts - 1;
      && run.attempts >= 1
      && run.result == results(last)
      && (last < maxRetries ==> Final(run.result))
      && (forall k :: attempt <= k < last ==> !Final(results(k)))
    decreases maxRetries - attempt + 1
  {
    if !Final(results(attempt)) && attempt < maxRetries {
      RunFromOutcome(maxRetries, results, attempt + 1, Some(results(attempt).error));
    }
  }

  /** The scrape rethrows or returns exactly what its last attempt produced: a retry
      happens only after an error other than 'User not found', and the loop stops early
      only on a success or on 'User not found'. */
  lemma RunOutcome(maxRetries: int, results: nat -> Result<ScrapeRecord, Error>)
    requires maxRetries >= 1
    ensures var run := RunFrom(maxRetries, results, 1, None);
      && 1 <= run.attempts <= maxRetries
      && run.result == results(run.attempts)
      && (run.attempts < maxRetries ==> Final(run.result))
      && (forall k :: 1 <= k < run.attempts ==> !Final(results(k)))
  {
    RunFromOutcome(maxRetries, results, 1, None);
  }

  /** 'User not found' ends the scrape at once: the attempts before it are the only ones
      that were retried. */
  lemma {:induction false} NotFoundNotRetried(maxRetries: int, results: nat -> Result<ScrapeRecord, Error>,
                                              attempt: nat, k: nat, lastError: Option<Error>)
    requires attempt <= k <= maxRetries && results(k) == Failure(Error(UserNotFound))
    requires forall j :: attempt <= j < k ==> !Final(results(j))
    ensures RunFrom(maxRetries, results, attempt, lastError) == RunEnd(Failure(Error(UserNotFound)), k - attempt + 1)
    decreases k - attempt
  {
    if attempt < k {
      NotFoundNotRetried(maxRetries, results, attempt + 1, k, Some(results(attempt).error));
    }
  }

  /** From attempt `attempt` on, attempts that all fail with the same retryable error make
      every remaining attempt and end with that error. */
  lemma {:induction false} SameErrorFrom(maxRetries: int, results: nat -> Result<ScrapeRecord, Error>,
                                         attempt: nat, lastError: Option<Error>, e: Error)
    requires 1 <= attempt <= maxRetries && e.message != UserNotFound
    requires forall k :: attempt <= k <= maxRetries ==> results(k) == Failure(e)
    ensures RunFrom(maxRetries, results, attempt, lastError) == RunEnd(Failure(e), maxRetries - attempt + 1)
    decreases maxRetries - attempt + 1
  {
    if attempt < maxRetries {
      SameErrorFrom(maxRetries, results, attempt + 1, Some(e), e);
    }
  }

  /** A proxy-configuration error is retried like any other failure: every one of the
      `maxRetries` attempts is made, none launches a browser, and the configuration error
      is what is finally thrown. */
  lemma ProxyErrorRetried(username: string, maxRetries: int, proxyEnv: ProxyEnv, script: nat -> AttemptEnv)
    requires GetProxyConfig(proxyEnv).Failure? && maxRetries >= 1
    ensures Run(username, maxRetries, proxyEnv, script) == RunEnd(Failure(Error(MissingConfigMessage)), maxRetries)
    ensures forall k :: 1 <= k <= maxRetries ==> !AttemptSpec(username, proxyEnv, script(k)).launched
  {
    var results := AttemptResults(username, proxyEnv, script);
    forall k | 1 <= k <= maxRetries
      ensures results(k) == Failure(Error(MissingConfigMessage))
      ensures !AttemptSpec(username, proxyEnv, script(k)).launched
    {
      ProxyErrorAttempt(username, proxyEnv, script(k));
    }
    SameErrorFrom(maxRetries, results, 1, None, Error(MissingConfigMessage));
  }
}
