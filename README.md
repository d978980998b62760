# Instagram profile scraper: a verified model of its decision logic

The service answers `GET /scrape/:username` with the public profile of an Instagram user
(name, bio, picture, private and verified flags, follower count). It drives a headless
browser through a proxy, reads the page three ways (`window._sharedData`, the JSON-LD
record, the rendered HTML), merges what it finds, normalises the follower count and
retries failed attempts.

This project models the deterministic part of that service in Dafny. The browser, the
environment and the clock become explicit inputs.

- `wrappers.dfy` (`Wrappers`): `Option` and `Result`.
- `js.dfy` (`Js`): the JavaScript values the code handles, shown as a `JsValue` datatype.
  Also truthiness and `||`, property reads, `trim` and `\s` (over the WhiteSpace and
  LineTerminator characters of ECMAScript), ASCII `toUpperCase`, `includes`, and the
  decimal text of an integer with its round trip.
- `followers_parser.dfy` (`FollowersParser`): `parseFollowers`. `parseFloat` is modelled
  as the longest numeric prefix, read as an exact decimal (an integer mantissa and a
  power of ten).
- `proxy.dfy` (`Proxy`): `getProxyConfig`. The four environment values are parameters,
  and `parseInt(port, 10)` is a digit-prefix parse.
- `follower_regex.dfy` (`FollowerRegex`): the follower pattern
  `([\d,]+(?:\.\d+)?[KMB]?)\s*(?:followers|Follower)` with the `i` flag.
  - It is an explicit scanner that returns the leftmost match and its capture.
  - Taking the greedy token at each position is exact for this pattern, because the
    keyword starts with a letter that neither the token nor `\s` can consume.
- `extraction.dfy` (`Extraction`): the post-processing of the three extractors, the merge
  of their results, and the assembly of the returned record.
  - The HTML extractor and the merge are methods that update the profile data object
    step by step, as the source does.
  - Each of those methods is proved equal to a specification function.
- `scraper.dfy` (`Scraper`): the user-agent pool, the request filter, the not-found
  checks, one attempt, and the retry loop `scrapeInstagramProfile`.
  - The browser is a class whose `close` is counted.
  - Attempt `k` sees an `AttemptEnv`, which holds what the launch, the page and the
    extractors produce.
  - The loop is a method proved against the recursive function `RunFrom`.
- `routes.dfy` (`Routes`): the route handler. It covers validation, cleaning `@` and
  whitespace, and the mapping of the scrape outcome to a status and body, and it is tied
  to the model of the scraper.

Some consequences of the code as written are easy to miss; the model keeps each of them:
- A proxy-configuration error is thrown inside the `try` block of an attempt, so it is
  retried like any other failure (`Scraper.ProxyErrorRetried`).
- The JSON-LD stage copies all six fields with `Object.assign`, so it overwrites fields
  the `_sharedData` stage had set (`Extraction.JsonLdOverwrites`).
- On the two not-found paths after navigation, the browser is closed inline and again in
  the `catch` block, because `browser` is not cleared before the throw
  (`Scraper.AttemptClosesBrowser`).
- The proxy port is only checked for presence. Blank and non-numeric ports pass, and
  `parseInt` then gives NaN (`Proxy.BlankPortPasses`, `Proxy.TextPortPasses`).
- The JSON-LD pattern at `instagramScraper.js:218` is case-insensitive and has the
  alternatives `followers|Follower`. In effect it needs only the word "follower" after
  the number, while the HTML patterns need "followers" (`FollowerRegex.JsonLdKeyword`,
  `FollowerRegex.HtmlKeyword`).

## Model

| member | source | states |
|---|---|---|
| FollowersParser.ParseFollowersMeaning | src/utils/followersParser.js:14-66 | For any text, the result is 'unknown' exactly when the cleaned text is empty or no number starts its number part once commas are dropped. Otherwise the result is the floor of that number times 10^3, 10^6, 10^9 or 1, chosen by a trailing K, M or B. |
| FollowersParser.ParseCleanedMeaning | src/utils/followersParser.js:28-66 | The suffix dispatch on cleaned text tests only the last character, so at most one suffix is removed. The result is 'unknown' exactly when nothing numeric remains; otherwise it is the floor of the scaled number. |
| FollowersParser.ParseScaledMeaning | src/utils/followersParser.js:30-35 | A branch is 'unknown' exactly when `parseFloat` gives NaN; otherwise it is the floor of the value times the branch's power of ten. |
| FollowersParser.Floor | src/utils/followersParser.js:35 | `Math.floor` of an exact decimal: the greatest integer not above it. |
| FollowersParser.ParseFloatNaN | src/utils/followersParser.js:31-34 | `parseFloat` is NaN exactly when, after leading whitespace and an optional sign, neither a digit nor a point followed by a digit comes next. |
| FollowersParser.ParseFloatOfDecimal | src/utils/followersParser.js:31 | Digits, a point and digits read as exactly the decimal they spell. |
| FollowersParser.ParseFollowers | src/utils/followersParser.js:16-18 | A value that is not a string, and the empty string, give 'unknown'. |
| FollowersParser.ParseFloatLongestPrefix | src/utils/followersParser.js:31 | `parseFloat` reads the longest numeric prefix: after digits, a point and digits, text that can continue neither them nor an exponent is ignored. |
| FollowersParser.UnsignedLongestPrefix | src/utils/followersParser.js:31 | Without its sign, such a literal reads as exactly the decimal of its digits, with the text after it ignored. |
| FollowersParser.PointFractionOfRest | src/utils/followersParser.js:31 | The fraction digits end where text that is neither a digit nor an exponent marker begins. |
| FollowersParser.ExampleSecondPoint | src/utils/followersParser.js:31 | "1.5.2" reads as 1.5. |
| FollowersParser.ParseFloatOfExponent | src/utils/followersParser.js:31 | Digits, `e` or `E`, an optional sign and digits read as the digits times ten to the signed exponent. |
| FollowersParser.ExponentOf | src/utils/followersParser.js:31 | A complete exponent part has the value of its digits, negated after '-'. |
| FollowersParser.ParseFloatSign | src/utils/followersParser.js:31 | A leading '-' negates the number read and a leading '+' changes nothing. |
| FollowersParser.FloatExponent | src/utils/followersParser.js:60 | "1E3" reads as 1000. |
| FollowersParser.CleanedExponent | src/utils/followersParser.js:29-35 | The cleaned text "1E3K" gives 1000000. |
| FollowersParser.ExampleExponent | src/utils/followersParser.js:14-35 | "1E3K" gives 1000000: the exponent is read before the suffix is applied. |
| FollowersParser.NonTextIsUnknown | src/utils/followersParser.js:16-18 | A non-string value or the empty string gives 'unknown'. |
| FollowersParser.BlankIsUnknown | src/utils/followersParser.js:21-26 | Text made only of whitespace gives 'unknown'. |
| FollowersParser.IgnoresWhitespaceAndCase | src/utils/followersParser.js:21 | Two texts that agree once whitespace is removed and letters are upper-cased give the same result, so "2.1 k" parses like "2.1K". |
| FollowersParser.WhitespaceInsertion | src/utils/followersParser.js:21 | Inserting a whitespace character anywhere does not change the result. |
| FollowersParser.CommaInsertion | src/utils/followersParser.js:29-60 | Inserting a comma anywhere before the last non-blank character does not change the result. |
| FollowersParser.CommaInCleaned | src/utils/followersParser.js:30-59 | In cleaned text, a comma before the last character does not change the result. |
| FollowersParser.SameLastSameRest | src/utils/followersParser.js:29-59 | Two cleaned texts that end in the same character and agree on everything before it, commas dropped, parse alike. |
| FollowersParser.SuffixedDecimal | src/utils/followersParser.js:29-56 | Digits, a point, digits and a K, M or B give the floor of that exact decimal times the suffix's power of ten. |
| FollowersParser.GroupedDigits | src/utils/followersParser.js:58-66 | Digits, a comma and digits give the integer that the digits spell without the comma. |
| FollowersParser.CommaDigits | src/utils/followersParser.js:58-66 | Text that is a digit string once commas are dropped gives that string's value. |
| FollowersParser.ExampleThousands | src/utils/followersParser.js:9 | "2.1K" gives 2100. |
| FollowersParser.ExampleMillions | src/utils/followersParser.js:10 | "3.4M" gives 3400000. |
| FollowersParser.ExampleCommas | src/utils/followersParser.js:11 | "12,540" gives 12540. |
| FollowersParser.ExampleCommasSmall | src/utils/followersParser.js:3 | "1,204" gives 1204. |
| FollowersParser.ExampleSuffixOnly | src/utils/followersParser.js:29-34 | "K" alone gives 'unknown'. |
| FollowersParser.ExampleLetters | src/utils/followersParser.js:59-64 | "ABC" gives 'unknown'. |
| Proxy.GetProxyConfig | src/utils/proxy.js:8-28 | It fails with the fixed message exactly when one of the four values is unset or empty. Otherwise host, user and pass pass through unchanged, port is `parseInt` of the text, and server is "http://" + host + ":" + the raw port text. |
| Proxy.ParseInt | src/utils/proxy.js:22 | `parseInt` is NaN exactly when no digit follows the leading whitespace and optional sign. |
| Proxy.ParseIntRoundTrip | src/utils/proxy.js:22 | `parseInt` reads the decimal text of any integer back as that integer. |
| Proxy.ParseIntPrefix | src/utils/proxy.js:22 | A run of digits followed by a non-digit reads as those digits. |
| Proxy.BlankPortPasses | src/utils/proxy.js:14-26 | A port of whitespace passes the check, with NaN as its number and the raw text in the server string. |
| Proxy.TextPortPasses | src/utils/proxy.js:14-22 | A non-numeric port passes the check, with NaN as its number. |
| Proxy.NumericPort | src/utils/proxy.js:20-26 | A numeric port is read as its number, and the server string carries its text. |
| FollowerRegex.MatchAt | src/scraper/instagramScraper.js:218 | A capture is never empty and lies within the text. |
| FollowerRegex.FindFollowerToken | src/scraper/instagramScraper.js:218 | A match it reports starts inside the text, and the pattern matches there with the reported capture. |
| FollowerRegex.FindFollowerTokenLeftmost | src/scraper/instagramScraper.js:218 | A match found by `String.match` is a match at its start position with that capture, and no earlier position matches. When no match is found, no position matches. |
| FollowerRegex.FindFromFound | src/scraper/instagramScraper.js:218 | The scan from a position returns the first matching position at or after it. |
| FollowerRegex.FindFromNone | src/scraper/instagramScraper.js:218 | When the scan from a position finds nothing, no later position matches. |
| FollowerRegex.MatchAtShape | src/scraper/instagramScraper.js:218 | Every capture is a non-empty run of digits and commas, then an optional point with digits, then an optional K/M/B. |
| FollowerRegex.MatchAtPlace | src/scraper/instagramScraper.js:279 | A capture is the text at its position, followed by optional whitespace and the keyword in any case. |
| FollowerRegex.MatchAtComplete | src/scraper/instagramScraper.js:288 | Conversely, text of token shape, then whitespace, then the keyword, matches at that position with exactly that token as the capture. |
| FollowerRegex.TokenLengthShape | src/scraper/instagramScraper.js:218 | The greedy token at a position splits into the three parts of the token shape. |
| FollowerRegex.TokenLengthOf | src/scraper/instagramScraper.js:218 | A token followed by a character that cannot continue it is read greedily to its full length. |
| FollowerRegex.CommaRunSpec | src/scraper/instagramScraper.js:218 | The leading run of `[\d,]` consists of digits and commas only. |
| Extraction.SharedUser | src/scraper/instagramScraper.js:169-177 | The user object is found exactly when every link of the chain sharedData, entry_data, ProfilePage, [0], graphql, user is truthy, and it is then the last link of that chain. |
| Extraction.ExtractFromSharedData | src/scraper/instagramScraper.js:169-186 | There is a result exactly when the user object is found. fullName, bio, isPrivate and isVerified are `user.full_name`, `user.biography`, `user.is_private` and `user.is_verified` when truthy, and otherwise '' or false. The count is `user.edge_followed_by?.count` when truthy and 0 otherwise. |
| Extraction.MissingCountIsZero | src/scraper/instagramScraper.js:184 | A user found without a usable follower count yields count 0, so the JSON-LD stage runs. |
| Extraction.SharedDataPicture | src/scraper/instagramScraper.js:181 | The high-resolution picture is preferred, then the plain picture, then ''. |
| Extraction.ExtractFromJsonLd | src/scraper/instagramScraper.js:215-228 | There is a result exactly when the record is truthy and its description is a string. fullName is `name`, else `alternateName`, else ''. profilePic is `image`, else ''. The bio is the description, isPrivate is false, and isVerified is whether the description contains "Verified". The count is null when the pattern finds nothing and the capture of the match otherwise. |
| Extraction.JsonLdFollowers | src/scraper/instagramScraper.js:217-226 | A JSON-LD count is the capture of the leftmost match in the description. |
| Extraction.FirstMetaCapture | src/scraper/instagramScraper.js:276-284 | The loop over og:description metas returns the capture of the first one that matches and then stops. |
| Extraction.MetaFollowers | src/scraper/instagramScraper.js:276-284 | A capture found in the metas is never empty. |
| Extraction.PageFollowers | src/scraper/instagramScraper.js:276-292 | The HTML count is null or a non-empty string, so a found count is truthy. |
| Extraction.HtmlProfile | src/scraper/instagramScraper.js:244-273 | Every text field is a string and both flags are booleans. The count is null or a non-empty string. isVerified holds exactly when the page has a verified badge. |
| Extraction.MetaFollowersFirst | src/scraper/instagramScraper.js:276-284 | The meta capture comes from a matching meta with no matching meta before it. When there is none, no meta matches. |
| Extraction.HtmlFollowers | src/scraper/instagramScraper.js:276-292 | The HTML count is the meta capture if there is one, else the page-text capture, else null. |
| Extraction.ExtractFromHtml | src/scraper/instagramScraper.js:244-299 | The step-by-step filling of the HTML data object yields exactly the HTML profile of the page. |
| Extraction.HtmlFollowersPriority | src/scraper/instagramScraper.js:276-292 | A meta match wins over the page text. The page text is used only when no meta matches. The count is null exactly when neither matches. |
| Extraction.HtmlTextsTrimmed | src/scraper/instagramScraper.js:259-269 | The name and bio the HTML extractor reports have no surrounding whitespace. |
| Extraction.FillText | src/scraper/instagramScraper.js:390-392 | A text field keeps a truthy value and takes the HTML value otherwise. |
| Extraction.RaiseFlag | src/scraper/instagramScraper.js:393-394 | A flag ends up truthy exactly when it was truthy or the HTML flag is. |
| Extraction.GatherProfile | src/scraper/instagramScraper.js:370-396 | JSON-LD is read exactly when the sharedData result has no truthy count. HTML is read exactly when the data still has no truthy count after that. The resulting data is the three-stage merge of the extractor results. |
| Extraction.SharedDataFirst | src/scraper/instagramScraper.js:372-376 | A sharedData result with a truthy count is used unchanged. |
| Extraction.JsonLdOverwrites | src/scraper/instagramScraper.js:376-381 | A JSON-LD result replaces all six fields, and it stays as the result unless the HTML stage fills in. |
| Extraction.HtmlFillsIn | src/scraper/instagramScraper.js:385-395 | An HTML result with a truthy count supplies the count and fills empty text fields. It can set a flag but never clear one. |
| Extraction.HtmlWithoutCountIgnored | src/scraper/instagramScraper.js:387 | An HTML result with a falsy count changes nothing. |
| Extraction.Merged | src/scraper/instagramScraper.js:370-405 | No data is gathered exactly when there is no sharedData result, no JSON-LD result and no HTML result with a truthy count. |
| Extraction.FollowersText | src/scraper/instagramScraper.js:407-420 | The reported count is 'unknown' or a decimal numeral. |
| Extraction.FollowersTextMeaning | src/scraper/instagramScraper.js:407-420 | The count is a numeral exactly when the value is a number or a string `parseFollowers` can read, and the numeral reads back as that number or count. It is 'unknown' in every other case. |
| Js.IntToStringRoundTrip | src/scraper/instagramScraper.js:411-412 | The decimal text of an integer reads back as that integer. |
| Extraction.Assemble | src/scraper/instagramScraper.js:418-427 | The record carries the username, the timestamp and the count text. Each text field is the gathered value when truthy and '' when it is falsy. Each flag is the gathered value when truthy and false when it is falsy. |
| Extraction.ZeroCountText | src/scraper/instagramScraper.js:184 | A count of 0 from `_sharedData` is reported as "0", not 'unknown'. |
| Scraper.AgentCountIsPoolSize | src/scraper/instagramScraper.js:14-66 | The pool has 30 entries. |
| Scraper.AgentIndex | src/scraper/instagramScraper.js:75 | The index drawn is always inside the pool. |
| Scraper.GetRandomUserAgent | src/scraper/instagramScraper.js:74-76 | The agent returned is an entry of the pool. |
| Scraper.AgentIndexUniform | src/scraper/instagramScraper.js:75 | Index i is drawn exactly for the draws in [i/30, (i+1)/30), so every index is equally likely. |
| Scraper.EveryAgentReachable | src/scraper/instagramScraper.js:75 | Every index has a draw that selects it. |
| Scraper.RepeatedAgent | src/scraper/instagramScraper.js:14-66 | The last entry repeats the first, and no other entry equals it, so that agent is twice as likely. |
| Scraper.FilterRequest | src/scraper/instagramScraper.js:129-138 | A request is aborted exactly when its resource type is image, stylesheet, font or media, and continued otherwise. |
| Scraper.MissingProfile | src/scraper/instagramScraper.js:341 | The profile is missing exactly when there is no response or the status is 404. |
| Scraper.NotFoundPage | src/scraper/instagramScraper.js:360-364 | The page is a not-found page exactly when the title contains "Page Not Found" or the content contains one of the two not-found sentences. |
| Js.IncludesMeaning | src/scraper/instagramScraper.js:361-363 | `includes` holds exactly when the part occurs at some position of the text. |
| Scraper.Browser.constructor | src/scraper/instagramScraper.js:86-96 | A launched browser has not been closed yet. |
| Scraper.Browser.Close | src/scraper/instagramScraper.js:399 | Each close is counted. |
| Scraper.Conclude | src/scraper/instagramScraper.js:399-430 | After the checks pass, the attempt throws 'User not found' exactly when no data was gathered, and otherwise returns the assembled record. |
| Scraper.TryAttempt | src/scraper/instagramScraper.js:323-431 | The `try` block gives the result of the attempt specification. It launches a fresh browser exactly when the specification says so, closes it inline as often as specified, and leaves `browser` holding it exactly on the paths that throw after the launch. |
| Scraper.AttemptClosesBrowser | src/scraper/instagramScraper.js:341-443 | A browser is launched exactly when the proxy settings are complete and the launch succeeds. It is closed twice on the two not-found paths after navigation, and once on every other path. |
| Scraper.AttemptSuccess | src/scraper/instagramScraper.js:341-430 | Only an attempt that passes every check can succeed. Such an attempt ends with the concluded result, closes its browser once and clears `browser`. |
| Scraper.ProxyErrorAttempt | src/scraper/instagramScraper.js:83 | Incomplete proxy settings make the attempt throw the configuration error before any agent is picked or any browser is launched. |
| Scraper.CloseHistory | src/scraper/instagramScraper.js:436-443 | Holds one entry per attempt made, and entry k is the close count of attempt k + 1. |
| Scraper.AttemptWithCleanup | src/scraper/instagramScraper.js:323-443 | The `try` block followed by the `catch` clean-up: the specified result, `browser` cleared, and the specified number of closes. |
| Scraper.RunFrom | src/scraper/instagramScraper.js:322-461 | From an attempt past `maxRetries` no attempt is made; otherwise at least one and at most the remaining ones. |
| Scraper.Run | src/scraper/instagramScraper.js:322-461 | When `maxRetries < 1`, no attempt is made and the generic error is thrown; otherwise one to `maxRetries` attempts are made. |
| Scraper.NumberedAttempt | src/scraper/instagramScraper.js:323-443 | Attempt k ends with the result and close count the attempt specification gives for what attempt k sees, and `browser` cleared. |
| Scraper.RetryLoop | src/scraper/instagramScraper.js:322-461 | The loop ends with the result and attempt count of `RunFrom` from attempt 1. It waits once between consecutive attempts and never after the last, and records each attempt's close count. |
| Scraper.ScrapeInstagramProfile | src/scraper/instagramScraper.js:318-462 | The loop ends with the result and attempt count of `Run`. It waits once between consecutive attempts and never after the last. Each attempt's browser is closed as specified. |
| Scraper.RunOutcome | src/scraper/instagramScraper.js:432-461 | The scrape ends with what its last attempt produced. Every earlier attempt failed with an error other than 'User not found'. It stops before the last allowed attempt only on a success or 'User not found'. |
| Scraper.RunFromOutcome | src/scraper/instagramScraper.js:432-461 | The same, from any attempt on. |
| Scraper.NotFoundNotRetried | src/scraper/instagramScraper.js:445-448 | 'User not found' ends the scrape at once with that error. |
| Scraper.SameErrorFrom | src/scraper/instagramScraper.js:450-461 | If every attempt fails with the same retryable error, all attempts are made and that error is thrown. |
| Scraper.ProxyErrorRetried | src/scraper/instagramScraper.js:322-461 | A proxy-configuration error is retried: all `maxRetries` attempts are made, none launches a browser, and the configuration error is thrown at the end. |
| Routes.StripAt | src/routes.js:24 | One '@' at the very start is removed; without one the text is unchanged. |
| Routes.CleanUsername | src/routes.js:24 | The cleaned username has no surrounding whitespace. It is empty exactly when what follows the removed '@' is blank. |
| Routes.HasUsername | src/routes.js:17 | Validation passes exactly for a string that is not all whitespace. |
| Routes.Respond | src/routes.js:13-57 | The status is 200, 400, 404 or 500. It is 400 exactly when validation fails or the cleaned username is empty, and 200 exactly when the scrape of the cleaned username succeeds. |
| Routes.CleanUsernameSlice | src/routes.js:24 | The cleaned username is a piece of the text after the '@', with only whitespace around it. |
| Routes.ExampleAtAndSpace | src/routes.js:24 | "@Foo " is cleaned to "Foo". |
| Routes.ExampleDoubleAt | src/routes.js:24 | "@@foo" is cleaned to "@foo": only one '@' is removed. |
| Routes.ExampleBlankThenAt | src/routes.js:24 | " @foo" is cleaned to "@foo": the '@' is removed before trimming. |
| Routes.ExampleOnlyAt | src/routes.js:24-30 | "@" and "@  " are answered with 400 'cannot be empty'. |
| Routes.MissingUsernameRejected | src/routes.js:17-21 | A missing, non-string or blank username gets 400 'Username is required', whatever the scraper would do. |
| Routes.EmptyUsernameRejected | src/routes.js:26-30 | A username that is empty once cleaned gets 400 'cannot be empty', whatever the scraper would do. |
| Routes.ScrapeOutcome | src/routes.js:36-55 | A valid username is scraped under its cleaned form. Success gives 200 with the record unchanged. 'User not found' gives 404. Any other error gives 500 'Internal server error', with the message present exactly in development. |
| Routes.ErrorResponse | src/routes.js:44-55 | An error with the message 'User not found' gives 404 `{error: 'User not found'}`. Any other error gives 500, with the message only in development. |
| Routes.EndToEnd | src/routes.js:32-56 | With the scraper of this model and the default three attempts, a valid request is answered from the outcome of `Run` for the cleaned username, after one to three attempts. |
| Routes.ProxyErrorIs500 | src/routes.js:52-55 | With incomplete proxy settings, every valid request gets 500. |

## Left out

- Browser I/O is not modelled; what it produces is an input (`AttemptEnv`, one per attempt). This covers Puppeteer, the stealth plugin, `launch`, `newPage`, `authenticate`, `setViewport`, `goto`, `waitForSelector`, `waitForTimeout`, `title` and `content`.
- The in-page DOM queries and `JSON.parse` of script text are foreign code. Their results arrive as parsed `JsValue`s and as an `HtmlPage` record.
- Which JSON-LD record is picked (`@type` Person or ProfilePage) is part of the in-page code and is not modelled.
- Whether a result is found from the `_sharedData` script text by its regular expression is part of the in-page code and is not modelled.
- Reading `process.env` and dotenv is not modelled; the values are a `ProxyEnv` parameter and a NODE_ENV parameter.
- The `scrapedAt` timestamp is a parameter, because the clock is outside the model.
- `Math.random()` is a parameter, and the backoff delay is counted but its length is not modelled; `src/utils/sleep.js` is not part of this model.
- `src/server.js` (Express set-up, CORS, health and root endpoints, 404 middleware, `listen`) is not part of this model.
- `console` logging is not modelled, because it has no effect on results.
- `browser.close()` is modelled as never failing, so the `catch` around it at `instagramScraper.js:437-441` is not modelled.
- The user-agent string does reach `setUserAgent` in the source, but page set-up is an input here, so the model only records the index of the picked agent.
- `toUpperCase` is modelled on ASCII letters only.
- FollowersParser.ParseFollowersMeaning: it uses exact decimals, not IEEE-754 doubles. Because `parseFloat` rounds to the nearest double and `num * 1000` rounds again, the JavaScript floor can differ by one in either direction from the exact value stated here: "0.99999999999999999" is 1 in JavaScript and 0 here, and "1.005K" can be 1004 in JavaScript and is 1005 here. `Infinity` and numbers too large for a double are not modelled.
- Extraction.FollowersText: numbers are integers here. JavaScript's exponent notation for huge values and the text of fractional or NaN counts from JSON are not modelled.
- Extraction.SharedUser: a property read on a string, array or other built-in finds keys of the JSON value only. It does not find JavaScript's built-in properties such as `length`.
- Scraper.AttemptSpec: errors thrown inside the extractors are caught there and lead to a null result. This is modelled through the extractor inputs, not as a separate failure path.
