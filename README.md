# Flatlogic AI proxy client, modelled in Dafny

`ai/local_ai_api.py` is a small Python client for the Flatlogic AI proxy. An
application hands it OpenAI-Responses-style parameters. The client then:

- posts them, with the project's UUID, to the proxy endpoint;
- if the proxy queues the job and returns an `ai_request_id`, calls the job's
  status endpoint every few seconds until the job succeeds, fails or runs out
  of time;
- returns a uniform result dict `{success, status, error, message, data,
  response}`.

Helpers pull the model's text out of a result and decode that text as a JSON
object, with or without markdown code fences. The configuration comes from
environment variables. A fallback `.env` file fills the ones that are unset.

This project is a Dafny model of that client. The modules, in dependency
order:

| module | file | what it models |
|---|---|---|
| `Optional` | `optional.dfy` | the `Option` type |
| `Strings` | `strings.dfy` | the Python `str` operations the client relies on: `strip`, `lstrip`/`rstrip` with a character set, `startswith`/`endswith`, `split(sep, 1)`, `lower`, `str(int)`, `int(str)` |
| `Json` | `json.dfy` | JSON values, Python truthiness, `dict.get`, `or`, `str()` |
| `Http` | `http.dfy` | `_http_request`: one exchange, classified into a result dict |
| `Endpoints` | `endpoints.dfy` | `_build_url`, `_resolve_status_path` |
| `Config` | `config.dfy` | `_ensure_env_loaded` (the `.env` parser) and `_config` |
| `Calls` | `calls.dfy` | the header merge, timeout override and TLS override shared by `request` and `fetch_status` |
| `Poller` | `poller.dfy` | `fetch_status`, `await_response` |
| `Extractor` | `extractor.dfy` | `_extract_text`, `decode_json_from_response` |
| `Submitter` | `submitter.dfy` | `request`, `create_response` |

Everything outside the client is passed in as a value:

- A `World` holds how the proxy answers the k-th request of a run (an outcome
  and the seconds the exchange took) and `json.loads`, an uninterpreted
  partial function.
- A `Trace` holds the requests sent so far and the wall clock.
- Each exchange advances the clock by its duration. Each sleep advances it by
  exactly the poll interval.
- `await_response` is an imperative loop (`Poller.AwaitResponse`). It is
  proved equal to the recursive specification `Poller.Poll`, and the
  properties of polling are lemmas about `Poll`.
- The environment is a `map`; the `.env` file is its list of lines, or None
  when there is no file.
- `request` adds `project_uuid` to the caller's payload dict in place. It is
  modelled on a `Payload` object whose `items` field the method updates.
- The header merge loop, the `.env` loop and the text-extraction loops are
  methods with loop invariants. Each is proved equal to a function, and the
  lemmas are about that function.

Where the documented behaviour and the code differ, the model follows the code.
The exceptions are the two defects under "## Findings". There the operations
`await_response`, `create_response`, `_extract_text` and
`decode_json_from_response` (`Poller.AwaitResponse`, `Submitter.CreateResponse`,
`Extractor.ExtractText`, `Extractor.DecodeJsonFromResponse`) follow the
evidently intended behaviour. Separate members ending in `AsWritten` model the
code as it stands, and lemmas about them exhibit each defect. The points where
the model follows the code against the documentation:

- `_build_url` does not normalise the base URL. A base ending in `/` joined
  with a path starting with `/` keeps both slashes
  (`Endpoints.BuildUrlKeepsBaseSlash`).
- For a non-2xx answer whose body decodes to a dict with neither a truthy
  `error` nor a truthy `message`, the error is "AI proxy request failed", not
  the raw body. The raw body is used only when the decoded value is not a
  dict, and the default again when the body is empty (`Http.ErrorMessage`).
- `decode_json_from_response` retries after stripping fences whenever the
  first parse did not give a dict, not only after a parse error. It retries
  only when the stripped text is non-empty and differs from the text.
- The `.env` file assigns a variable whose current value is empty, not only
  one that is absent. The file is read when either PROJECT_UUID or PROJECT_ID
  is unset or empty.
- `create_response` fills in the default model when `model` is falsy, not
  only when it is absent.

## Model

| member | source | states |
|---|---|---|
| `Strings.TrimStartSpec` | ai/local_ai_api.py:416 | `lstrip(cs)` removes exactly the longest prefix of characters in `cs`: the result is a suffix of the input, every removed character is in `cs`, and the result does not start with one |
| `Strings.TrimEndSpec` | ai/local_ai_api.py:334 | `rstrip(cs)` removes exactly the longest suffix of characters in `cs`: the result is a prefix, every removed character is in `cs`, and the result does not end with one |
| `Strings.StripCharsUnchanged` | ai/local_ai_api.py:416 | a string with no character of `cs` at either end is left unchanged by `strip(cs)` |
| `Strings.StripUnchanged` | ai/local_ai_api.py:325 | a string with no whitespace at either end is left unchanged by `strip()` |
| `Strings.StripCharsEnds` | ai/local_ai_api.py:411 | after `strip(cs)` neither end of the string is in `cs` |
| `Strings.StripCharsIdempotent` | ai/local_ai_api.py:325 | `strip` is idempotent |
| `Strings.StripKeepsSuffix` | ai/local_ai_api.py:325 | a suffix with no whitespace at either end survives `strip()` |
| `Strings.SplitFirst` | ai/local_ai_api.py:153 | `split(c, 1)` gives None exactly when `c` does not occur; otherwise the string is head + c + tail with `c` not in the head |
| `Strings.SplitFirstJoin` | ai/local_ai_api.py:414 | split inverts the join: splitting `head + [c] + tail` at `c` gives back `head` and `tail` when `c` is not in `head` |
| `Strings.Lower` | ai/local_ai_api.py:319 | `lower` keeps the length, leaves no upper-case ASCII letter and changes no other character |
| `Strings.ParseInt` | ai/local_ai_api.py:318 | `int(str)` of an empty or all-whitespace string fails |
| `Strings.ParseIntOfIntToString` | ai/local_ai_api.py:318 | `int(str(n)) == n` for every integer |
| `Json.Get` | ai/local_ai_api.py:214 | `dict.get`: the stored value for a present key, None (JSON null) for an absent one |
| `Json.Or` | ai/local_ai_api.py:225 | Python `a or b`: exactly `a` when `a` is truthy, else exactly `b`; the result is truthy exactly when either is |
| `Json.PyStr` | ai/local_ai_api.py:225 | `str(v)` of a string is that string, and a truthy value renders as a non-empty string |
| `Http.Classify` | ai/local_ai_api.py:357-396 | definition, no contract of its own: a raised transport error becomes `request_failed`; otherwise the body is decoded when non-empty, and a 2xx status gives a success with `data`, any other a failure with `error` and `response`; stated by `Http.ClassifyMeaning` |
| `Http.Send` | ai/local_ai_api.py:347-396 | definition, no contract of its own: one exchange: the request is logged, the clock advances by the answer's duration, and the proxy's answer to the k-th request is classified |
| `Http.ErrorMessage` | ai/local_ai_api.py:385-389 | the error of a failed answer is never falsy; spells out the precedence of `error`, `message`, the raw body and the default |
| `Http.ClassifyMeaning` | ai/local_ai_api.py:357-396 | success exactly for a 2xx answer (section 15.3 of RFC 9110); a raised transport error gives `request_failed` with its message; otherwise the status is reported, with `data` on success and `error` plus `response` on failure; every failure has a truthy error |
| `Endpoints.BuildUrl` | ai/local_ai_api.py:324-330 | definition, no contract of its own: `_build_url`; stated by `Endpoints.BuildUrlJoins` and the lemmas below it |
| `Endpoints.StatusPath` | ai/local_ai_api.py:333-339 | definition, no contract of its own: `_resolve_status_path`; stated by `Endpoints.StatusPathEnds` and the lemmas below it |
| `Endpoints.BuildUrlJoins` | ai/local_ai_api.py:324-330 | an absolute trimmed path is used as is; any other path is appended to the base URL behind exactly one slash |
| `Endpoints.BuildUrlKeepsSuffix` | ai/local_ai_api.py:324-330 | the URL ends as the trimmed path ends |
| `Endpoints.BuildUrlIgnoresSurroundingWhitespace` | ai/local_ai_api.py:325 | whitespace around the path never changes the URL |
| `Endpoints.BuildUrlResolvedIsFixpoint` | ai/local_ai_api.py:324-330 | with an absolute base, a resolved URL is absolute and resolving it again against any base gives it back |
| `Endpoints.BuildUrlRelative` | ai/local_ai_api.py:330 | a relative path with no leading slash is joined with one slash |
| `Endpoints.BuildUrlRelativeExample` | ai/local_ai_api.py:330 | "ai-request" on "https://x.com" gives "https://x.com/ai-request" |
| `Endpoints.BuildUrlAbsoluteExample` | ai/local_ai_api.py:326-327 | "https://y.com/z" is used as it is, against every base |
| `Endpoints.BuildUrlKeepsBaseSlash` | ai/local_ai_api.py:328-329 | a path starting with a slash is appended to the base with no separator of its own, so the base is not normalised |
| `Endpoints.StatusPathEnds` | ai/local_ai_api.py:333-339 | whatever the responses path, the status path ends with `/ai-request/{id}/status` |
| `Endpoints.StatusPathIgnoresTrailingSlash` | ai/local_ai_api.py:334 | a trailing slash on the responses path makes no difference |
| `Endpoints.StatusPathSegmentOnce` | ai/local_ai_api.py:337-338 | configuring `p` or `p + "/ai-request"` gives the same status path; the segment is never doubled |
| `Endpoints.StatusPathWithoutResponsesPath` | ai/local_ai_api.py:335-336 | without a responses path the status path is `/ai-request/{id}/status` |
| `Config.ParseEnvLine` | ai/local_ai_api.py:411-416 | definition, no contract of its own: one `.env` line: blank lines, comments and lines without `=` give nothing; otherwise the trimmed key and the trimmed, unquoted value; stated by `Config.EnvLineRoundTrip` |
| `Config.ApplyLine` | ai/local_ai_api.py:411-418 | definition, no contract of its own: one iteration of the file loop: a parsed line with a non-empty key assigns a variable that is unset or empty; stated by `Config.EnvAfterLinesKeepsSet` |
| `Config.EnvAfterLines` | ai/local_ai_api.py:410-418 | definition, no contract of its own: the file loop over all lines, in order; stated by `Config.EnvAfterLinesFirstValueWins` |
| `Config.EnvLoaded` | ai/local_ai_api.py:399-418 | definition, no contract of its own: `_ensure_env_loaded`: nothing happens when PROJECT_UUID and PROJECT_ID are both set or there is no file; otherwise the file loop; stated by `Config.EnvLoadedKeepsSet` |
| `Config.EnsureEnvLoaded` | ai/local_ai_api.py:399-420 | the line-by-line loop leaves the environment that the `.env` specification `EnvLoaded` describes |
| `Config.EnvAfterLinesKeepsSet` | ai/local_ai_api.py:417-418 | no line of the file overwrites a variable that already has a non-empty value |
| `Config.EnvLoadedKeepsSet` | ai/local_ai_api.py:399-420 | an explicitly set environment value always wins over the file |
| `Config.EnvAfterLinesFirstValueWins` | ai/local_ai_api.py:410-418 | an unset variable takes the value of the first line that gives it a non-empty value |
| `Config.EnvAfterLinesFrame` | ai/local_ai_api.py:410-418 | a variable that no line of the file names keeps its value, and stays absent when it was absent |
| `Config.EnvLoadedFrame` | ai/local_ai_api.py:399-420 | `_ensure_env_loaded` leaves a variable the file does not name exactly as it was: present exactly when it was, with the same value |
| `Config.VerifyTlsOnWhenUnnamed` | ai/local_ai_api.py:298-321 | with AI_VERIFY_TLS absent from the environment and named by no line of the file, the resolved configuration verifies certificates |
| `Config.UnquoteQuoted` | ai/local_ai_api.py:416 | stripping quotes inverts quoting a value that has no quote at either end |
| `Config.EnvLineRoundTrip` | ai/local_ai_api.py:411-416 | a line `KEY="value"` parses back to that key and value |
| `Config.ConfigFromEnv` | ai/local_ai_api.py:305-320 | configuration exists exactly when AI_TIMEOUT (default "30") parses as an integer, and then the timeout is its value; TLS verification is off exactly for spellings that lower to "0", "false" or "no"; the responses path is AI_RESPONSES_PATH, else derived from PROJECT_ID, else empty |
| `Config.ConfigDefaults` | ai/local_ai_api.py:305-320 | an empty environment gives the documented defaults: base URL https://flatlogic.com, header `project-uuid`, model `gpt-5-mini`, timeout 30, verification on |
| `Config.ConfigTimeoutOf` | ai/local_ai_api.py:318 | in any environment whose AI_TIMEOUT is `str(n)`, a configuration exists and its timeout is `n` |
| `Config.ConfigVerifyTls` | ai/local_ai_api.py:319 | AI_VERIFY_TLS switches verification off exactly when it lowers to one of the three spellings |
| `Config.ConfigVerifyTlsSpellings` | ai/local_ai_api.py:319 | "FALSE" and "No" switch verification off; " false" and "off" do not |
| `Config.ResolveConfig` | ai/local_ai_api.py:298-321 | the configuration is derived from the environment after the `.env` file is loaded, and an explicitly set PROJECT_UUID is the configured one |
| `Calls.HeaderEntry` | ai/local_ai_api.py:152-154 | definition, no contract of its own: one header entry: a string with a colon splits at the first colon into a trimmed name and value; anything else gives nothing; stated by `Calls.HeaderEntryRoundTrip` and `Calls.MalformedHeaderIgnored` |
| `Calls.MergedHeaders` | ai/local_ai_api.py:149-154 | definition, no contract of its own: the header loop as a fold over the entries, later ones overriding earlier ones; stated by `Calls.MergedHeadersLookup` |
| `Calls.LastHeaderValue` | ai/local_ai_api.py:150-154 | definition, no contract of its own: the value of the last well-formed entry for a name; the reference `Calls.MergedHeadersLookup` compares the fold with |
| `Calls.MergeHeaders` | ai/local_ai_api.py:149-154 | the header loop computes the header merge `MergedHeaders` |
| `Calls.MergedHeadersLookup` | ai/local_ai_api.py:144-154 | a header name is present exactly when it is a fixed header or some entry names it; the last such entry wins; otherwise the fixed value stays |
| `Calls.MalformedHeaderIgnored` | ai/local_ai_api.py:152 | an entry that is not a string with a colon has no effect, wherever it stands |
| `Calls.HeaderEntryRoundTrip` | ai/local_ai_api.py:152-154 | `name + ": " + value` is read back as that name and value, even when the value contains colons |
| `Poller.Dispatch` | ai/local_ai_api.py:165-191 | definition, no contract of its own: one status call: the status-check failure when none can be issued, else one exchange; stated by `Poller.DispatchMeaning` |
| `Poller.FetchStatusSpec` | ai/local_ai_api.py:160-191 | definition, no contract of its own: `fetch_status`; stated by `Poller.FetchStatusMeaning` |
| `Poller.DispatchMeaning` | ai/local_ai_api.py:165-191 | with no status call the status-check failure and an unchanged trace; otherwise the request is logged, the clock advances by the answer's duration and the answer is classified |
| `Poller.FetchStatusMeaning` | ai/local_ai_api.py:160-191 | without a UUID, the status-check failure and nothing sent; with one, exactly one status GET and its classified answer; the clock never runs backwards |
| `Poller.FetchStatus` | ai/local_ai_api.py:160-191 | `fetch_status`, written with the header loop, does what `FetchStatusSpec` describes |
| `Poller.StatusRequestShape` | ai/local_ai_api.py:173-191 | a bodiless GET to a URL ending in `/ai-request/{id}/status`, with `Accept` and the project header; the project header holds the UUID unless an entry replaces it; the timeout and TLS setting are the configured ones when not overridden, and a given per-call timeout or `verify_tls` (taken by its truth value) is used instead |
| `Poller.StatusUrlEnds` | ai/local_ai_api.py:173-174 | the status URL ends with `/ai-request/{id}/status` whatever the base URL and responses path |
| `Poller.PollInterval` | ai/local_ai_api.py:198-200 | the sleep is positive: the given interval when positive, else 5 |
| `Poller.PollBudget` | ai/local_ai_api.py:197-203 | the budget is `max(timeout, interval)`: at least the timeout (300 when absent) and the interval, and equal to one of them |
| `Poller.StatusCallOptionsAsWritten` | ai/local_ai_api.py:206-210 | as written, the headers and per-call timeout are passed on, and `verify_tls` is always present: the caller's value when given, None (JSON null) when not |
| `Poller.StatusPollSkipsTlsAsWritten` | ai/local_ai_api.py:178 | as written, a status poll without an explicit `verify_tls` never verifies certificates, even when the configuration says to |
| `Poller.StatusPollKeepsTls` | ai/local_ai_api.py:178 | with the intended options, a status poll verifies certificates as configured |
| `Poller.Verdict` | ai/local_ai_api.py:211-229 | a failed status call ends polling with that failure; a verdict of success carries status 200; a verdict of failure on a successful call carries status 500 and a non-empty error |
| `Poller.VerdictOfStatus` | ai/local_ai_api.py:212-227 | "success" yields the job's `response`, or the whole status data when it has none; "failed" without an error yields "AI request failed"; any other status polls again |
| `Poller.Poll` | ai/local_ai_api.py:205-237 | definition, no contract of its own: the polling loop as a recursion on the time left before the deadline: a call, its verdict, the deadline test and a sleep; stated by `Poller.PollOutcome` and `Poller.PollCallBound` |
| `Poller.AwaitSpec` | ai/local_ai_api.py:194-237 | definition, no contract of its own: `await_response` with the corrected status-call options: `Poll` from the current clock with deadline now + budget; stated by `Poller.AwaitOutcome` |
| `Poller.AwaitSpecAsWritten` | ai/local_ai_api.py:194-237 | definition, no contract of its own: `await_response` as written, passing `verify_tls` to every status call; stated by `Poller.AwaitSkipsTlsAsWritten` |
| `Poller.AwaitSkipsTlsAsWritten` | ai/local_ai_api.py:205-210 | as written, when the caller of `await_response` gives no `verify_tls`, no status request of the whole polling loop verifies certificates, whatever the configuration says |
| `Poller.AwaitResponse` | ai/local_ai_api.py:194-237 | the polling loop does what the recursive specification `Poll` describes, from the current clock with deadline now + budget, with the corrected status-call options |
| `Poller.DispatchIsNotTimeout` | ai/local_ai_api.py:231-236 | a status reply is never the poll's own timeout failure |
| `Poller.PollOutcome` | ai/local_ai_api.py:205-237 | a success carries status 200; the timeout failure comes only once the clock has reached the deadline; the clock is monotone; the log only grows, by at least one request when there is one to send, and every new entry is that request |
| `Poller.AwaitPollsFirst` | ai/local_ai_api.py:205-210 | with a project UUID, polling sends at least one request and the first is the job's status request |
| `Poller.AwaitOutcome` | ai/local_ai_api.py:194-237 | `await_response` succeeds only with status 200, times out only after the budget has elapsed, sends only status requests for the job, and, with the corrected options, those verify certificates as configured when no override is given (as written none of them does: `Poller.AwaitSkipsTlsAsWritten`) |
| `Poller.AwaitReturnsFailedStatus` | ai/local_ai_api.py:228-229 | a failed first status call is returned unchanged after exactly one request |
| `Poller.AwaitWithoutUuid` | ai/local_ai_api.py:165-171 | without a project UUID polling stops at once with the status-check failure and sends nothing |
| `Poller.PollPendingPendingDone` | ai/local_ai_api.py:205-237 | two pending answers and then a final one give the final verdict after exactly three identical requests |
| `Poller.AwaitPendingPendingDone` | ai/local_ai_api.py:194-237 | the same for `await_response`, when the two pending polls fit in the budget |
| `Poller.PollAlwaysPendingTimesOut` | ai/local_ai_api.py:231-237 | a job that stays pending always ends in the timeout failure |
| `Poller.AwaitAlwaysPendingTimesOut` | ai/local_ai_api.py:194-237 | the same for `await_response` |
| `Poller.PollCallBound` | ai/local_ai_api.py:231-237 | the number of polls is bounded by the time to the deadline divided by the interval |
| `Poller.AwaitCallBound` | ai/local_ai_api.py:194-237 | `await_response` sends at most two requests more than the budget has whole intervals |
| `Poller.DerivedStatusPath` | ai/local_ai_api.py:308-309 | with the responses path derived from PROJECT_ID, the status path contains the segment exactly once |
| `Extractor.AsDict` | ai/local_ai_api.py:378-396 | the result dict has `success`, and it has `data` and `response` exactly when the reply carries them |
| `Extractor.PayloadOfReply` | ai/local_ai_api.py:275 | the text is looked for in `data` of a success and in `response` of a failure |
| `Extractor.PayloadOf` | ai/local_ai_api.py:275 | definition, no contract of its own: the payload searched: `data` when `success` is truthy, else `response` |
| `Extractor.BlockText` | ai/local_ai_api.py:284-285 | a block contributes text exactly when it is an `output_text` dict with truthy text |
| `Extractor.BlocksText` | ai/local_ai_api.py:283-285 | definition, no contract of its own: the text of one entry's content blocks, concatenated in order; stated by `Extractor.BlocksTextAppend` and `Extractor.BlocksTextSkipsOtherBlocks` |
| `Extractor.EntryText` | ai/local_ai_api.py:281-285 | definition, no contract of its own: one `output` entry: its `content` list's block text, "" for an entry that is not a dict or has no list |
| `Extractor.OutputText` | ai/local_ai_api.py:278-287 | definition, no contract of its own: the `output` loop: the text of the first entry that has any, else ""; stated by `Extractor.OutputTextFirstWithText` and `Extractor.OutputTextEmpty` |
| `Extractor.ChoiceText` | ai/local_ai_api.py:288-292 | definition, no contract of its own: the `choices` fallback, corrected to give "" for a first choice that is not a dict |
| `Extractor.ChoiceTextAsWritten` | ai/local_ai_api.py:288-292 | definition, no contract of its own: the `choices` fallback as written: None (the raised `AttributeError`) for a first choice that is not a dict |
| `Extractor.ExtractedText` | ai/local_ai_api.py:274-295 | definition, no contract of its own: `_extract_text`, corrected; stated by `Extractor.ExtractedFromOutput`, `Extractor.ExtractedFromChoices`, `Extractor.ExtractedFromString` and `Extractor.ExtractedNothing` |
| `Extractor.ExtractedTextAsWritten` | ai/local_ai_api.py:274-295 | definition, no contract of its own: `_extract_text` as written, None where it raises; stated by `Extractor.ExtractTextRaisesAsWritten` and `Extractor.ExtractedTextAgrees` |
| `Extractor.ExtractText` | ai/local_ai_api.py:274-295 | the nested loops compute the specification `ExtractedText`, which gives "" where the code as written raises |
| `Extractor.OutputLoop` | ai/local_ai_api.py:277-287 | the loop over `output` returns the text of the first entry whose content blocks give a non-empty text, or "" |
| `Extractor.ContentText` | ai/local_ai_api.py:283-285 | the loop over one entry's `content` concatenates the texts of its text blocks in order |
| `Extractor.BlocksTextSnoc` | ai/local_ai_api.py:283-285 | one more block adds its text at the end |
| `Extractor.BlocksTextAppend` | ai/local_ai_api.py:283-285 | block texts concatenate in order |
| `Extractor.BlocksTextSkipsOtherBlocks` | ai/local_ai_api.py:284 | a block without text contributes nothing, wherever it stands |
| `Extractor.OutputTextFirstWithText` | ai/local_ai_api.py:280-287 | the output text is that of the first entry that has any |
| `Extractor.OutputTextEmpty` | ai/local_ai_api.py:280-287 | the output text is empty exactly when no entry has text |
| `Extractor.OutputTextIgnoresLater` | ai/local_ai_api.py:286-287 | entries after the first with text are never looked at |
| `Extractor.MessageEntryText` | ai/local_ai_api.py:280-285 | an assistant message with one `output_text` block yields its text |
| `Extractor.OutputTextTwoMessages` | ai/local_ai_api.py:280-287 | messages "A" and then "B" give "A" alone |
| `Extractor.ExtractedFromOutput` | ai/local_ai_api.py:276-287 | text found in `output` takes precedence |
| `Extractor.ExtractedFromChoices` | ai/local_ai_api.py:288-292 | for any first choice that is a dict whose `message` is a dict with truthy `content`, and when `output` gives no text, the text is `str(content)` |
| `Extractor.ExtractedFromString` | ai/local_ai_api.py:293-294 | a string payload is the text itself |
| `Extractor.ExtractedNothing` | ai/local_ai_api.py:295 | any other payload gives "" |
| `Extractor.ExtractTextRaisesAsWritten` | ai/local_ai_api.py:288-290 | as written, `{"success": true, "data": {"choices": ["x"]}}` makes the extraction raise, while the intended version gives "" |
| `Extractor.ExtractedTextAgrees` | ai/local_ai_api.py:274-295 | whenever the code as written does not raise, the intended version returns the same text |
| `Extractor.FenceStripped` | ai/local_ai_api.py:258-263 | definition, no contract of its own: the fence removal: strip, drop a leading "```json" and a trailing "```", strip again; stated by `Extractor.FenceStrippedJson` and `Extractor.FenceStrippedPlain` |
| `Extractor.FenceStrippedJson` | ai/local_ai_api.py:258-263 | a block fenced as "```json … ```" is unwrapped to its trimmed contents |
| `Extractor.FenceStrippedPlain` | ai/local_ai_api.py:258-263 | a text without surrounding whitespace or fences is left unchanged |
| `Extractor.DecodeJsonText` | ai/local_ai_api.py:247-271 | only a dict is ever returned, parsed from the text or from its fence-stripped form and never from empty text; a text that parses to a dict as it stands gives that dict |
| `Extractor.DecodeFencedObject` | ai/local_ai_api.py:258-268 | a fenced object that does not parse as it stands is decoded from inside the fence |
| `Extractor.DecodePlainNonObject` | ai/local_ai_api.py:251-271 | a plain text that does not parse to a dict, and has no fence, gives nothing |
| `Extractor.DecodeFencedExample` | ai/local_ai_api.py:245-271 | "```json\n{"k":1}\n```" decodes to `{"k": 1}` |
| `Extractor.DecodePlainExamples` | ai/local_ai_api.py:245-271 | "not json" and "[1,2,3]" decode to nothing |
| `Extractor.DecodeJsonFromResponse` | ai/local_ai_api.py:245-271 | `decode_json_from_response` decodes the text of the corrected extraction as `DecodeJsonText` describes |
| `Submitter.Payload.constructor` | ai/local_ai_api.py:83 | the payload object holds the given items |
| `Submitter.ResolvedPath` | ai/local_ai_api.py:120 | the explicit path, else the `path` option, else the configured responses path; empty exactly when all three are |
| `Submitter.WithProjectUuid` | ai/local_ai_api.py:136-137 | the payload gains `project_uuid` when it has none; an existing one is never replaced, and every other key is kept |
| `Submitter.RequestSpec` | ai/local_ai_api.py:115-157 | definition, no contract of its own: `request`: the refusals in order, else one POST exchange; stated by `Submitter.RequestRefused` and `Submitter.RequestSends` |
| `Submitter.Request` | ai/local_ai_api.py:115-157 | `request` answers as `RequestSpec` describes, and the caller's payload gains `project_uuid` only once both checks pass |
| `Submitter.RequestRefused` | ai/local_ai_api.py:120-134 | a refused request sends nothing, leaves the payload alone and reports the missing endpoint before the missing UUID |
| `Submitter.RequestSends` | ai/local_ai_api.py:136-157 | an accepted request sends exactly one POST to the resolved URL, carrying the payload with `project_uuid`, `Content-Type`, `Accept` and the project header, with the configured TLS setting and timeout unless overridden, and the given per-call timeout or `verify_tls` (taken by its truth value) when they are |
| `Submitter.WithModel` | ai/local_ai_api.py:93-94 | the parameters gain a `model` key and no other; every other key keeps its value; a truthy model is kept and a falsy or absent one becomes the default |
| `Submitter.CreateSpec` | ai/local_ai_api.py:80-112 | definition, no contract of its own: `create_response`: the input check, the default model, the submission, then `AfterSubmit`; stated by the `Submitter.Create...` lemmas |
| `Submitter.AfterSubmit` | ai/local_ai_api.py:97-112 | definition, no contract of its own: the tail of `create_response`: a failed submission is returned, a job id is polled for with the corrected options, anything else is returned; stated by `Submitter.PollIfQueued` and `Submitter.CreatePollsOnlyWithJobId` |
| `Submitter.CreateResponse` | ai/local_ai_api.py:80-112 | `create_response` works on a copy of the parameters and answers as `CreateSpec` describes, polling with the corrected status-call options |
| `Submitter.CreateInputMissing` | ai/local_ai_api.py:85-90 | without a non-empty `input` list, `input_missing` and nothing sent |
| `Submitter.CreatePassesFailure` | ai/local_ai_api.py:96-98 | a failed submission is returned as it is, and nothing is polled |
| `Submitter.CreateSubmits` | ai/local_ai_api.py:92-96 | the submitted body keeps `input`, has a truthy model, which is the caller's when truthy and the configured default when falsy or absent, and has a `project_uuid` |
| `Submitter.CreateWithoutUuid` | ai/local_ai_api.py:128-134 | without a project UUID nothing is sent |
| `Submitter.PollIfQueued` | ai/local_ai_api.py:100-112 | after the submission, a successful reply whose data carries `ai_request_id` is polled for; any other reply is returned as it is |
| `Submitter.RequestSucceedsOnlyWithUuid` | ai/local_ai_api.py:120-134 | a request succeeds only when its path resolves and a project UUID is configured |
| `Submitter.RequestSuccessIsTwoHundred` | ai/local_ai_api.py:156-157 | a successful request always reports a 2xx status |
| `Submitter.CreatePollsJob` | ai/local_ai_api.py:100-110 | a job id in the reply leads to at least one status poll for that job |
| `Submitter.CreatePollsOnlyWithJobId` | ai/local_ai_api.py:100-112 | polling happens exactly when the accepted submission returns a job id; without one the submission's reply is the result |
| `Submitter.CreateSuccessIsTwoHundred` | ai/local_ai_api.py:80-112 | every successful result carries a 2xx status |
| `Submitter.CreatePollsKeepTls` | ai/local_ai_api.py:105-110 | with the corrected polling options, the status polls started by `create_response` verify certificates as configured; as written none of them does (`Submitter.CreatePollsSkipTlsAsWritten`) |
| `Submitter.AfterSubmitAsWritten` | ai/local_ai_api.py:97-112 | definition, no contract of its own: the tail of `create_response` as written, polling through `Poller.AwaitSpecAsWritten` |
| `Submitter.CreateSpecAsWritten` | ai/local_ai_api.py:80-112 | definition, no contract of its own: `create_response` as written |
| `Submitter.CreatePollsSkipTlsAsWritten` | ai/local_ai_api.py:100-110 | as written, no status poll started by `create_response` verifies certificates, even when the configuration asks for verification, because `create_response` never passes `verify_tls` |

## Left out

- Real HTTP and TLS (`urllib`, `ssl`) are not modelled. The transport is the `World` oracle, and a request records only the truth value of its TLS switch.
- `json.dumps` is not modelled: a request carries the payload as a JSON value. `json.loads` is an uninterpreted partial function supplied by the `World`.
- The UTF-8 decoding of the body, with replacement characters, is not modelled: the body is already a string.
- The wall clock and `time.sleep` are not modelled. The clock is the `Trace`'s `now`; each exchange advances it by its duration and each sleep by exactly the interval.
- File system access is not modelled: the `.env` file is its lines, or None when it does not exist. An `OSError` while reading, and the path computation, are left out.
- `os.environ` is not mutated: the environment is a map passed in and returned.
- `_CONFIG_CACHE` is not modelled. Operations take the resolved `Config` as a parameter, so the configuration is resolved once per run.
- The `ValueError` of `_config` for a non-integer AI_TIMEOUT is modelled as `Config.ConfigFromEnv` returning None. The operations take an already resolved configuration.
- The `int()` coercions of option values (`timeout`, `poll_timeout`, `poll_interval`) are not modelled. The options are already integers, and a `ValueError` from them is not represented.
- Python None and "" for configuration strings are not distinguished. The client only tests them for truth, where both are false.
- `Json.PyStr`: does not render the `repr` of lists and dicts. For those it gives a placeholder, `[...]` or `{...}`.
- `Strings.ParseInt`: accepts only ASCII digits, while Python's `int()` also accepts other Unicode decimal digits.
- `Strings.Lower`: lowers only ASCII letters. No other character lowers to a letter of "0", "false" or "no", with one exception: KELVIN SIGN lowers to `k`, which does not occur in them. The TLS test therefore has the same outcome.
- A `headers` option that is a string or a dict is not distinguished from a list: the model takes the items Python would iterate, as a sequence of JSON values.
- The `LocalAIApi` wrapper class (`ai/local_ai_api.py:59-77`) is not modelled. It replaces a falsy payload or options (None or an empty dict) with a new empty dict, so an empty caller payload is not updated in place; `Submitter.Request` models the direct call of `request`. The public `extract_text` (`ai/local_ai_api.py:240-242`) only calls `_extract_text`. It is `Extractor.ExtractedTextAsWritten` as written, and `Extractor.ExtractedText` once corrected.
- Concurrent callers sharing the configuration cache are not modelled.
- `core/*` and `ai/__init__.py` are not part of this model.
- `Poller.AwaitResponse`: models the corrected `await_response`, which passes `verify_tls` to `fetch_status` only when the caller gave one (first row of "## Findings"). The code as written is `Poller.AwaitSpecAsWritten`.
- `Poller.AwaitOutcome`: its TLS clause holds for the corrected status-call options only. As written, no poll verifies certificates when the caller gives no `verify_tls` (`Poller.AwaitSkipsTlsAsWritten`).
- `Submitter.CreateResponse`: models the corrected `create_response`, whose polls go through the corrected `await_response`. The code as written is `Submitter.CreateSpecAsWritten`.
- `Submitter.CreatePollsKeepTls`: holds for the corrected polling only. As written, no status poll of `create_response` verifies certificates (`Submitter.CreatePollsSkipTlsAsWritten`).
- `Extractor.ExtractText`: models the corrected `_extract_text`, which gives "" where the code as written raises `AttributeError` on a first choice that is not a dict (second row of "## Findings"). The code as written is `Extractor.ExtractedTextAsWritten`.
- `Extractor.DecodeJsonFromResponse`: decodes the text of the corrected extraction. As written, `decode_json_from_response` calls `_extract_text` outside its `try`, so the same input makes it raise instead of returning None.
- JSON numbers are integers only (`Json.JNum` holds an `int`). Floats are not modelled, so `str()` of a float block text, error or job id is not represented.
- `urlrequest.Request` (`ai/local_ai_api.py:347`) is called outside the `try`. A URL it refuses, such as a relative path with an empty AI_PROXY_BASE_URL, raises `ValueError` out of `request` and `fetch_status`. The model has no URL validation: `Http.Send` passes every URL to the `World`, and a raised error becomes a `request_failed` reply.
- `Endpoints.BuildUrlRelative`: stated only for paths that do not start with `h`. This keeps the absolute-URL test out of the proof. `Endpoints.BuildUrlJoins` covers every path.

## Findings

| source | as written | input that shows it | evidently intended | confidence | as-written member | corrected member |
|---|---|---|---|---|---|---|
| ai/local_ai_api.py:206-210 | `await_response` always passes `verify_tls` to `fetch_status`, as None when the caller gave none, so line 178 never falls back to the configuration and every status poll disables certificate checks | `create_response` (which never passes `verify_tls`) with the default configuration, where AI_VERIFY_TLS is unset and verification is on: the submission verifies certificates and the status polls do not | pass `verify_tls` on only when given, so the configured setting applies | not executed | `Poller.StatusCallOptionsAsWritten`, `Poller.StatusPollSkipsTlsAsWritten`, `Poller.AwaitSkipsTlsAsWritten`, `Submitter.CreatePollsSkipTlsAsWritten` | `Poller.StatusCallOptions`, `Poller.StatusPollKeepsTls`, `Poller.AwaitOutcome`, `Submitter.CreatePollsKeepTls` |
| ai/local_ai_api.py:288-290 | `choices[0].get("message")` is called on whatever the first choice is, so a first choice that is not a dict raises `AttributeError` | `{"success": true, "data": {"choices": ["x"]}}` | return "" when the first choice is not a dict, as for every other malformed payload | not executed | `Extractor.ExtractedTextAsWritten`, `Extractor.ExtractTextRaisesAsWritten` | `Extractor.ExtractedText`, `Extractor.ExtractedTextAgrees` |
