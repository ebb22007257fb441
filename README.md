# Webhook delivery and rate limiting of Personal Link Dashboard, in Dafny

This project models the two server-side library modules of Personal Link
Dashboard, a Next.js application in which users keep dashboards of links.

**Webhooks** (`src/lib/webhook.ts`, module `Webhooks` in `webhook.dfy`).
When a link, category or dashboard changes, `triggerWebhook` selects the
dashboard's active webhooks whose comma-separated `events` column lists the
event or the wildcard `*`. For each one, `deliverWebhook` creates a delivery
record in `pending` with zero attempts and runs `attemptDelivery`. That POSTs
the JSON payload, signed with HMAC-SHA-256 when the webhook has a secret, up
to three times. It waits 2^n seconds after a failed attempt n. The record
ends in `success` or `failed` with the attempt number and at most 1000
characters of response or error text. Afterwards the webhook's
`lastTriggered` is stamped. `testWebhook` sends one sample delivery and
reports `{success, message, statusCode?}`. Registration relies on it.

**Rate limiting** (`src/lib/rateLimit.ts`, module `RateLimit` in
`ratelimit.dfy`). `rateLimit` counts requests per key `identifier:pathname`
in a process-wide map of fixed windows. A request that finds no window, or
one whose reset time lies before now, opens a fresh window. The result
reports success while the count is within the ceiling. A periodic sweep
deletes expired windows. `createRateLimitErrorResponse` builds the 429
response with a `Retry-After` in whole seconds rounded up, and
`addRateLimitHeaders` copies the counters onto a normal response. The four
`RateLimitConfigs` policies are the constants `Strict`, `Moderate`,
`Lenient` and `Tracking`.

**Shared text operations** (module `Text` in `text.dfy`). These are the
JavaScript string operations the two modules use: `split`, `join`, `trim`,
`substring(0, n)` and integer `toString`, plus a decimal reader used to
state that rendered numbers can be read back.

How the model is built:

- The database tables are maps in the class `Webhooks.WebhookStore`.
  - Webhooks are keyed by id.
  - Delivery records are keyed by a counter that stands for fresh row ids.
- The rate limiter's map is the field of the class `RateLimit.RateLimiter`.
- `attemptDelivery` is a loop over the attempt number in
  `WebhookStore.AttemptDelivery`. It is proved against `Retry`, a function
  that describes the whole chain as a value: final status, attempts, stored
  text and waits.
- `fetch` is a `Network`, a function from the attempt number to a response
  or a thrown error.
  - `Trigger` gets one network per webhook id.
- The HMAC, `JSON.stringify` and the clock are parameters:
  - the HMAC is a `Signer`;
  - `JSON.stringify` is a `Serializer`;
  - each clock reading is an `int`.
- Waits are returned as data and do not take real time.

Behaviour of the code worth knowing, which the model follows:

- A delivery record stays `pending` with `attempts = 0` until its chain
  ends. The record is created with `attempts: 0` (src/lib/webhook.ts:98),
  and `attempts` is written only on success (line 156) or on the final
  failure (line 177).
- No 8-second wait ever happens, though the comment at
  src/lib/webhook.ts:168 reads "2s, 4s, 8s". There is no retry after
  attempt 3, so the waits are at most 2000 ms then 4000 ms
  (`Webhooks.BackoffSchedule`).
- The limiter uses fixed windows that restart once expired, though the
  comment at src/lib/rateLimit.ts:36 says "sliding window algorithm".
- `lastTriggered` is stamped only after the whole retry chain has been
  awaited (src/lib/webhook.ts:103-109).
- The delivery chain reads the response text before it looks at the
  status (src/lib/webhook.ts:148). `testWebhook` reads the text only for a
  status that is not ok (lines 222-233). So an ok response whose text
  cannot be read passes the test but fails a delivery attempt, and a
  failed read after a non-ok status leaves the test without a status
  code. `fetch`'s answer is therefore one of three: a response with its
  text, a response whose text could not be read, or a thrown error.

## Model

| member | source | states |
|---|---|---|
| Text.Split | src/lib/webhook.ts:49 | `split` always yields at least one piece, and no piece contains the separator |
| Text.JoinSplit | src/lib/webhook.ts:49 | joining the pieces of a split with the same separator gives back the original string |
| Text.SplitJoin | src/lib/webhook.ts:49 | splitting a non-empty list of comma-free names that registration stored joined with "," gives back exactly that list |
| Text.TrimStart | src/lib/webhook.ts:49 | the result is a suffix that does not start with whitespace, and everything removed was whitespace |
| Text.TrimEnd | src/lib/webhook.ts:49 | the result is a prefix that does not end with whitespace, and everything removed was whitespace |
| Text.Trim | src/lib/webhook.ts:49 | what `trim` keeps neither starts nor ends with whitespace, and it is empty exactly when the string is all whitespace |
| Text.TrimTrimmed | src/lib/webhook.ts:49 | trimming again changes nothing |
| Text.TrimFixed | src/lib/webhook.ts:49 | a string without whitespace at either end is left unchanged by `trim` |
| Text.Truncate | src/lib/webhook.ts:157 | `substring(0, n)` is a prefix of at most n characters, the whole string when it is short enough, and exactly n characters otherwise |
| Text.NatToString | src/lib/rateLimit.ts:85-87 | `toString` of a non-negative integer is a non-empty string of digits with no leading zero |
| Text.ParseNatToString | src/lib/rateLimit.ts:85-87 | reading back the decimal rendering of a natural number gives the number |
| Text.ParseIntToString | src/lib/rateLimit.ts:85-87 | every integer's rendering is an optional minus sign followed by digits, and reads back as the same integer |
| Webhooks.Relevant | src/lib/webhook.ts:40-51 | a stored webhook is selected exactly when it belongs to the dashboard, is active, and subscribes to the event |
| Webhooks.SubscribesPiece | src/lib/webhook.ts:48-50 | a webhook subscribes to an event exactly when some comma-separated piece of its events column, trimmed, is the event's name or "*" |
| Webhooks.WildcardSubscribesAll | src/lib/webhook.ts:50 | a column with a "*" piece subscribes to every event |
| Webhooks.SubscribesToJoined | src/lib/webhook.ts:48-51 | for an events column stored as comma-free names joined with ",", a webhook listens to an event exactly when one of the trimmed names is the event or "*" |
| Webhooks.SubscribesToTrimmedNames | src/lib/webhook.ts:48-51 | for names that need no trimming, a webhook listens exactly when the event or "*" is one of the registered names |
| Webhooks.ExampleSubscribes | src/lib/webhook.ts:48-51 | the column of ["link.created", "link.clicked"] selects exactly those two events |
| Webhooks.SubscribesExample | src/lib/webhook.ts:48-51 | the column "link.created,link.clicked" selects link.created but not category.created |
| Webhooks.DispatchExample | src/lib/webhook.ts:40-51 | dashboard D1's one active webhook W1 on link.created and link.clicked receives link.created. A category.created event on D1 reaches nobody. So does any event once W1 is inactive, and any event on another dashboard |
| Webhooks.RequestHeaders | src/lib/webhook.ts:130-139 | the headers hold the JSON content type and the fixed user agent. The signature header is present exactly when the secret is truthy (present and non-empty), and then holds the HMAC of the payload under the secret |
| Webhooks.AttemptResultOf | src/lib/webhook.ts:141-164 | an attempt succeeds exactly when a response with a status from 200 to 299 arrived and its text was read, and then it delivers the text. A readable non-ok response is the error "HTTP status: text". A failed read or a thrown value is an error with the thrown message, or "Unknown error" when the thrown value is not an Error |
| Webhooks.Backoff | src/lib/webhook.ts:168 | the wait after attempt 0 would be 1000 ms, and each later wait doubles the one before |
| Webhooks.Retry | src/lib/webhook.ts:115-183 | a chain from attempt a ends in success or failure, after between a and 3 attempts, with one wait per attempt after the first |
| Webhooks.RetryBounds | src/lib/webhook.ts:122-180 | a chain always ends in success or failure after at most 3 attempts. It waits 2^n * 1000 ms after each failed attempt n that is followed by another attempt, and stores at most 1000 characters |
| Webhooks.RetryOutcome | src/lib/webhook.ts:150-180 | a chain succeeds exactly when some attempt is ok, and stops at the first such attempt with its truncated text. Every earlier attempt failed. Otherwise it fails with attempts = 3 and the truncated message of the third error |
| Webhooks.BackoffSchedule | src/lib/webhook.ts:166-170 | from the first attempt, the waits are 2000 ms and then 4000 ms, one fewer than the attempts made, and never 8000 ms |
| Webhooks.FailTwiceThenSucceed | src/lib/webhook.ts:150-170 | failing twice and then succeeding ends in success with attempts = 3 after waits of 2000 and 4000 ms |
| Webhooks.FailThrice | src/lib/webhook.ts:166-180 | failing three times ends in failure with attempts = 3, and no fourth attempt is made |
| Webhooks.SettledWellFormed | src/lib/webhook.ts:150-180 | the record a chain settles is terminal and well formed, keeping its webhook and payload |
| Webhooks.NewDelivery | src/lib/webhook.ts:92-100 | a new delivery record is pending, with 0 attempts and no response, and carries the given webhook id, event and serialized payload |
| Webhooks.WebhookStore.CreateDelivery | src/lib/webhook.ts:92-100 | inserts one pending record under a fresh id and leaves all other records as they were |
| Webhooks.WebhookStore.AttemptDelivery | src/lib/webhook.ts:115-183 | a missing record means no change and no request. Otherwise only that record changes, to the end state of the chain. Every attempt sends the same signed request, and the waits are the chain's |
| Webhooks.WebhookStore.DeliverWebhook | src/lib/webhook.ts:70-110 | a missing webhook changes nothing. Otherwise exactly one new record holds the serialized payload, settled by the chain, and only this webhook's `lastTriggered` is set to now, whatever the outcome |
| Webhooks.WebhookStore.Trigger | src/lib/webhook.ts:33-65 | every selected webhook, and no other, gets exactly one new settled record and a new `lastTriggered`. Existing records and the other webhooks are unchanged |
| Webhooks.WebhookStore.DeliverNext | src/lib/webhook.ts:54-56 | delivering to one more selected webhook extends the set of stamped and recorded webhooks by exactly that webhook |
| Webhooks.StampedStep | src/lib/webhook.ts:106-109 | stamping one more webhook keeps every other webhook's row as it was |
| Webhooks.RecordedStep | src/lib/webhook.ts:92-103 | adding one settled record under a fresh id keeps every earlier record and records the new webhook |
| Webhooks.TestRequest | src/lib/webhook.ts:194-220 | the test sends a link.clicked payload for dashboard "test" with the sample data, signed like a real delivery |
| Webhooks.TestWebhook | src/lib/webhook.ts:222-240 | the test succeeds exactly when a response arrived with a status from 200 to 299, without reading its text. It carries the status code for a readable response and for an ok one. It carries no status code when nothing arrived, or when the text of a non-ok response could not be read. On failure the message is the delivery attempt's error message |
| Webhooks.TestAgreesWithFirstAttempt | src/lib/webhook.ts:188-241 | unless the text of the answer cannot be read, the test passes exactly when a delivery chain given the same answer succeeds at its first attempt. When the test fails, that chain's first attempt fails with the same message and the chain retries |
| Webhooks.TestPassesWhereAttemptFails | src/lib/webhook.ts:148-150 | an ok response whose text cannot be read passes the test, yet the first delivery attempt given that answer fails and is retried |
| RateLimit.FirstPiece | src/lib/rateLimit.ts:47 | the first piece of `split(",")` is the longest comma-free prefix |
| RateLimit.ClientIdentifier | src/lib/rateLimit.ts:47-50 | the identifier is never empty. It is the configured identifier if non-empty; else the first comma piece of x-forwarded-for, untrimmed, if non-empty; else x-real-ip if non-empty; else "unknown" |
| RateLimit.KeyLayout | src/lib/rateLimit.ts:51 | a key is the identifier, a colon, then the path |
| RateLimit.KeyInjective | src/lib/rateLimit.ts:51 | for identifiers without a colon, two requests share a window key exactly when they share identifier and path |
| RateLimit.NextWindow | src/lib/rateLimit.ts:54-65 | a missing or expired window restarts with count 1 and reset now + windowMs. Otherwise the count grows by exactly 1 and the reset time is kept |
| RateLimit.RestartsExactlyWhenStale | src/lib/rateLimit.ts:56-64 | the count after a call is 1 exactly when there was no window or its reset time was before now. At reset time == now the old window is still used |
| RateLimit.Report | src/lib/rateLimit.ts:67-75 | success holds exactly when the count is within the ceiling. Remaining is max(0, max - count), so never negative. Limit and reset are those of the window |
| RateLimit.Hit | src/lib/rateLimit.ts:51-65 | a request stores a window for its key and leaves every other key as it was |
| RateLimit.HitsWithinWindow | src/lib/rateLimit.ts:54-65 | requests made no later than a window's reset time each add exactly 1 to its count and keep its reset time |
| RateLimit.HitsElsewhere | src/lib/rateLimit.ts:51-65 | any number of requests on one key leave every other key untouched |
| RateLimit.NthRequestOfWindow | src/lib/rateLimit.ts:54-75 | the n-th request of a window is admitted exactly when n is at most the ceiling, and leaves max(0, ceiling - n) requests |
| RateLimit.StrictPolicyExample | src/lib/rateLimit.ts:119-122 | under the strict policy (20 per 15 minutes) the 20th request of a window passes with 0 remaining and the 21st is refused |
| RateLimit.Unexpired | src/lib/rateLimit.ts:13-20 | the sweep keeps exactly the windows whose reset time is not before now, unchanged |
| RateLimit.SweepIsUnobservable | src/lib/rateLimit.ts:13-20 | a sweep at any time up to now does not change the window a request stores or what it reports |
| RateLimit.RateLimiter.Check | src/lib/rateLimit.ts:38-76 | only the entry of key `identifier:pathname` changes, to the next window, and the result is the report on it. Every stored window keeps a count of at least 1 |
| RateLimit.RateLimiter.Sweep | src/lib/rateLimit.ts:13-20 | the store afterwards holds exactly the unexpired windows of the store before |
| RateLimit.RetryAfter | src/lib/rateLimit.ts:95 | Retry-After is the number of seconds until reset rounded up: the smallest s with reset - now <= 1000 s |
| RateLimit.LimitHeaders | src/lib/rateLimit.ts:85-87 | the counters are sent as exactly the three X-RateLimit headers |
| RateLimit.LimitHeadersReadBack | src/lib/rateLimit.ts:85-87 | a client parsing the three headers gets back the limit, remaining and reset of the result |
| RateLimit.ErrorHeaders | src/lib/rateLimit.ts:95-109 | the 429 response carries exactly the JSON content type, the limit and reset as decimal text, X-RateLimit-Remaining fixed to "0", and Retry-After as the decimal text of the rounded-up seconds until reset |
| RateLimit.ErrorHeadersReadBack | src/lib/rateLimit.ts:95-109 | a client parsing the 429 headers gets back the limit, 0 remaining, the reset time, and a Retry-After of s seconds with (s - 1) * 1000 < reset - now <= s * 1000 |
| RateLimit.RejectionHeadersAgree | src/lib/rateLimit.ts:106-108 | for a refused request, the 429 counter headers equal those of the success path, because remaining is then 0 |
| RateLimit.AddRateLimitHeaders | src/lib/rateLimit.ts:81-89 | sets the three counter headers, keeps all other headers and the status, and returns the same response |
| RateLimit.CreateRateLimitErrorResponse | src/lib/rateLimit.ts:94-112 | a new response with status 429, the error body with its retry delay, and the 429 headers |

## Left out

- `Promise.all` fan-out: concurrency is not modelled. `triggerWebhook` does not await it, so its deliveries run concurrently. `Trigger` runs them one after another in an arbitrary order. Interleavings of attempts across webhooks are not captured.
- Clock per delivery: `Trigger` uses one clock reading and one timestamp string for all deliveries of an event. The source reads the clock separately in each `deliverWebhook`.
- Timing of answers: in `Trigger`, the answer `fetch` gives depends only on the webhook id and the attempt number. It does not depend on when an attempt runs or on the order of attempts across webhooks.
- Concurrent record changes: no other process creates, changes or deletes records or webhooks while a chain runs. So the "record missing" check of `attemptDelivery` matters only before the first attempt.
- Errors thrown by the database client (`findMany`, `create`, `update`) are not modelled, nor the `catch` blocks that log them.
- Timeouts and waits: the 10-second fetch timeout is not modelled. A timeout is one more thrown error, or a failed text read when it fires while the text streams. The backoff waits are returned as numbers rather than slept.
- HMAC-SHA-256 and `JSON.stringify` are uninterpreted parameters. The model assumes only that they are functions, i.e. deterministic.
- Clock readings are `int` parameters. `new Date().toISOString()` is a string parameter.
- Strings are sequences of Unicode characters, not UTF-16 code units. So `substring(0, 1000)` on text outside the Basic Multilingual Plane is not modelled exactly.
- Header names: the case-insensitive lookup of HTTP header names is not modelled. Request headers are a map by lower-case name.
- Response objects: of a `NextResponse`, only the status, headers and error body are modelled.
- Sweep scheduling: the `setInterval` timer is not modelled. `RateLimiter.Sweep` is the body of one run, with the clock as a parameter.
- In-place update of the window: `data.count++` mutates the stored object, and the model replaces the map entry with an updated value. No other code holds a reference to the object, so the effect is the same.
- Logging through `console.error` is not modelled.
- JavaScript numbers are doubles and the model uses unbounded integers. Above 2^53 integers lose precision, and from 1e21 `toString` switches to exponent form. The values here stay far below both: clock readings near 1.7e12 ms, windows of at most 900000 ms, and small counts.
