# AI billing assistant: intent resolution, payment cache and dispatch

This project models the core of the backend in `backend/server.js`. The backend turns a chat message
into a billing operation, runs it against a billing REST service, and answers in the chat. The
model covers the following parts.

- **Keyword resolver** (`fallbackIntentParsing`). It lower-cases the message and tests it for
  greeting, "detail", pay and bill keywords, in that priority order.
  - It finds a month name from a 24-entry English/Turkish table.
  - It finds the first standalone `20xx` year.
  - It takes the first run of ten or more digits as the subscriber number.
  - For payments only, it takes the amount: the first numeral before the first " for ", else the
    first numeral followed by `tl`, `lira` or `₺`.
  - The month search is the source's `for … break` loop, written as the method `Fallback.FindMonth`
    with loop invariants. The resolver method is proved equal to the function `Fallback.FallbackIntent`.
- **Language-model reply normalisation** (`parseIntentWithOllama`).
  - The reply text is cut to the span from its first `{` to its last `}`, then parsed.
  - The parsed object is normalised in place:
    - a default subscriber number when it is falsy;
    - the current month when the month is falsy or `"null"`;
    - the amount coerced to a number or `null`.
  - Any failure falls back to the keyword resolver.
  - The model's reply and `JSON.parse` are parameters.
- **Token state** (`authToken`, `initializeAuth`, `refreshAuth`). This is the class `Auth.AuthSession`.
- **Payment cache** (`paymentCache`). This is the class `Cache.PaymentCache`.
  - It maps `${subscriberNo}-${month}` to the reported paid and remaining amounts and the time they
    were recorded.
  - An entry counts only while `now - timestamp < 300000`.
  - The bill-status overlay (`StatusFor` and `Overlay`) is applied to the simple bill query.
- **Dispatch** (`callMidtermAPI`). This is `Orchestrator.Call` as a specification and
  `Orchestrator.Server.CallMidtermAPI` as the method.
  - The source's swapped naming is kept:
    - `query_bill` asks the detailed endpoint and handles its own errors;
    - `query_bill_detailed` asks the simple endpoint and applies the cache overlay.
  - `pay_bill` posts a body that carries the amount only when it is positive. It remembers a
    payment that the backend reports as `"Successful"`.
  - The shared error handler does three things:
    - a 401 causes one more login and no retry;
    - a 404 or a message containing "not found" gives the no-bill message;
    - anything else gives `Error: <detail>`.
  - An unknown intent gets the "didn't understand" answer.
- **The chat turn** (`Orchestrator.Server.HandleMessage`). It resolves the intent. It answers a
  greeting with the help text and sends no backend request for it. Any other intent goes to
  `CallMidtermAPI`.

Inputs from outside the program are parameters:
- the backend's answers to each request (`Orchestrator.Backend`);
- the login answer;
- the language model's reply and the JSON parser;
- the millisecond clock `now` and the calendar clock `Clock(year, month)`.

The requests the server sends are recorded in a ghost history. This makes statements about them
possible, such as "exactly one login after a 401". User-facing messages are the datatype
`Orchestrator.Message`. It carries the values that each message text interpolates.

JSON values are `JsonValues.Json`. They follow JavaScript truthiness, and `JsonValues.Text` models
JavaScript's `String(v)`. The cache key and the request URLs are built from `String(v)`, so a
subscriber number or month of any JSON type is keyed as the source keys it.

### Where the keyword resolver and the language model differ

The keyword resolver is the fallback for messages the language model does not turn into JSON. It
does not read these messages the way the program's comments and prompt describe.
- The comment at `backend/server.js:50` gives `'Ocak borcum ne?'` ("what do I owe for January?") as a
  typical message. It contains none of the resolver's keywords, so the resolver's intent is
  `unknown`. Its month is `<current year>-01`.
- The prompt at `backend/server.js:105-109` asks the model to read `"pay 100TL for 2025-01"` as
  amount 100 for month `2025-01`. The resolver finds no month *name* in it, so it keeps the current
  month. It does read the intent `pay_bill` and the amount 100.

## Model

| member | source | states |
|---|---|---|
| Strings.ContainsIff | backend/server.js:185-197 | `includes` holds exactly when the keyword occurs at some position of the message |
| Descriptors.IntentOf | backend/server.js:262-414 | a branch is chosen exactly when the intent is that branch's wire name as a string; any other value, of any type, is unknown |
| Descriptors.CurrentPeriodIsPeriod | backend/server.js:178-179 | the current month text is a well-formed `YYYY-MM` (month 01..12) that starts with the clock's year |
| Fallback.ClassifyPriority | backend/server.js:181-197 | greeting words beat "detail" words, which beat pay words, which beat bill words; the intent is unknown exactly when no group is mentioned (both directions for each intent) |
| Fallback.ThisIsAGreeting | backend/server.js:185-186 | matching is plain substring: "this" contains "hi" and is a greeting |
| Fallback.MonthNumbersValid | backend/server.js:200-211 | every month number in the table is two digits with a value from 1 to 12 |
| Fallback.MonthIndex | backend/server.js:217-222 | the first table entry whose name occurs in the message, and no earlier entry occurs; none when no name occurs |
| Fallback.YearIndex | backend/server.js:213-216 | the first position of a standalone `20xx`, bounded by non-word characters; none when there is no such position |
| Fallback.SubscriberIn | backend/server.js:224-225 | no subscriber number exactly when there is no run of ten digits; otherwise ten or more digits |
| Fallback.SubscriberIsFirstLongRun | backend/server.js:224-225 | the number is the whole digit run around the first ten-digit window, with no digit before or after it |
| Fallback.BeforeFor | backend/server.js:230 | the text before the first whitespace-delimited "for": a prefix of the message, ending at that separator, or all of it when there is none |
| Fallback.AmountBeforeFor | backend/server.js:231-234 | with a digit before the first " for ", the amount is the numeral at the message's first digit, which can be a year or a subscriber number |
| Fallback.AmountFromCurrency | backend/server.js:235-239 | with no digit before " for ", the amount is the first numeral followed by `tl`, `lira` or `₺` anywhere |
| Fallback.NoAmount | backend/server.js:227-240 | with neither kind of numeral, there is no amount |
| Fallback.FallbackIntentParsing | backend/server.js:176-248 | the resolver method computes `FallbackIntent` |
| Fallback.FindMonth | backend/server.js:213-222 | the year is the text's first standalone `20xx` or the current year; the month table is searched by a loop that stops at the first name found; the result is `MonthOf`, whose properties `FallbackPeriod` states |
| Fallback.FallbackSubscriber | backend/server.js:224-225 | the subscriber number is always ten or more digits; it is the default when the message has no such run |
| Fallback.FallbackPeriod | backend/server.js:199-222 | the month is the current period unless a month name occurs; then it is the text's year (or the current year) with that name's number; it is always a well-formed `YYYY-MM` |
| Fallback.FallbackAmountOnlyForPay | backend/server.js:227-240 | only a `pay_bill` descriptor carries an amount; for `pay_bill` it is the scanned amount |
| Resolver.SpanBounds | backend/server.js:130 | the span runs from the first `{` to the last `}`; there is no span exactly when no `{` comes before a `}` |
| Resolver.JsonSpan | backend/server.js:130-133 | the text handed to the parser starts with `{` and ends with `}` |
| Resolver.SpanStripsProse | backend/server.js:128-131 | prose without braces around the object is cut away, and the object is kept whole |
| Resolver.CoercedAmount | backend/server.js:143-158 | the amount becomes `null` or a number; a truthy number is kept; a string yields a number exactly when it holds a digit; a truthy boolean, array or object becomes `null`; a negative amount can only come from a number in the reply |
| Resolver.TextAmountIsFirstNumeral | backend/server.js:145-149 | a text amount becomes the numeral (`\d+\.?\d*`) that starts at its first digit |
| Resolver.NormalizedFields | backend/server.js:135-158 | after normalisation the subscriber number is truthy and kept when it was, and the month is present, never `"null"`, and kept when it was; the amount is the coerced one; every other property is untouched |
| Resolver.NormalizeParsed | backend/server.js:135-158 | the in-place property updates compute `Normalized` |
| Resolver.DescriptorOf | backend/server.js:160 | the descriptor copies the intent, subscriber number and month of the normalised object; it has no amount exactly when the normalised amount is `null`, and otherwise that number's value |
| Resolver.ParseIntentWithOllama | backend/server.js:126-173 | the resolution computes `ResolveIntent`: either the normalised parse or the keyword fallback |
| Resolver.ResolvedIsPopulated | backend/server.js:135-172 | whichever path is taken, the descriptor has a truthy subscriber number and a truthy month other than `"null"` |
| Resolver.FallbackPopulated | backend/server.js:224-247 | the keyword resolver's subscriber number and month are truthy, and the month is not `"null"` |
| Resolver.NoSpanFallsBack | backend/server.js:130-172 | a reply in which no `{` precedes a `}` is resolved by keywords |
| Resolver.FailedReplyFallsBack | backend/server.js:126-172 | a failed model call, or a span that does not parse, is resolved by keywords |
| Resolver.ParsedReplyDescriptor | backend/server.js:133-160 | a parsed reply's intent passes through unchecked; a truthy subscriber and a present month are kept; otherwise the defaults apply; the amount is absent exactly when its coercion is `null`, and otherwise it is the coerced number's value |
| Resolver.SignedTextAmount | backend/server.js:145-149 | the text amount "-5" becomes 5 |
| Auth.AuthSession.constructor | backend/server.js:44 | the token starts out `null` |
| Auth.AuthSession.InitializeAuth | backend/server.js:56-70 | login succeeds exactly when the request does; the token is the returned one, or `null` after a failure |
| Auth.AuthSession.RefreshAuth | backend/server.js:72-74 | a refresh is a fresh login with the same outcome |
| Auth.AcceptedWithoutToken | backend/server.js:62-64 | an accepted login without a token reports success but leaves no usable token |
| Auth.RejectedClearsToken | backend/server.js:65-68 | a failed login clears the token; a usable token only comes from an accepted login |
| Cache.FreshEntry | backend/server.js:325-332 | an entry is used exactly when it exists for the key and `now - timestamp < 300000` |
| Cache.StatusAgreesWithData | backend/server.js:332-361 | the status line and the returned `paidStatus` agree, except that a recent payment with nothing remaining shows "Paid" while `paidStatus` keeps the backend's `false` |
| Cache.OverlayReflectsPayment | backend/server.js:351-361 | the overlay never changes the total, copies the cached amounts and sets `hasRecentPayment` when a recent payment exists, and otherwise returns the backend's record unchanged |
| Cache.StaleTimerHidesFreshPayment | backend/server.js:389-397 | as written, an earlier payment's timer deletes a newer, still fresh entry under the same key |
| Cache.StaleTimerExample | backend/server.js:389-397 | the same, for payments at 0 s and 200 s and a query at 350 s |
| Cache.ExpiryKeepsFreshEntries | backend/server.js:397 | the corrected expiry, once due, changes what no query sees, and removes the entry it was set for |
| Cache.CorrectedTimerKeepsNewerPayment | backend/server.js:389-397 | with the corrected expiry, the newer payment of the scenario stays visible |
| Cache.PaymentCache.constructor | backend/server.js:48 | the cache starts empty |
| Cache.PaymentCache.RecordPayment | backend/server.js:390-395 | the new entry replaces any earlier one for the key, leaves other keys alone, and is fresh when recorded |
| Cache.PaymentCache.QueryStatus | backend/server.js:325-361 | the status line and the returned data are `StatusFor` and `Overlay` of the entry that is fresh at `now` |
| Cache.PaymentCache.Evict | backend/server.js:397 | the source's timer action: the key is deleted whatever entry it holds |
| Cache.PaymentCache.ExpireEntry | backend/server.js:397 | the corrected timer action: the entry is deleted only if it is the one the timer was set for |
| Orchestrator.CacheKeyInjective | backend/server.js:325 | subscriber numbers without `-` never share a key: keys are equal exactly when subscriber and month are |
| Orchestrator.CacheKeyCollision | backend/server.js:390 | subscriber numbers with `-` can collide: "1-2" with month "3" and "1" with month "2-3" share a key |
| Orchestrator.DefaultMonthIsPeriod | backend/server.js:308-311 | a given month is used as its text `String(month)`, a period string unchanged; a missing month (falsy or `"null"`) becomes the current period, which is a well-formed `YYYY-MM` |
| Orchestrator.PayBillBody | backend/server.js:371-379 | the body carries the subscriber and month as given, and the amount exactly when it is positive |
| Orchestrator.DetailedQuery | backend/server.js:272-303 | the detailed branch never changes the token or the cache and sends nothing after its request |
| Orchestrator.SimpleQuery | backend/server.js:313-367 | the simple query never writes the cache and at most adds one login after its request |
| Orchestrator.PayAttempt | backend/server.js:382-406 | the payment branch at most adds one login after its request |
| Orchestrator.AtMostOneBillRequest | backend/server.js:251-454 | a call keeps the earlier history; it sends exactly one bill request for the three billing intents and none otherwise; it sends at most three requests; with a usable token it does not start with a login |
| Orchestrator.RequestFollowsIntent | backend/server.js:263-387 | the request after the preamble follows the swapped naming: `query_bill` asks the detailed endpoint, `query_bill_detailed` the simple one, and `pay_bill` posts `PayBillBody`, each with the working token, the subscriber's text and the defaulted month |
| Orchestrator.UnknownIntentAnswersDirectly | backend/server.js:408-413 | an unknown intent gets the fixed answer and no bill request, and the cache is unchanged |
| Orchestrator.UnauthorizedLogsInOnce | backend/server.js:415-438 | a 401 on the simple query or the payment adds exactly one login after the single bill request, with no retry; the message depends on whether that login worked; the token is the one that login produced |
| Orchestrator.DetailedQueryKeepsItsErrors | backend/server.js:295-303 | an error from the detailed query, even a 401, is reported with its non-empty detail, and the token is not renewed |
| Orchestrator.BillNotFoundIsNotFound | backend/server.js:440 | a message containing "Bill not found" also contains "not found", so the third test never decides |
| Orchestrator.FailureClassification | backend/server.js:440-452 | other than on a 401, the result is the no-bill message exactly when the status is 404 or the detail contains "not found", and `Error: <detail>` otherwise |
| Orchestrator.PaymentRecordedOnlyOnSuccess | backend/server.js:389-406 | a payment is remembered, under its key and with a timer, exactly when the backend reports "Successful"; then the call succeeds; no other call touches the cache |
| Orchestrator.ReadAfterPay | backend/server.js:325-395 | a simple query within five minutes of a payment shows the paid and remaining amounts; later it shows the backend's status |
| Orchestrator.Server.constructor | backend/server.js:44-48 | the server starts with no token, an empty cache, no timers and no requests sent |
| Orchestrator.Server.RecoverFrom | backend/server.js:415-453 | the shared error handler computes `Recover`: one login on a 401, and the classified message otherwise |
| Orchestrator.Server.FetchDetailedBill | backend/server.js:263-303 | the `query_bill` branch computes `DetailedQuery` |
| Orchestrator.Server.FetchBillSummary | backend/server.js:305-367 | the `query_bill_detailed` branch computes `SimpleQuery` |
| Orchestrator.Server.SubmitPayment | backend/server.js:369-406 | the `pay_bill` branch computes `PayAttempt` and schedules the timer it returns |
| Orchestrator.Server.CallMidtermAPI | backend/server.js:251-454 | the new token, the cache, the timers and the request history are those of `Call` |
| Orchestrator.Server.FireTimer | backend/server.js:397 | a pending timer fires as written: its key is deleted whatever entry it holds, and the timer is removed |
| Orchestrator.Server.FireTimerCorrected | backend/server.js:397 | the corrected timer action: the entry is deleted only if it is the one the timer was set for, and the timer is removed |
| Orchestrator.Server.HandleMessage | backend/server.js:481-512 | a greeting is answered with the help text and changes no state; any other descriptor is handed to `CallMidtermAPI`; its message, data and intent are returned, and the token, cache, timers and requests are those of `Call` |

## Left out

- Strings.Lower: covers ASCII, Latin-1 and the Turkish letters `Ğ`, `Ş` and `İ`. The rest of Unicode's lower-case mapping is not modelled.
- Number text: `String(x)` for a JSON number is exact only for decimal numerals. Exponent notation and binary floating-point rounding are not modelled. `parseFloat` is exact on the matched numeral. `toFixed(2)` formatting is not modelled.
- Message texts: the emoji, the Turkish/English wording and the line layout are not rendered. Each message is a `Message` constructor carrying the values the text interpolates.
- The language-model request and its prompt: they are not modelled. The reply is a parameter, `None` when the request fails or carries no text.
- `JSON.parse`: it is a parameter. A text that starts with `{` can only parse to an object, so the parser returns a map or nothing.
- The HTTP client: the backend's answers are parameters. A request is recorded with its bearer token, subscriber and month. The constant page parameters of the detailed query (page 1, size 10) and the credentials of the login request are not recorded.
- Malformed backend payloads: replies are typed records, so the source's `TypeError` paths are not modelled. In the source, a non-array `billDetails` throws inside the detailed query's own `try`, and `backend/server.js:295` reports it as a detailed-bill error. A missing pay reply body, or a non-number `remainingAmount` reaching `toFixed` at `backend/server.js:337`, is caught at `backend/server.js:415` and becomes `Error: <message>`. Only a throw inside that handler itself, such as a non-string `errorMessage` at `backend/server.js:440`, reaches the chat handler's apology at `backend/server.js:514`.
- The bill record's other properties: `{ ...data }` copies them unchanged, and only the properties the overlay reads or writes are modelled.
- Clock reads: one `now` and one `Clock` are used per call. The source reads the clock separately for each freshness test and for each default month; readings that straddle a boundary are not modelled.
- Timer timing: `setTimeout` is modelled as a list of pending timers that `Server.FireTimer` fires (or `Server.FireTimerCorrected`, for the corrected action). That a timer fires only after five minutes is a precondition of the expiry lemmas, not something the server enforces.
- Environment configuration: only the built-in defaults are modelled, such as the default subscriber number `1234567890`. Environment overrides are not modelled.
- The chat transport: Socket.io, Express, CORS, the health endpoint and the server start-up are not modelled. `HandleMessage` stands for the message handler's decision, including the greeting short-circuit.
- Concurrency: several connections share the token and the cache. Their interleaving is not modelled; every call runs to completion.
- The frontend is not part of this model.

## Findings

| source | as written | input that shows it | evidently intended | confidence | as-written member | corrected member |
|---|---|---|---|---|---|---|
| backend/server.js:397 | the expiry timer of a payment deletes the cache key unconditionally, even if a later payment has replaced the entry | pay for subscriber `1234567890`, month `2025-01` at t = 0 s and again at t = 200 s, then query the same month at t = 350 s: the first timer fired at 300 s and removed the second, still fresh entry, so the query shows the backend's possibly stale status | a timer removes only the entry it was scheduled for, so that freshness alone decides what a query sees | not executed | Cache.StaleTimerHidesFreshPayment | Cache.ExpiryKeepsFreshEntries |

The server's timer action `Orchestrator.Server.FireTimer` deletes by key through `Cache.PaymentCache.Evict`, as the source does.
`Orchestrator.Server.FireTimerCorrected` applies the corrected `Cache.PaymentCache.ExpireEntry` instead.
