# Tysun Mike Productions site — a Dafny model of its business rules

The site is an Express server for a music-production studio. Beneath the page serving and
the DOM effects sit a handful of small stateful rules, and this project models them and
proves properties of them:

- **loyalty milestone engine** — a delivered project bumps the client's counter, and a
  matching active promotion grants one voucher and an e-mail;
- **admin status update** — the route that triggers the engine;
- **PayPal routes** — the create-order price check, and capture-order with its purchase
  insert and its fire-and-forget confirmation mail;
- **rate limiter** — fixed windows, blocklisting and a sweep;
- **input validators** — including the HTML escaper;
- **signup and login** — both the auth router and the combined API router, plus the
  latter's token check and `/chat` persistence;
- **chatbot conversation store** — `/message`, `/end`, `/history` and the idle sweep;
- **error middleware** — its classifier;
- **server start-up** — the environment check and the catch-all page dispatcher;
- **client portal** — the progress bar and voucher list;
- **responsive-image URLs** — the rewrite that inserts the width.

One Dafny module per source file, plus `JsCore`, which models the few JavaScript string
built-ins the rules rely on: `trim`, ASCII `toLowerCase`, `startsWith`, `includes`,
`lastIndexOf`, a one-character `replace`, `slice` and decimal rendering.

Where the source mutates state (tables, the limiter's maps, the conversation store),
the model is a class.
- Its methods are tied by their postconditions to a pure function of the old state, for
  example `(Snapshot(), reply) == Complete(old(Snapshot()), ...)`.
- The properties are proved as lemmas about those functions.

External services are inputs to the operations:
- the PayPal gateway's answer;
- the AI model's reply or error;
- whether a mail is delivered;
- whether a database write fails;
- the token verifier's verdict;
- freshly generated ids;
- the clock, as an integer number of milliseconds.

Behaviour of the code worth knowing:
- `POST /create-order` accepts any truthy value that `parseFloat` can read.
  - Negative amounts and the string `"0"` pass.
  - Only falsy or unparsable prices are refused.
  - See `Payments.NonZeroNumbersAccepted` and `Payments.DigitLedTextAccepted`.
- The payments router writes a `status` column that the `purchases` schema in
  `routes/api.js` does not declare. `Payments.PurchaseRow` keeps the two routers' rows
  apart.
- The admin route and the validation helper list different statuses
  (`Admin.StatusListsDisagree`).
- The API router's login does not normalise the address. Lookups are case-sensitive,
  and an unknown address is answered 404 (`Api.LoginIsCaseSensitive`).
- `/message` reads only the in-memory store. A conversation evicted from memory
  restarts empty, and its stored transcript is overwritten (`Chatbot.ReplyPersistsTranscript`).
- The example in the documentation of `getResponsiveImageUrl` is not what the code
  computes (`ImageOptimization.DocumentedExampleNotProduced`).

## Model

| member | source | states |
|---|---|---|
| JsCore.Trim | src/utils/validation.js:54 | `trim()` returns an infix of the input whose two ends are not whitespace, with only whitespace cut on either side |
| JsCore.TrimNoOp | src/utils/validation.js:54 | trimming a string whose ends are not whitespace returns it unchanged |
| JsCore.TrimEmptyIffBlank | src/routes/chatbot.js:147 | `s.trim()` is empty exactly when every character of `s` is whitespace |
| JsCore.ToLower | src/routes/auth.js:30 | lower-casing keeps the length and maps each character on its own |
| JsCore.LastIndexOf | public/js/image-optimization.js:112 | `lastIndexOf` is -1 exactly when the character is absent; otherwise it points at the character, with no occurrence after it |
| JsCore.ReplaceFirst | public/js/portal.js:104 | a string pattern is replaced at most once; without an occurrence the text is unchanged |
| JsCore.ReplaceFirstSplits | public/js/portal.js:104 | only the first occurrence is replaced: the text before it and everything after it, later occurrences included, is kept |
| JsCore.Take | src/utils/validation.js:102 | `substring(0, n)` is a prefix of length `min(n, length)` |
| JsCore.Decimal | src/services/loyaltyServices.js:42 | a number is rendered as a non-empty run of decimal digits |
| JsCore.DecimalInjective | src/services/loyaltyServices.js:42 | different numbers render differently |
| Loyalty.Upserted | src/services/loyaltyServices.js:12-20 | the counter upsert creates a missing row at 1 and otherwise adds exactly 1; it stamps the completion time and leaves every other user's row alone |
| Loyalty.WithRow | src/routes/auth.js:31 | `ON CONFLICT DO NOTHING`: an existing loyalty row is kept as it is, and a missing one is created at 0 |
| Loyalty.WithRowThenComplete | src/routes/auth.js:31 | inserting the signup row twice is the same as once, and a first completion after signup counts 1 |
| Loyalty.MilestonePromotions | src/services/loyaltyServices.js:26-32 | the promotion query returns exactly the active `project_milestone` rows whose count equals the new count, in table order; it is empty exactly when no row matches |
| Loyalty.FirstMatch | src/services/loyaltyServices.js:38 | `promoRows[0]` is the first matching promotion: no earlier row matches |
| Loyalty.FullCode | src/services/loyaltyServices.js:42 | the untruncated code is the prefix, '-', the user id, '-', the timestamp, with its length the sum of the parts and two |
| Loyalty.VoucherCode | src/services/loyaltyServices.js:42 | the code is a prefix of `prefix-userId-timestamp` of at most 50 characters, and equals it when that fits |
| Loyalty.VoucherCodesDistinct | src/services/loyaltyServices.js:42 | untruncated codes of one promotion determine the user and the grant time, so two grants never share a code |
| Loyalty.LongPrefixCodesCollide | src/services/loyaltyServices.js:42 | a prefix of 50 characters or more gives every user and every instant the same code |
| Loyalty.VoucherFor | src/services/loyaltyServices.js:42-49 | the voucher belongs to the user and to the matched promotion, carries its description, is issued now, is valid for one year and is not redeemed |
| Loyalty.GetUserById | src/services/loyaltyServices.js:64-67 | the user's row if it exists, and none otherwise |
| Loyalty.Complete | src/services/loyaltyServices.js:8-60 | one completion always moves the counter by one, and with no match nothing else changes. With a match, a voucher is granted iff the insert succeeds; a failed insert adds no voucher and no mail. A granted voucher is the only one added, and is for the first matching promotion. The user is notified iff the user row exists and the mailer works, and exactly one mail is added iff a voucher was granted and the user was notified; it goes to the user's address and carries the voucher's code and description |
| Loyalty.CompletionsAdvanceCounter | src/services/loyaltyServices.js:12-20 | `n` completions in a row advance the counter by exactly `n` |
| Loyalty.CompletionsGrantEachMilestoneOnce | src/services/loyaltyServices.js:26-49 | `n` completions in a row append exactly `MilestoneVouchers`, in order: for each count reached that has a matching promotion, the first match's voucher, issued at that completion's instant. Their number is `MilestoneHits`, the number of counts reached that have a match |
| Loyalty.CompletionStep | src/services/loyaltyServices.js:12-49 | one successful completion adds a voucher exactly when the new count has a match |
| Loyalty.LoyaltyStore.EnsureRow | src/routes/auth.js:31 | the signup insert changes the loyalty table as `WithRow` does and touches no other table |
| Loyalty.LoyaltyStore.HandleProjectCompletion | src/services/loyaltyServices.js:8-60 | the method's new tables and its outcome are those of `Complete` |
| Admin.Update | src/routes/admin.js:14-46 | a status outside the eight admin statuses gives 400 and an unknown id gives 404, both changing nothing. Otherwise only that row's status and time change and the row is returned. The loyalty engine starts exactly on a successful move to `delivered` |
| Admin.UpdateAsWritten | src/routes/admin.js:38-43 | as written, the table changes as intended but the engine never starts; replies differ from the intended route only for `delivered` |
| Admin.DeliveryFailsAsWritten | src/routes/admin.js:41 | delivering an existing project stores `delivered`, answers 500 and never starts the engine, while the intended route starts it |
| Admin.StatusListsDisagree | src/routes/admin.js:19-22 | the admin list refuses `mixing`, which the validation helper accepts, and accepts `in_progress`, which the helper refuses |
| Admin.ProjectBoard.UpdateStatus | src/routes/admin.js:14-46 | the table and reply are those of `Update`. On a delivery the loyalty store moves as `Loyalty.Complete` says for the project's owner; otherwise it is untouched |
| ErrorHandler.Default | src/middleware/errorHandler.js:18-19 | the status is `status`, else `statusCode`, else 500, and is never 0; the message is the error's own, else the default text |
| ErrorHandler.ByName | src/middleware/errorHandler.js:22-30 | exactly the four recognised names fix a status, 400 or 401 |
| ErrorHandler.ByCode | src/middleware/errorHandler.js:31-40 | exactly the codes 23505, 23503 and ECONNREFUSED fix a status: 409, 400 and 503 |
| ErrorHandler.Handle | src/middleware/errorHandler.js:6-51 | a name wins over a code, which wins over the error's own status. A production 500 always shows the generic message. Details and the stack are sent in development only |
| ErrorHandler.RecognisedErrorsKeepTheirMessage | src/middleware/errorHandler.js:21-45 | a recognised error is never answered 500, so its fixed message shows even in production |
| ErrorHandler.ProductionHidesOnlyFiveHundreds | src/middleware/errorHandler.js:43-45 | in production an unrecognised error keeps its message unless its status is 500, and no details are sent |
| RateLimiter.Key | src/middleware/rateLimiter.js:46 | the key is the limiter id, a ':', then the client address, and both parts can be read back |
| RateLimiter.KeysSeparateLimiters | src/middleware/rateLimiter.js:46 | counters are keyed by `id:ip`, so limiters with different colon-free ids never share an entry |
| RateLimiter.CeilSeconds | src/middleware/rateLimiter.js:89 | `Math.ceil(x/1000)` is the least whole number of seconds covering `x` milliseconds |
| RateLimiter.RemainingWaitBounds | src/middleware/rateLimiter.js:86-90 | the body's `retryAfter` lies between 0 and the header's value |
| RateLimiter.Admit | src/middleware/rateLimiter.js:56-93 | a first request opens a window at count 1 and passes, and so does the first after the window ran out (strictly greater). Inside a window the count grows by one whether or not the request passes. A request passes iff the count stays within `max`; the key is blocklisted iff the count exceeds `3*max`. A refusal carries the configured message, the header `ceil(windowMs/1000)` and the body wait `ceil((windowMs - (now - windowStart))/1000)`. A new entry is tagged with the limiter's id and an existing one keeps its tag |
| RateLimiter.Swept | src/middleware/rateLimiter.js:13-24 | the sweep keeps exactly the entries not older than their limiter's window, 60000 ms for an unknown limiter |
| RateLimiter.SweepIsUnobservable | src/middleware/rateLimiter.js:69-73 | an entry the sweep removes would have been reset by its next request anyway |
| RateLimiter.Replay | src/middleware/rateLimiter.js:45-94 | a run of requests never passes more than it contains. A blocklisted key stays blocklisted, passes nothing and keeps its entry |
| RateLimiter.ReplayInWindow | src/middleware/rateLimiter.js:76-93 | within one window a key already at count `c` gets exactly `min(n, max - c)` more passes, and a blocklisted key gets none |
| RateLimiter.FreshWindowCap | src/middleware/rateLimiter.js:59-93 | a fresh key's burst inside one window passes at most `max` requests, or one when `max` is 0 |
| RateLimiter.Limiter.constructor | src/middleware/rateLimiter.js:6-10 | the counts, blocklist and limiter configurations start empty |
| RateLimiter.Limiter.Register | src/middleware/rateLimiter.js:43 | creating a limiter records its configuration and nothing else |
| RateLimiter.Limiter.Handle | src/middleware/rateLimiter.js:45-94 | a blocklisted key gets 429 with `retryAfter` 3600 and its entry is untouched. Otherwise the entry, the blocklist and the decision are those of `Admit` |
| RateLimiter.Limiter.Unblock | src/middleware/rateLimiter.js:83 | the unblock timer removes exactly that key from the blocklist |
| RateLimiter.Limiter.Sweep | src/middleware/rateLimiter.js:13-24 | the cleanup loop leaves exactly `Swept` of the old counts |
| Validation.IsValidEmail | src/utils/validation.js:10-13 | valid iff the text splits as local `@` label `.` tail: each part is non-empty and free of whitespace and `@` |
| Validation.EmailShapeIff | src/utils/validation.js:11 | the scan (first `@`, no whitespace, a later dot with text on both sides) accepts exactly the pattern's strings |
| Validation.ValidatePassword | src/utils/validation.js:20-43 | valid iff 8 to 128 characters with a lower-case letter, an upper-case letter and a digit. Otherwise the message is that of the first failing rule in check order |
| Validation.ReplaceAll | src/utils/validation.js:55-59 | a global replace of an absent character changes nothing |
| Validation.EscapeChar | src/utils/validation.js:55-59 | each of `< > " ' /` becomes its entity, which holds none of them; any other character is kept |
| Validation.EscapeAll | src/utils/validation.js:55-59 | the escaped text contains none of the five characters and is at most six times longer |
| Validation.ChainOnChar | src/utils/validation.js:55-59 | on one character, the five replaces in sequence give that character's entity |
| Validation.ReplaceChain | src/utils/validation.js:55-59 | a string without `<`, `>`, `"`, `'` or `/` comes out unchanged |
| Validation.ReplaceChainIsEscapeAll | src/utils/validation.js:53-59 | the replace chain equals escaping character by character: no replacement introduces a character a later one looks for |
| Validation.EscapeAllIdentity | src/utils/validation.js:55-59 | text with none of the five characters is left as it is |
| Validation.EscapeKeepsTrimmedEnds | src/utils/validation.js:53-59 | escaping keeps the ends of trimmed text free of whitespace |
| Validation.SanitizeInput | src/utils/validation.js:50-60 | a non-string gives ''. A string is trimmed and escaped; the result contains none of `< > " ' /` and is 1 to 6 times the trimmed length |
| Validation.SanitizeIdempotent | src/utils/validation.js:50-60 | sanitising twice equals sanitising once |
| Validation.EntityPassesThrough | src/utils/validation.js:53-59 | `&` is not encoded, so an entity passes through unchanged |
| Validation.IsValidPackage | src/utils/validation.js:67-70 | valid exactly for `basic`, `pro` and `master` |
| Validation.IsValidSize | src/utils/validation.js:77-80 | valid exactly for `normal` and `large` |
| Validation.IsValidStatus | src/utils/validation.js:87-90 | valid exactly for `intake`, `mixing`, `mastering`, `revisions` and `delivered` |
| Validation.MembershipIsExact | src/utils/validation.js:67-90 | package, size and status checks are exact membership: no case folding, no trimming |
| Validation.ValidateText | src/utils/validation.js:97-147 | a truthy string is required. An accepted value is exactly the sanitised text cut to `limit` characters, and it is accepted iff it still reaches the minimum; otherwise the message says which check failed |
| Validation.ValidateName | src/utils/validation.js:97-109 | accepted iff the sanitised name has at least 2 characters. The value is the sanitised name cut to 100 characters, so it has 2 to 100 |
| Validation.ValidateProjectTitle | src/utils/validation.js:116-128 | accepted iff the sanitised title has at least 3 characters. The value is the sanitised title cut to 200 characters, so it has 3 to 200 |
| Validation.ValidateChatbotMessage | src/utils/validation.js:135-147 | accepted iff the message has a non-whitespace character. The value is the sanitised message cut to 2000 characters, so it has 1 to 2000. A whitespace-only message is "cannot be empty" |
| Validation.EscapedSingleCharacterNamePasses | src/utils/validation.js:102-104 | length is checked after escaping, so the one-character name `<` passes as `&lt;` |
| Auth.Normalize | src/routes/auth.js:30 | the normalised address is no longer than the input and its ends are not whitespace |
| Auth.NormalizeIdempotent | src/routes/auth.js:30 | normalising twice equals normalising once |
| Auth.NormalizeIgnoresCase | src/routes/auth.js:49 | upper-case letters in the typed address never change the lookup key |
| Auth.LowerOfTrim | src/routes/auth.js:30 | lower-casing and trimming commute |
| Auth.ValidEmailOnlyLowercased | src/routes/auth.js:19-30 | an address that passes the e-mail check is only lower-cased by normalising |
| Auth.SignupCheck | src/routes/auth.js:15-26 | a missing field is refused first, then a bad address, then the first failing password rule with its message |
| Auth.SanitizedName | src/routes/auth.js:28 | the stored name is sanitised, and '' when none is given |
| Auth.SignupError | src/routes/auth.js:34-39 | code 23505 is 409 "already exists"; any other error goes to the error middleware |
| Auth.Signup | src/routes/auth.js:11-41 | a request not answered with success sends no welcome mail |
| Auth.Register | src/routes/auth.js:29-40 | a stored address is a 409 that writes nothing. A failing `createUser` writes nothing; a failing loyalty insert keeps the account without touching the loyalty table; either error is answered as thrown. Otherwise the account and the loyalty row are written before the mail, so they stay when the mail fails. Success iff no write and no mail fails, and the mail is recorded only then |
| Auth.SignupValidatesFirst | src/routes/auth.js:14-26 | a request the checks refuse is answered 400 with the check's message and writes nothing |
| Auth.SignupRegisters | src/routes/auth.js:28-32 | after the checks, signup registers the account under the normalised address, with the sanitised name, and greets the address as typed |
| Auth.Login | src/routes/auth.js:43-52 | missing fields give 400. Login succeeds iff the normalised address is stored with that password, returning that account's id, address and name; otherwise 401 |
| Auth.RegisterThenLogin | src/routes/auth.js:30-50 | a registered account logs in under any spelling of its address that normalises to its key |
| Auth.RegisterTwiceConflicts | src/routes/auth.js:35-37 | registering again under a stored key is a 409 that changes nothing |
| Auth.Accounts.HandleSignup | src/routes/auth.js:11-41 | the method's tables and reply are those of `Signup`; the loyalty store's other tables are untouched |
| Auth.Accounts.Create | src/routes/auth.js:29-40 | the method's tables and reply are those of `Register`, with the same write and mail failures |
| Payments.ParsesAsNumber | src/routes/payments.js:37 | a number always parses; a missing, null, boolean or NaN price never does; a string that parses is not empty or all leading whitespace |
| Payments.CreateOrder | src/routes/payments.js:34-60 | a falsy or unparsable price is refused with 400, and exactly then the gateway is not called. A created order returns the gateway's id; a gateway failure gives 500 |
| Payments.PriceCheckedBeforeGateway | src/routes/payments.js:37-39 | a refused price gets the same reply whatever the gateway would say |
| Payments.RefusedPrices | src/routes/payments.js:37 | zero, the empty string and `true` are refused |
| Payments.LetterLedTextRefused | src/routes/payments.js:37 | text starting with a lower-case letter does not parse and is refused |
| Payments.NonZeroNumbersAccepted | src/routes/payments.js:37 | every non-zero number, negatives included, reaches the gateway |
| Payments.DigitLedTextAccepted | src/routes/payments.js:37 | text starting with a digit, or a sign and a digit, reaches the gateway whatever follows |
| Payments.LeadingSpaceSkipped | src/routes/payments.js:37 | leading whitespace does not change the decision |
| Payments.PublicConfig | src/routes/payments.js:23-28 | the configuration reply carries success and the public client id |
| Payments.ConfigHidesSecret | src/routes/payments.js:23-28 | the client secret never influences the configuration reply |
| Payments.PurchaseRow | src/routes/payments.js:84-88 | the row carries the user, the package and the order id; its status is `completed` in the payments router and absent in the API router |
| Payments.Capture | src/routes/payments.js:66-104 | the intended capture, and the API router's as written. A row is written iff the gateway says `COMPLETED`, the insert succeeds and the order id is new; exactly one row, keyed by the order id. Any other status is 400. A throw or a refused insert is 500, and then nothing changes. The mail is recorded only after the insert |
| Payments.MailNeverChangesReply | routes/api.js:244-247 | a mail failure changes neither the reply nor the purchases. This holds for the API router's un-awaited mailer and for the intended payments route |
| Payments.ReplayedCaptureNeverDuplicates | routes/api.js:41 | a replayed capture of a stored order fails and leaves that order's single row unchanged |
| Payments.CaptureAsWritten | src/routes/payments.js:5 | as written, the table moves as in the intended route, but no confirmation is ever sent and no capture succeeds. A completed capture is answered 500 |
| Payments.CompletedCaptureFailsAsWritten | src/routes/payments.js:84-103 | a first completed capture of a new order stores the row and answers 500 as written, and a retry is refused. The intended route answers success |
| Payments.PurchaseLedger.CaptureOrder | src/routes/payments.js:66-104 | the method's table, mails and reply are those of `Capture` |
| Api.Authenticate | routes/api.js:72-85 | no cookie gives 401 and a failed verification 403; otherwise the token's payload is the user |
| Api.MissingTokenNeverVerified | routes/api.js:73-76 | without a cookie the verifier's verdict is irrelevant |
| Api.Signup | routes/api.js:116-139 | missing fields give 400, a taken address 409 and another insert failure 500, none changing the table. Success adds exactly the new row under the address as given and answers 201 |
| Api.Login | routes/api.js:142-177 | missing fields give 400, a failed query 500, an unknown address 404 and a wrong password 401. Success returns the signed token and the user's id and address |
| Api.SignupThenLogin | routes/api.js:116-177 | after a signup, logging in with the same fields succeeds with the new id, and signing up again conflicts |
| Api.LoginIsCaseSensitive | routes/api.js:149 | an account created as "Ann@Site.io" is not found under "ann@site.io" |
| Api.GuardedCreateOrder | routes/api.js:195-221 | the gateway is called only for an authenticated request with a valid price. An unauthenticated request is 401 or 403; an authenticated one is answered as `Payments.CreateOrder` |
| Api.Chat | routes/api.js:285-317 | a missing prompt or session id gives 400. Success appends exactly a `user` row and then a `model` row for that session and returns the reply. Any failure (a `history` that is not an array, the model, the insert) gives 500 with no rows |
| Api.ChatKeepsRowsPaired | routes/api.js:307-310 | the chat history stays a sequence of (user, model) pairs of one user and session |
| Api.ApiServer.HandleSignup | routes/api.js:116-139 | the method's table and reply are those of `Api.Signup` |
| Api.ApiServer.HandleCapture | routes/api.js:224-255 | blocked exactly when unauthenticated, with the ledger untouched; otherwise the ledger moves as `Payments.Capture` for the API router, with the token's user |
| Api.ApiServer.HandleChat | routes/api.js:285-317 | blocked exactly when unauthenticated, with the history untouched; otherwise the history and reply are those of `Api.Chat` |
| Chatbot.Blank | src/routes/chatbot.js:147 | a missing message is blank, and one whose first or last character is not whitespace is not |
| Chatbot.BlankMeansTrimmedEmpty | src/routes/chatbot.js:147 | a message is refused exactly when it is missing or trims to nothing |
| Chatbot.ConversationId | src/routes/chatbot.js:152 | a supplied non-empty id is used as given, otherwise the generated one; the id is empty only when neither is non-empty |
| Chatbot.ErrorText | src/routes/chatbot.js:240-246 | an error mentioning "API key" is a configuration error, else one mentioning "quota" is a quota error, else the generic text |
| Chatbot.NewConversation | src/routes/chatbot.js:155-163 | a new conversation has the id, no messages, and starts and is active now |
| Chatbot.PostMessage | src/routes/chatbot.js:143-250 | a blank message is 400 and changes nothing. A reply comes exactly when the message is not blank and the AI answers, and it carries the conversation id and the answer. A failure carries the classified text and writes nothing to the database. No mail is sent. Only the conversation filed under the id changes, and it is added to memory only on a reply |
| Chatbot.ReplyAppendsPair | src/routes/chatbot.js:184-199 | a reply appends exactly the visitor's message and then the assistant's, both stamped now, and the conversation is active now |
| Chatbot.ReplyKeepsOrReplacesNames | src/routes/chatbot.js:155-204 | the name defaults to "Guest" for a new conversation; a stored name or address is replaced only by a non-empty one |
| Chatbot.FailedReplyKeepsQuestion | src/routes/chatbot.js:184-191 | a failed reply leaves the visitor's message appended to a conversation already in memory; a new conversation is not stored |
| Chatbot.DatabaseFailureIsSilent | src/routes/chatbot.js:210-228 | a failed upsert changes neither the reply nor memory, and writes nothing |
| Chatbot.ReplyPersistsTranscript | src/routes/chatbot.js:210-224 | the stored transcript equals memory's. The row keeps its creation time and sent flag; a conversation not in memory is stored with just the new pair |
| Chatbot.Speaker | src/routes/chatbot.js:296 | a `user` message is attributed to the visitor's name, any other role to "Tysun AI Assistant" |
| Chatbot.Transcript | src/routes/chatbot.js:293-299 | one line per message in order; the speaker is the visitor's name for `user` and "Tysun AI Assistant" otherwise |
| Chatbot.Lookup | src/routes/chatbot.js:262-282 | memory is consulted first, then the table; nothing is found exactly when the id is in neither |
| Chatbot.MailFor | src/routes/chatbot.js:318-381 | the mail names the visitor as sender, replies to the visitor's address exactly when one is known, and holds one transcript line per message carrying that message's text |
| Chatbot.EndConversation | src/routes/chatbot.js:253-406 | no id gives 400, and a conversation not found or empty gives 404; both change nothing. The transcript is mailed at most once. Success iff the mail and the update succeed, and only then is the conversation evicted from memory. A failure keeps memory's keys and the table |
| Chatbot.EndMailsTranscript | src/routes/chatbot.js:288-390 | a successful end mails the found conversation's transcript under the given name, else the stored one, and marks the row sent now |
| Chatbot.History | src/routes/chatbot.js:409-451 | history is found exactly when the lookup finds the conversation, and returns its id and messages |
| Chatbot.EmptyConversationListedButNotEnded | src/routes/chatbot.js:284 | a conversation without messages is returned by `/history` but is "not found" for `/end` |
| Chatbot.ReplyThenEnd | src/routes/chatbot.js:184-393 | after a reply, ending the conversation succeeds. The mailed transcript ends with the visitor's message and the answer, and memory no longer holds the conversation |
| Chatbot.Swept | src/routes/chatbot.js:454-463 | the cleanup keeps exactly the conversations active within the last 24 hours, unchanged |
| Chatbot.ReplySurvivesSweep | src/routes/chatbot.js:202 | a conversation that just got a reply survives every cleanup within a day |
| Chatbot.ConversationStore.Message | src/routes/chatbot.js:143-250 | the method's state and reply are those of `PostMessage` |
| Chatbot.ConversationStore.End | src/routes/chatbot.js:253-406 | the method's state and reply are those of `EndConversation` |
| Chatbot.ConversationStore.Sweep | src/routes/chatbot.js:454-463 | the cleanup loop leaves exactly `Swept` of the old store; the table and mails are untouched |
| Server.FirstUnset | server.js:24-29 | the position of the first required variable that is not set: every earlier one is set |
| Server.CheckEnv | server.js:13-29 | a warning exactly when `GMAIL_USER_EMAIL` is unset. Start-up aborts exactly when a required variable is unset, naming the first one in order |
| Server.TrimTrailingSlashes | server.js:68 | the path without its trailing slashes: a prefix that does not end in '/', all of whose cut characters are '/' |
| Server.BaseName | server.js:68 | the last segment holds no '/' and is the suffix of the slash-trimmed path after its last '/', or all of it when it has none |
| Server.HasExtension | server.js:68 | `path.extname` is non-empty only for a last segment of at least two characters with a dot after the first, so a segment without a dot never has one |
| Server.Dispatch | server.js:67-89 | a path with an extension is 404 "File not found", even under `/api`. An extension-less `/api` path is passed on. Any other path gets the page of its first matching prefix (`/login`, `/signup`, `/dashboard`, `/purchase`), else the home page |
| Server.NoDotNoExtension | server.js:68 | a path without a dot has no extension |
| Server.LoginPrefixIsNotASegment | server.js:71-72 | any dot-free path starting with `/login`, such as `/loginhelp`, gets the login page |
| Server.DotFileHasNoExtension | server.js:68 | a root dot file such as `/.env` has no extension |
| Server.DotFileServedHomePage | server.js:68-81 | a root dot file is served the home page rather than 404 |
| Portal.IndexOf | public/js/portal.js:95 | `indexOf` is -1 exactly when absent, and otherwise the first position |
| Portal.CurrentIndex | public/js/portal.js:95-98 | `revisions` stands at `review`'s step, a listed status at its own step, and any other status at -1 |
| Portal.Fill | public/js/portal.js:100 | the fill is between 0 and 100; it is 100 exactly at the last step and 0 at the first step and for -1 |
| Portal.Percent | public/js/portal.js:100 | the fill is between 0 and 100; it is 100 exactly for `delivered`, and 0 for a status the bar does not know |
| Portal.Label | public/js/portal.js:104 | the caption has the step name's length, and a name without '_' is shown unchanged |
| Portal.Steps | public/js/portal.js:102-106 | one rendered step per progress step |
| Portal.StepCaptions | public/js/portal.js:102-106 | step `i`'s caption is the label of the `i`-th progress step, the same for every status |
| Portal.LitStepsArePrefix | public/js/portal.js:103 | step `i` is lit iff `i <= currentIndex`, so the lit steps form a prefix |
| Portal.RevisionsShownAsReview | public/js/portal.js:96-98 | `revisions` renders exactly as `review` |
| Portal.DeliveredCompletesBar | public/js/portal.js:100-103 | `delivered` fills the bar to 100% with all seven steps lit |
| Portal.UnknownStatusEmptyBar | public/js/portal.js:95-103 | an unknown status gives 0% with no step lit; `intake` also gives 0%, but lights its step |
| Portal.OneUnderscoreBecomesSpace | public/js/portal.js:104 | a name with one underscore is shown with a space in its place |
| Portal.Unredeemed | public/js/portal.js:67-73 | exactly the vouchers not redeemed are listed, each as often as in the input; an unredeemed first voucher stays first |
| Portal.UnredeemedKeepsOrder | public/js/portal.js:67-73 | the filter keeps order: the list for `a + b` is the list for `a` followed by the list for `b` |
| Portal.Panel | public/js/portal.js:66-76 | "No active vouchers." appears exactly when the list is absent or empty; otherwise the unredeemed vouchers are listed |
| Portal.AllRedeemedShowsNothing | public/js/portal.js:66-76 | when every voucher is redeemed the list is empty and the placeholder is not shown either |
| ImageOptimization.Extension | public/js/image-optimization.js:111 | the extension is a dot-free suffix of the path, and the whole path when it has no dot |
| ImageOptimization.Stem | public/js/image-optimization.js:112 | the stem is a prefix of the path, and '' when the path has no dot |
| ImageOptimization.StemAndExtensionRecompose | public/js/image-optimization.js:111-112 | for a path with a dot, stem, dot and extension give the path back |
| ImageOptimization.ResponsiveImageUrl | public/js/image-optimization.js:109-114 | the URL starts with the path's stem and ends with a dot and the path's extension; only `-<width>w` lies between |
| ImageOptimization.UrlKeepsExtension | public/js/image-optimization.js:113 | the rewritten URL keeps the path's extension, and its stem is the path's stem followed by `-<width>w` |
| ImageOptimization.PathWithoutDot | public/js/image-optimization.js:111-113 | for a path without a dot, the URL starts with '-' and ends with the whole path |
| ImageOptimization.DocumentedExampleNotProduced | public/js/image-optimization.js:109-113 | "/images/photo" at width 1200 does not become "/images/photo-1200w.jpg" |

## Left out

- The PayPal SDK, the AI model, the mailers, bcrypt, JWT signing and verification, and the PostgreSQL pool are not modelled.
  - Their outcomes are inputs: gateway answers, AI replies or errors, mail delivery, the failures of the writes that take a failure input, verifier verdicts and generated ids.
  - The queries listed under `Admin.Update` and `Loyalty.Complete` below always succeed.
  - A password stands for its hash, and checking one against the other is equality.
- Timers, un-awaited promises and concurrent requests are not modelled.
  - Each request runs to completion at one instant `now`.
  - The rate limiter's intervals are the methods `Sweep(now)` and `Unblock(key)`; the chatbot cleanup is `ConversationStore.Sweep(now)`.
  - The loyalty engine started by the admin route runs to completion inside the request.
- Floating point is left out.
  - `parseFloat(...).toFixed(2)` is not modelled; a price only has to parse.
  - A numeric price is a `real`.
  - The progress percentage is an exact `real`, and its rendering is not modelled.
- Strings are sequences of characters: UTF-16 surrogate pairs are not distinguished.
- `toLowerCase` is modelled on ASCII letters only.
- Request-body values other than strings are reduced to "present or not" or to their truthiness.
- Date formatting (`toLocaleString`, `toISOString`) is not modelled.
- The HTML of the e-mails and of the pages is not modelled; the mails are recorded by their recipient and fields.
- `createUser` and `authenticate` in `src/auth.js` are not part of this model.
  - Signup stores the account under its normalised address and raises 23505 when that address is taken.
  - Login succeeds when the stored password matches.
- `requireAuth`, `requireAdmin` and `asyncHandler` are not part of this model; the routes are modelled from the point where they run.
- A failure of the database lookup inside `/end` and `/history` is not modelled: the lookup always answers.
- The chatbot's AI session object kept with each conversation is not modelled; the AI's answer is an input.
- `/contact`, `/auth/status`, `/auth/logout`, `/api/config` and the views router are not modelled. They are display glue.
- The DOM-only scripts are not modelled: animations, interactions, lazy loading and preloading.
- Payments.PublicConfig / Payments.CaptureAsWritten: the PayPal configuration is the input `PayPalConfig`.
  - As written, `src/routes/payments.js:7` loads `src/config.js` with `require`, but that file is an ES module whose only export is `config`, with no `nodeEnv` or `paypal` field.
  - So `config.paypal.clientId` at lines 13-14 fails while the module loads, and no payments route is ever mounted.
  - The model describes the routes as they would behave once the module loads.
- Payments.CreateOrder: the amount sent to PayPal is not modelled; only the decision and whether the gateway is called are.
- Loyalty.MilestonePromotions: the promotion query has no `ORDER BY`, so the database may return the matching rows in any order. The model takes table order, and so `promoRows[0]` is the first matching row in that order.
- Loyalty.Complete: it models the engine with a working reward mail.
  - As written, `src/services/loyaltyServices.js:2` imports a `sendEmail` that `src/mail.js` does not export, so the module fails to load.
  - Line 54 also passes one object where `sendMail(to, subject, html)` takes three arguments.
  - The module is never imported by the admin route (see Findings), so the as-written engine is never reached; whether the mail goes out is the input `mailOk`.
- Admin.Update: the `UPDATE projects` query (`src/routes/admin.js:28-31`) always answers. A failing pool, or an `:id` the database cannot read as an integer, would throw into the error middleware and be answered 500; the model's `id` is a natural number and has no failure input for this query.
- Loyalty.Complete: the counter upsert (`src/services/loyaltyServices.js:12-20`) and the promotion select (lines 26-32) always succeed. Only the voucher insert (`insertOk`) and the mail (`mailOk`) can fail. A failing upsert would change nothing; a failing select would leave only the counter changed. Either rejects the engine's promise, which the admin route only logs.
- Chatbot.PostMessage: the reply's conversation id is stated only for the reply case; a failure's state is stated by `FailedReplyKeepsQuestion`.

## Findings

| source | as written | input that shows it | evidently intended | confidence | as-written member | corrected member |
|---|---|---|---|---|---|---|
| src/routes/admin.js:41 | `loyaltyService` is called but never imported (lines 1-4), so the call throws a ReferenceError after the row is updated; the error middleware answers 500 and the loyalty engine never runs | `PUT /projects/7/status` with `{"status": "delivered"}` for an existing project 7 | answer 200 with the updated row and start the loyalty engine for the project's owner | high (not executed) | Admin.UpdateAsWritten (shown by Admin.DeliveryFailsAsWritten) | Admin.Update |
| src/routes/payments.js:5 | once the module loads (as written, lines 13-14 already fail at load; see Left out), `sendConfirmationEmail` is imported from the mail module, which exports only `sendMail`. The call at line 91 throws inside the `try` after the insert at lines 84-88 has stored the row, so lines 100-103 answer 500 | `POST /capture-order` for a new order that PayPal reports `COMPLETED` | answer success and send the confirmation without blocking the reply, as `routes/api.js:244-247` does | high (not executed) | Payments.CaptureAsWritten (shown by Payments.CompletedCaptureFailsAsWritten) | Payments.Capture |
