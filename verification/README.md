# DocQueryAI — a Dafny model of its quota, plan and session logic

DocQueryAI answers questions about an uploaded PDF. The browser extracts the
document's text, and an Express backend forwards the text and the question to
a generative-AI service. Every user has a plan (`free`, `premium` or
`premiumPlus`) that sets a daily question allowance of 10, 50 or unlimited.
The counter restarts on a new UTC calendar day.

This project models that core as pure functions over immutable data:

- **Backend**
  - the `User` record and the users collection (`user_model.dfy`);
  - the question endpoint with its quota (`quota.dfy`);
  - signup, login and `me` (`auth_controller.dfy`);
  - the bearer-token middleware (`auth_middleware.dfy`);
  - Stripe checkout and the webhook that upgrades a plan
    (`payment_controller.dfy`);
  - the payment router's `/my-plan` and `/downgrade` (`payment_routes.dfy`).
- **Frontend**
  - the stored token and its checks (`client_auth.dfy`);
  - the navigation guard (`navigation_guard.dfy`) and the route table
    (`app_routes.dfy`);
  - the signup form (`signup_form.dfy`);
  - card-number formatting and the Pricing page's validator and steps
    (`card_number.dfy`, `pricing.dfy`);
  - the Dashboard's usage display (`dashboard.dfy`);
  - the question page's limit check and chat (`doc_query.dfy`).
- **Frontend against backend**: `agreement.dfy` compares the frontend's limit
  decision with the backend's.

Supporting modules:

- `wrappers.dfy`: `Option`, and JavaScript truthiness of an optional string.
- `clock.dfy`: instants in milliseconds, UTC days, and local days at a fixed
  offset.
- `strings.dfy`: the JavaScript string operations the code uses, which are
  `trim`, `split`, `startsWith`, `includes`, `toLowerCase` and regex
  filtering.

External services are parameters:

- Hashing is a relation `matches(password, hash)`.
- Signing a token is a function `sign` from claims to text.
- Verifying a token is a function `verify` that stands for the secret and
  the clock.
- Stripe is a function from the session description to an optional URL.
- Checking a webhook payload against its signature is a function `check`
  from the payload and the signature header to a `Verification`. A missing
  payload never verifies.
- The AI service is its answer, `Upstream`.
- Database ids and the current time are inputs.

The central property is the quota. `Quota.AtMostLimitPerDay` proves that,
within one UTC day, a user on a finite plan is answered no more often than
their allowance allows, whatever the sequence of requests.

## Model

| member | source | states |
|---|---|---|
| Strings.Trim | backend/controllers/queryController.js:53 | the trimmed text is empty exactly when the input is all whitespace, and otherwise starts and ends with a non-whitespace character |
| Strings.TrimSpan | backend/controllers/queryController.js:53 | the trimmed text is a slice of the input with only whitespace before and after it |
| Strings.TrimPadded | backend/controllers/queryController.js:45-53 | trimming text padded with whitespace on both sides gives back the text, when the text starts and ends with non-whitespace |
| Strings.Split | backend/middleware/authMiddleware.js:16 | splitting on a character gives one more piece than there are occurrences, and no piece contains the separator |
| Strings.JoinSplit | frontend/src/utils/auth.js:30 | joining the pieces of a split with the separator gives back the original string |
| Strings.SplitHead | backend/middleware/authMiddleware.js:16 | the first piece of a split is a prefix of the string that contains no separator and that ends at the string's end or at a separator |
| UserModel.ParsePlanName | backend/models/User.js:24-28 | the plan enum's names and their parsing are inverse: a string parses to a plan exactly when it is that plan's name |
| UserModel.NormalizedIsNormal | backend/models/User.js:5-11 | the email setters (lowercase, then trim) always produce an address with no surrounding whitespace and no upper-case letter |
| UserModel.NormalFormIsFixed | backend/models/User.js:5-11 | an address already in normal form is left unchanged by the setters |
| UserModel.NormalizeEmailIdempotent | backend/models/User.js:5-11 | normalising an address twice is normalising it once |
| UserModel.NewUser | backend/models/User.js:3-37 | a new record has the normalised address, count 0, its reset date now, plan free and no Stripe customer; with a non-empty id, address and hash it satisfies every schema constraint |
| UserModel.FindByEmail | backend/controllers/authController.js:23 | a lookup by address finds a stored record whose address is the normalised query, or reports that no stored record has that address |
| UserModel.FindById | backend/middleware/authMiddleware.js:26 | a lookup by id finds a stored record with that id, or reports that none has it |
| UserModel.Save | backend/controllers/queryController.js:82 | saving replaces the record with the same id; lookups of every other id are unchanged; saving a record whose id is not stored changes nothing |
| UserModel.SaveUnchanged | backend/controllers/queryController.js:82 | saving a record back exactly as stored leaves the collection as it was |
| UserModel.SaveKeepsStoreValid | backend/models/User.js:5-15 | saving a valid record under a stored id, with that record's address, keeps every record valid and addresses and ids unique |
| UserModel.InsertKeepsStoreValid | backend/models/User.js:5-15 | adding a valid record with a fresh id and a fresh address keeps the collection valid |
| Quota.DailyLimit | backend/controllers/queryController.js:4-8 | each plan of the enum gets its allowance (10, 50, unlimited), and any other plan string gets the free allowance |
| Quota.ResetIfNewDay | backend/controllers/queryController.js:21-30 | after the reset the record's reset date is on today's UTC date and its count is today's count: the stored count on the same day, otherwise 0 from now; no other field changes |
| Quota.Truncate | backend/controllers/queryController.js:49 | the document text sent is the prefix of the text of length min(length, 10,000): the whole text when that is short enough, exactly its first 10,000 characters otherwise |
| Quota.Prompt | backend/controllers/queryController.js:45-53 | the prompt sent is the template literal, holding the truncated document and the question, with its surrounding whitespace trimmed |
| Quota.PromptTrim | backend/controllers/queryController.js:45-53 | trimming the template literal removes exactly its leading line break and its trailing line break and indentation, leaving the fixed instruction, the truncated document, the question and the answer cue |
| Quota.AnswerText | backend/controllers/queryController.js:76-78 | the answer is never empty; it is the trimmed reply text when that has non-whitespace content, and the fallback message exactly when there is no text, the text is blank, or it trims to the fallback itself |
| Quota.AskQuestion | backend/controllers/queryController.js:10-43 | 400 exactly when a field is missing; 403 exactly when the fields are present and a finite plan has used today's allowance, with remaining 0, the plan and the limit; nothing is sent or saved on 400 or 403; otherwise the prompt is sent and the rest is `Quota.Admitted` |
| Quota.Admitted | backend/controllers/queryController.js:45-97 | the prompt is sent; 502 exactly when the service fails; an answer on a finite plan saves today's count plus one, which stays within the limit, with the reset date the reset left, and reports the remaining allowance and that reset date; an unlimited plan is never saved and reports "Unlimited"; a failed request saves nothing |
| Quota.NewDayNeverRejected | backend/controllers/queryController.js:27-36 | the first request of a new UTC day is never rejected for quota |
| Quota.UnboundedNeverCounted | backend/controllers/queryController.js:36-83 | an unlimited plan is never rejected and its record is never saved by the endpoint |
| Quota.StepOnDay | backend/controllers/queryController.js:36-83 | on a finite plan, an answered request was below the limit and raises the day's count by exactly one; any other outcome leaves the record as it was; the plan never changes |
| Quota.AtMostLimitPerDay | backend/controllers/queryController.js:36-83 | over any sequence of requests within one UTC day, a finite plan is answered at most as many times as the allowance left at the start |
| AuthController.CreateToken | backend/controllers/authController.js:8-12 | the token claims name the user, are issued at the current second and expire one day (86,400 s) later |
| AuthController.ProfileOf | backend/controllers/authController.js:36-44 | the reply's user object carries the record's address, count and reset date, and no plan |
| AuthController.Signup | backend/controllers/authController.js:14-49 | 400 exactly when a credential is missing; 409 exactly when the normalised address is taken; 500 when the address is blank after trimming; otherwise 201 with a token for the new id, and the collection grows by exactly the new free-plan record; a refused signup leaves the collection unchanged |
| AuthController.Login | backend/controllers/authController.js:51-79 | 400 exactly when a credential is missing; a token exactly when a stored user has the normalised address and their hash matches the password; every other case is the same 401 "Invalid credentials" |
| AuthController.Me | backend/controllers/authController.js:84-97 | as written: the profile has the user's address, count and reset date, and no plan |
| AuthController.MeWithPlan | backend/controllers/authController.js:88-92 | corrected: the same profile with the user's plan |
| AuthController.SignupKeepsStoreValid | backend/controllers/authController.js:23-34 | signup keeps every record valid and addresses and ids unique |
| AuthController.SignupThenLogin | backend/controllers/authController.js:14-74 | after a successful signup, logging in later with the same address and password succeeds and yields a token for the new id |
| AuthController.SignupTwiceConflicts | backend/controllers/authController.js:23-25 | a second signup with the same address is refused with 409 |
| AuthMiddleware.ExtractToken | backend/middleware/authMiddleware.js:12-17 | without the "Bearer " prefix the token is the whole header; with it, the token is the longest space-free prefix of what follows |
| AuthMiddleware.ExtractBearer | backend/middleware/authMiddleware.js:12-17 | a space-free token sent as "Bearer <token>" is extracted whole |
| AuthMiddleware.Authenticate | backend/middleware/authMiddleware.js:3-38 | each 401 message holds exactly under its condition: no header, an empty token, a token that does not verify, a verified id with no stored user; otherwise the request goes on with the stored user the token names |
| AuthMiddleware.BearerAuthenticates | backend/middleware/authMiddleware.js:8-33 | a stored user presenting a bearer token that verifies to their id is authenticated as that user |
| AuthMiddleware.SignupThenAuthenticate | backend/middleware/authMiddleware.js:24-33 | the token signup issues authenticates the new account, when the signing and verifying functions agree |
| PaymentController.CreateCheckoutSession | backend/controllers/paymentController.js:13-65 | 401 exactly when there is no user; 400 "User info incomplete" exactly when the address or id is empty; 400 "Invalid plan selected" exactly for a plan other than premium or premiumPlus; otherwise one INR line item named after the plan at the plan's price, the user's address, metadata with the id and plan, and the success and cancel URLs; the URL is Stripe's answer |
| PaymentController.GrantedPlan | backend/controllers/paymentController.js:94 | a completed checkout grants premiumPlus exactly when the metadata says premiumPlus, and otherwise premium; the result is always a purchasable plan of the enum |
| PaymentController.ConstructEvent | backend/controllers/paymentController.js:75-85 | a missing payload never verifies; a present one verifies as the signature check says |
| PaymentController.Respond | backend/controllers/paymentController.js:67-102 | 500 exactly without a secret; 400 with "Webhook Error: " and the error exactly when verification fails; otherwise received; only a completed checkout naming a stored user changes the collection, and then only that user's plan changes |
| PaymentController.HandleWebhookAsWritten | backend/controllers/paymentController.js:75-85 | as written: with the secret configured, a request without `rawBody` is always refused with 400 and leaves the collection unchanged |
| PaymentController.EveryDeliveryRejected | backend/server.js:26-30 | as written: every delivery the route hands on, whatever its payload and signature, is answered 400 and grants no plan |
| PaymentController.HandleWebhook | backend/controllers/paymentController.js:67-102 | corrected: verifying the delivered `body`, a present payload is received exactly when its signature checks, a refusal carries the check's error and changes nothing, and a received event is applied to the collection |
| PaymentController.WebhookIdempotent | backend/controllers/paymentController.js:87-99 | delivering the same request twice has the effect of delivering it once |
| PaymentController.WebhookKeepsStoreValid | backend/controllers/paymentController.js:87-99 | every webhook delivery keeps the collection valid |
| PaymentController.CheckoutThenWebhook | backend/controllers/paymentController.js:44-99 | corrected: with the webhook verifying the delivered body, when Stripe delivers a signed completion of the session checkout described, the delivery is received and the stored user ends up on exactly the plan that was requested |
| PaymentRoutes.MyPlan | backend/routes/paymentRoutes.js:21-31 | rejected exactly when the middleware rejects, with its message; otherwise the authenticated user's address and plan |
| PaymentRoutes.MyPlanAfterDowngrade | backend/routes/paymentRoutes.js:21-45 | after a downgrade, `/my-plan` reports the same user's address and the free plan |
| PaymentRoutes.MyPlanAfterCheckout | backend/routes/paymentRoutes.js:21-31 | corrected: with the webhook verifying the delivered body, after a checkout through the route and Stripe's signed completion of that session, `/my-plan` reports the plan that was bought |
| PaymentRoutes.Downgraded | backend/routes/paymentRoutes.js:36-38 | the downgraded record is on the free plan, differs from the original only in its plan, and stays valid |
| PaymentRoutes.Downgrade | backend/routes/paymentRoutes.js:34-45 | rejected exactly when the middleware rejects, and then nothing changes; otherwise the user is on the free plan whatever the plan was, and every other record is unchanged |
| PaymentRoutes.DowngradeIdempotent | backend/routes/paymentRoutes.js:34-45 | downgrading twice is downgrading once |
| PaymentRoutes.DowngradeKeepsStoreValid | backend/routes/paymentRoutes.js:34-45 | a downgrade keeps the collection valid |
| PaymentRoutes.CheckoutRoute | backend/routes/paymentRoutes.js:11 | behind the middleware the controller always sees the authenticated user, so its own 401 never happens on this route |
| PaymentRoutes.RouteUserComplete | backend/routes/paymentRoutes.js:11 | on a valid collection, checkout through the route never fails the controller's "User info incomplete" check |
| ClientAuth.IsAuthenticated | frontend/src/utils/auth.js:4-9 | signed in exactly when a stored token exists, is not all whitespace, and is not the text "null" or "undefined" |
| ClientAuth.IsValidToken | frontend/src/utils/auth.js:27-33 | a token is well formed exactly when it is non-empty and has exactly two dots |
| ClientAuth.Logout | frontend/src/utils/auth.js:12-19 | the token, user and userData keys are gone, every other key is kept, and the location is "/" |
| ClientAuth.LogoutIdempotent | frontend/src/utils/auth.js:12-19 | logging out twice is logging out once |
| ClientAuth.IsValidAuthenticated | frontend/src/utils/auth.js:36-47 | the session counts exactly when it is signed in and the token is well formed; a signed-in session with a malformed token is logged out; otherwise nothing changes |
| ClientAuth.ValidAuthenticatedStable | frontend/src/utils/auth.js:36-47 | checking again gives the same answer and changes nothing more |
| ClientAuth.OnResponseError | frontend/src/utils/auth.js:50-60 | a 401 response logs out and no other status does; the error is always passed on unchanged |
| ClientAuth.UnauthorizedEndsSession | frontend/src/utils/auth.js:50-60 | after a 401 the browser is no longer signed in, the session check fails, and the page is "/" |
| NavigationGuard.GuardRedirect | frontend/src/hooks/useNavigationGuard.js:25-49 | the guard sends to /login exactly a visitor without a session on a protected path; it sends to /dashboard exactly a signed-in user on "/", /login or /signup; otherwise it stays |
| NavigationGuard.GuardSettles | frontend/src/hooks/useNavigationGuard.js:25-49 | the guard's target is a page the guard leaves alone |
| NavigationGuard.UseNavigationGuard | frontend/src/hooks/useNavigationGuard.js:11-56 | the returned flag is the session check, the navigation is the guard's decision for that flag, and the browser is as the first check left it |
| AppRoutes.PublicRoute | frontend/src/App.jsx:24-31 | a public page redirects to /doc-query exactly for a signed-in user, and is shown exactly otherwise |
| AppRoutes.ProtectedRoute | frontend/src/components/ProtectedRoute.jsx:5-14 | a protected page redirects to /login exactly without a session, and is shown exactly with one |
| AppRoutes.Resolve | frontend/src/App.jsx:68-155 | "/" redirects by session; a public page is shown exactly to a visitor without a session (a signed-in user goes to /doc-query), a protected page exactly to a signed-in user (others go to /login); a page is shown only at its own path, every redirect goes to /doc-query, /home or /login, and the not-found page shows exactly for every other path |
| AppRoutes.RedirectsSettle | frontend/src/App.jsx:24-42 | every redirect of the route table lands in one step on a page that is shown, and never on the not-found page |
| AppRoutes.RegisterIsSignup | frontend/src/App.jsx:91-106 | "/signup" and "/register" render the same way |
| SignupForm.Validate | frontend/src/components/Auth/Signup.jsx:29-42 | each message holds exactly under its condition, in order: passwords differ; then a password shorter than 6; then the terms not agreed; no error exactly when all three checks pass |
| SignupForm.HandleSubmit | frontend/src/components/Auth/Signup.jsx:24-66 | nothing is sent exactly while a check fails, and its message is shown; the request carries the work email as the address; the dashboard opens and the token is stored exactly when a token came back; every other outcome shows an error and stores nothing |
| SignupForm.SentPasswordPresent | frontend/src/components/Auth/Signup.jsx:34-53 | every request the form sends carries a password of at least 6 characters |
| CardNumber.Chunks | frontend/src/components/Pricing.jsx:94-96 | the groups are non-empty, of at most four characters, all but the last of exactly four, and there are ⌈n/4⌉ of them |
| CardNumber.ChunkWindows | frontend/src/components/Pricing.jsx:94-96 | the i-th group is the i-th four-character window of the digits |
| CardNumber.FirstDigitRun | frontend/src/components/Pricing.jsx:91-92 | the regex match is empty below four digits, and otherwise the first sixteen digits (or all of them) |
| CardNumber.FormatCardNumber | frontend/src/components/Pricing.jsx:89-102 | the result holds only digits and spaces; its digits are the first sixteen of the input; below four digits it is the digits unchanged; otherwise splitting on spaces gives its digits in groups of four |
| CardNumber.DigitsIgnoreWhitespace | frontend/src/components/Pricing.jsx:90-91 | removing whitespace before keeping the digits changes nothing |
| CardNumber.FormatIdempotent | frontend/src/components/Pricing.jsx:89-102 | formatting an already formatted number leaves it unchanged |
| CardNumber.FormattedLength | frontend/src/components/Pricing.jsx:89-102 | a formatted number has exactly sixteen non-space characters exactly when the input had at least sixteen digits |
| Pricing.HandleInputChange | frontend/src/components/Pricing.jsx:104-109 | the edited field holds the value as typed, or formatted for the card number; every other field keeps its value |
| Pricing.ValidatePaymentForm | frontend/src/components/Pricing.jsx:33-59 | no error exactly when the form is complete for its payment method; each message holds exactly under its condition in order (card details, then card length, then UPI id, then contact) |
| Pricing.TypedCardNumberLength | frontend/src/components/Pricing.jsx:44-45 | a card number typed through the form passes the 16-digit check exactly when at least sixteen digits were typed |
| Pricing.Next | frontend/src/components/Pricing.jsx:19-87 | an action the current step does not offer changes nothing; Upgrade enters the payment step with the error cleared exactly when a method and a plan are chosen, and otherwise only sets an error; Submit enters processing, busy and with no error, exactly for a valid form, and otherwise only sets the error; editing changes only the form; settling ends in success, cancel or back at payment (with the failure message) according to the outcome and is no longer busy; try again returns from cancel to payment, back returns from payment to the plans, and back to plans clears the form |
| Pricing.InitialInv | frontend/src/components/Pricing.jsx:6-17 | the initial page satisfies the invariant |
| Pricing.NextKeepsInv | frontend/src/components/Pricing.jsx:61-87 | every action keeps the invariant: processing, success and cancel are reached only with a form valid for its method, and the page is busy exactly while processing |
| Pricing.RunKeepsInv | frontend/src/components/Pricing.jsx:61-87 | every state reachable by a run of actions keeps the invariant |
| Dashboard.GetPlanLimits | frontend/src/components/Dashboard.jsx:15-26 | each plan of the enum gets the server's allowance and its name and colour (Free gray, Premium blue, Premium Plus purple), and an absent or unknown plan gets the free entry |
| Dashboard.QueriesUsed | frontend/src/components/Dashboard.jsx:54-62 | the count shown is 0 on a new local calendar day, and the stored count otherwise |
| Dashboard.CalculateResetTime | frontend/src/components/Dashboard.jsx:28-33 | the next reset is local midnight starting the day after the last reset: strictly after it and at most a day later |
| Dashboard.Load | frontend/src/components/Dashboard.jsx:35-81 | no token gives the no-token error and the initial usage; a fetched profile gives the count for today, the plan's limit and the next reset; a failure gives a non-empty error and the initial usage |
| Dashboard.UsagePercentage | frontend/src/components/Dashboard.jsx:86-89 | the percentage is 0 on an unlimited plan, and used / limit · 100 exactly otherwise |
| Dashboard.BarColourThresholds | frontend/src/components/Dashboard.jsx:285-291 | the bar is red exactly from nine tenths of the limit, yellow exactly from seven tenths up to nine, and green exactly below seven tenths |
| Dashboard.BarWidth | frontend/src/components/Dashboard.jsx:291 | the bar's width is the percentage capped at 100 |
| Dashboard.Round | frontend/src/components/Dashboard.jsx:295 | the shown percentage is the nearest whole number, halves rounded up |
| Dashboard.QueriesRemaining | frontend/src/components/Dashboard.jsx:512-515 | infinity exactly on an unlimited plan; otherwise the number that added to the count gives the limit, which may be negative |
| DocQuery.GetPlanLimits | frontend/src/components/DocQueryAI.jsx:32-43 | each plan of the enum gets the server's allowance and its name, and an absent or unknown plan gets the free entry |
| DocQuery.CheckDailyLimit | frontend/src/components/DocQueryAI.jsx:45-76 | as written: reached exactly when a token exists, the profile was fetched, and a finite plan's count for the local calendar day has reached its limit; every failure counts as not reached |
| DocQuery.CheckDailyLimitUtc | frontend/src/components/DocQueryAI.jsx:61-65 | corrected: the same decision with the day taken as the UTC calendar date |
| DocQuery.HandleAsk | frontend/src/components/DocQueryAI.jsx:116-185 | nothing happens without a document or a non-blank question; history only grows, by at most two entries; without a token the login error is appended; a reached limit only opens the dialog; otherwise the question is asked as in `DocQuery.Asked` |
| DocQuery.Asked | frontend/src/components/DocQueryAI.jsx:133-181 | the input is cleared; a limit message opens the dialog and leaves the history as before; another failure appends the question and the error; an answer appends the question and the answer and updates the usage |
| DocQuery.ClearChat | frontend/src/components/DocQueryAI.jsx:194-198 | history, response and usage are cleared, and nothing else changes |
| DocQuery.PdfLoaded | frontend/src/components/DocQueryAI.jsx:98-101 | a new document replaces the text and file name and starts the chat over; nothing else changes |
| DocQuery.PdfFailed | frontend/src/components/DocQueryAI.jsx:102-111 | a failed upload leaves only the error in the history, clears the file name, and changes nothing else: the previous text, response and usage stay |
| DocQuery.ApplyKeepsHistory | frontend/src/components/DocQueryAI.jsx:98-198 | when each ask runs to its reply before the next action, asking, clearing, loading a document and a failed upload keep the history well formed: every answer directly follows a question, every question is directly followed by its reply, and no question is blank |
| DocQuery.RunChatKeepsHistory | frontend/src/components/DocQueryAI.jsx:98-198 | every sequence of those actions, each ask completed before the next, from a well-formed history, the empty one of a fresh page in particular, keeps it well formed |
| Agreement.PlanTablesAgree | frontend/src/components/DocQueryAI.jsx:32-43 | both frontend plan tables give every plan string the server's allowance |
| Agreement.DashboardMatchesServer | frontend/src/components/Dashboard.jsx:35-62 | with a profile that carries the plan, the Dashboard shows the server's limit for that plan and, in UTC with a recorded reset, the count the server counts from today |
| Agreement.MeProfileUsesFreeLimit | frontend/src/components/DocQueryAI.jsx:56-69 | with the profile `me` returns, the page applies the free limit of 10 to every user, whatever the stored plan |
| Agreement.PremiumUserBlockedByPage | backend/controllers/authController.js:88-92 | a premium user with ten questions today is stopped by the page, although the server would answer |
| Agreement.LocalDateBlocksAfterUtcReset | frontend/src/components/DocQueryAI.jsx:61-65 | a user at UTC+05:30 who used up the free allowance late on a UTC day is stopped by the page after the server has started a new UTC day |
| Agreement.CorrectedCheckAgrees | frontend/src/components/DocQueryAI.jsx:56-69 | the corrected check, on the profile with the plan and by UTC date, equals the server's quota rejection on every request with both fields present |
| Agreement.LimitReplyRestoresHistory | frontend/src/components/DocQueryAI.jsx:155-160 | the server's 403 message contains "limit", so the page opens the limit dialog and takes the question back out of the history |

## Left out

- Network, database and process I/O are not modelled. The endpoints are functions from a request and the collection to a reply and the collection.
- bcrypt, jwt, Stripe, the Stripe signature check and the AI service are parameters of the functions that use them (`matches`, `sign`, `verify`, `stripe`, `check`, `Upstream`).
- The hash signup stores, the id the database assigns and the current time are inputs.
- `DocQuery.HandleAsk`, `DocQuery.ApplyKeepsHistory`, `DocQuery.RunChatKeepsHistory`, `Agreement.LimitReplyRestoresHistory`: an ask is modelled as running to its reply before the next action. On the page it is not. The Ask button and the textarea are disabled only after `checkDailyLimit` returns (DocQueryAI.jsx:125-134), and Clear (446-452) and the file input (341-346) are never disabled. So a second Enter during the limit check, or Clear or an upload while the query is pending, can leave a history with two questions in a row, or an answer without its question. The limit branch's `slice(0, -1)` then removes whichever entry is last. None of these promise well-formedness for such interleavings.
- Concurrency is left out: two requests that read the same count and both save it are not modelled. Requests are processed one at a time.
- The browser's time zone is a fixed offset from UTC, so daylight-saving changes are not modelled.
- Strings are sequences of characters. JavaScript's UTF-16 code units (which matter for `slice(0, 10000)` and the password length), Unicode case mapping beyond ASCII, and Unicode normalisation are not modelled.
- The "Server error" 500 replies of the `catch` blocks are left out. So are the `CastError` of a malformed id, which the middleware reports as "Invalid or expired token", and errors thrown by `save`. The one such error modelled is signup's blank address, which fails the schema's `required` validator.
- `Quota.DailyLimit`: a stored plan is always one of the enum values, so lookups of inherited object keys such as `constructor` in the limits table are not modelled.
- `PaymentController.Respond`: an event whose `metadata` object is absent altogether is not modelled; reading `session.metadata.userId` (paymentController.js:89) would then throw outside any `try` and no reply would be sent. The model only has absent fields within the metadata.
- `PaymentController.Respond`: errors thrown by `User.findById` (a `CastError` for a malformed `userId`) or by `save` at paymentController.js:93-96 are outside any `try`, so the request gets no reply; the model answers received there.
- `PaymentController.ConstructEvent`: the text of the library's error for a missing payload depends on its version; `NoPayloadError` stands for it.
- The limits table of the question endpoint is shared with `/downgrade` and `/my-plan` only through the plan string. The `setUserPlan` helper and the `LimitModal` text are not modelled.
- Route matching is exact. React Router's case-insensitive matching and trailing slashes are not modelled.
- `Pricing.Next`: the simulated payment's `setTimeout` and `Math.random()` are the choice of `PaymentOutcome`. The `Failed` outcome (the `catch` path) cannot occur in the code, but is kept.
- `Dashboard.UsagePercentage`: JavaScript numbers are exact rationals here. The 0/0 (NaN) percentage shown while no user is loaded (limit 0) is excluded by the requires.
- One instant stands for the two `new Date()` calls of the Dashboard and of `checkDailyLimit`, for the two `new Date()` calls of the question endpoint (queryController.js:21 and 29, today's date and the new reset date), and in signup for both the stored `lastResetDate` and the token's `iat`.
- `getAuthToken` is a plain read of local storage (`ClientAuth.Token`). The api client and `setAuthToken` are not part of this model.
- The Login page, the Navbar, the Home, PaymentSuccess and PaymentCancel pages, and the state `ProtectedRoute` passes to the login page are not part of this model.
- Rendering, styling and the PDF text extraction (pdf.js) are not modelled. A finished extraction is `DocQuery.PdfLoaded` with its text, and a failure is `DocQuery.PdfFailed`.

## Findings

| source | as written | input that shows it | evidently intended | confidence | as-written member | corrected member |
|---|---|---|---|---|---|---|
| backend/controllers/authController.js:88-92 | `me` returns the address, count and reset date but no `plan`, so the Dashboard and the question page always apply the free plan's limit | a premium user with dailyCount 10 and a reset at 2024-01-01T12:00Z asks at that instant; the page blocks the question, the server would answer | `me` includes the user's plan | not executed | AuthController.Me, Agreement.PremiumUserBlockedByPage | AuthController.MeWithPlan, Agreement.CorrectedCheckAgrees |
| frontend/src/components/DocQueryAI.jsx:61-65 | the page compares the reset date and now with `toDateString()`, a local calendar date, while the server resets on the UTC date (the Dashboard's count, Dashboard.jsx:54-56, does the same) | a free user at UTC+05:30 with dailyCount 10 reset at 2024-01-01T20:00Z asks at 2024-01-02T01:00Z; both are 2 January locally, so the page blocks the question, while the server has started a new UTC day and would answer | compare the UTC calendar dates, as the server does | not executed | DocQuery.CheckDailyLimit, Agreement.LocalDateBlocksAfterUtcReset | DocQuery.CheckDailyLimitUtc, Agreement.CorrectedCheckAgrees |
| backend/controllers/paymentController.js:78 | `constructEvent` is given `req.rawBody`, which nothing sets: the webhook route's `express.raw` (server.js:28, paymentRoutes.js:16) puts the payload in `req.body` | with the secret configured, Stripe delivers a correctly signed `checkout.session.completed` event for a stored user; verification fails on the missing payload, the reply is 400 "Webhook Error: …" and the user's plan never changes | verify `req.body`, so a paid checkout grants the plan | not executed | PaymentController.HandleWebhookAsWritten, PaymentController.EveryDeliveryRejected | PaymentController.HandleWebhook, PaymentController.CheckoutThenWebhook |
