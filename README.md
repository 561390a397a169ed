# Lumi usage metering and entitlements, modelled in Dafny

Lumi is a dream-interpretation web app. Visitors get a few interpretations a day and a
month, depending on their tier. The tiers are `anonymous`, `free`, and the paid `basic`
and `pro` plans bought through the Creem payment provider. This project models the parts
of the app that decide who may interpret a dream, how often, and with which model:

- **The tier catalogue**: caps, models, downgrade and warning thresholds, pricing limits,
  model pickers and input validators. These are pure functions over the table constants.
- **Entitlement resolution**: a stored subscription counts only while it is `active` and
  unexpired.
- **The metering ledger**:
  - the anonymous table maps `(ip, date, hour)` to a count;
  - the user table maps `(user, month)` to `(day, daily count, monthly count)`;
  - admission reads both tables, and the two recorders write them.
- **The interpret endpoint**: its guard order, principal choice and record-after-success
  rule, and the usage figures it reports back.
- **The read endpoints**: `/api/usage`, `/api/user-info` and `/api/subscription/manage`.
- **The billing state machine**:
  - webhook header search, signature gate, event dispatch and per-event updates of the
    subscription table;
  - checkout parameter guards;
  - cancellation.
- **The client side**:
  - the usage cache of `contexts/usage-limit-context.tsx` and the older hook of
    `hooks/use-usage-limit.ts`, as classes over their React state and device storage;
  - the submit and toast logic of `app/page.tsx`.

The tables are maps in the class `Database.Db`. A query's outcome is an input: a
`Lookup` (row, no row, query error) or a success flag. The clock is an input as well: a
`Calendar.DateTime`, plus the local hour where the source reads local time. The HMAC
digests of a webhook payload, the AI reply, and the provider's checkout reply are also
inputs. Each pure source function is a Dafny function. Each step-by-step source function
is a method proved against a specification function of the old state.

Where one file disagrees with another, or the code with its evident intent, the model
follows the code, and lemmas exhibit the disagreement:

- **Cap order.** The user validator checks the daily cap before the monthly one. The
  anonymous validator checks the monthly cap first (`UsageService.ValidateUserUsage`,
  `UsageService.ValidateAnonymousUsage`).
- **Stale daily count.** The user validator compares the stored `daily_count` without
  looking at the stored day, while the read endpoints roll the day over. A user who hit
  the daily cap yesterday stays denied (`UsageService.StaleDailyCountDenies`).
- **Pro downgrade threshold.** The interpretation service downgrades pro users at 100
  monthly uses (`downgradeThreshold`). `shouldDowngradeModel` uses the 200 monthly cap
  (`AiService.DowngradeRulesDisagree`).
- **Failed reads.** Both recorders read and then upsert. A failed read writes a count of
  1, so a failed read loses the earlier count.
- **Empty dream.** `validateDreamInput` rejects the empty string as "required", because
  it tests `!dream` before the trim.
- **History retention.** `hasFeature` reads pro's unlimited `historyRetention` (-1) as
  false.
- **Unset product ids.** `parseTierFromProductId` compares against unset product ids. An
  event without a product id therefore matches the first unset plan
  (`CreemConfig.MissingProductId`).
- **Unentitled rows.** `GET /api/subscription/manage` returns the stored row even when it
  is not entitled. `/api/user-info` shows the free placeholder for the same row
  (`SubscriptionRoute.GetShowsUnentitledRow`).
- **The older hook** (`hooks/use-usage-limit.ts`):
  - its limit-reached messages name 10 and 5 whatever the configured limits are;
  - a configured limit that is not a number (NaN) blocks every use, yet never reports the
    limit as reached (`UseUsageLimit.NaNLimit`).
- **The client cache.**
  - Without a snapshot it allows use while reporting 0 remaining
    (`UsageLimitContext.CanUseIffRemaining`).
  - While the subscription loads, it may use the cached tier while the page still uses
    `free` (`HomePage.PageTierAgreesWithCache`).
- **Thrown errors.** The submit handler replaces every thrown error with one fixed
  message (`HomePage.PageError.Foggy`), whatever the server said.

## Model

| member | source | states |
|---|---|---|
| UsageLimits.ParseTier | lib/usage-limits.ts:8 | reading a stored tier name gives a tier whose name is that string |
| UsageLimits.ParseTierName | lib/usage-limits.ts:8 | reading a tier's name back gives the tier (round trip) |
| UsageLimits.GetLimits | lib/usage-limits.ts:88-90 | a known tier gets its table entry, any other tier the anonymous entry; every entry has daily ≤ monthly, a downgrade threshold within the monthly cap, and warning levels strictly below their caps with urgent < gentle |
| UsageLimits.CapsTable | lib/usage-limits.ts:14-82 | the caps are anonymous 2/4, free 5/10, basic 10/50 and pro 20/200; an unknown tier gets the anonymous caps |
| UsageLimits.ModelForTierTable | lib/usage-limits.ts:95-98 | the tier model is PREMIUM for pro and STANDARD for every other tier |
| UsageLimits.DowngradeOnlyForPro | lib/usage-limits.ts:103-118 | a fallback model and a downgrade threshold exist exactly for pro; they are STANDARD and 100, the threshold is within the pro monthly cap, and the fallback differs from the pro model |
| UsageLimits.WarningThresholdsFromTable | lib/usage-limits.ts:123-129 | every tier's warning thresholds are its own table entry, never the default object, and lie strictly below the caps |
| UsageLimits.LimitDescriptionNamesCaps | lib/usage-limits.ts:134-144 | each description sentence starts with the decimal rendering of its tier's cap |
| PricingConfig.GetPricingConfig | lib/pricing-config.ts:160-168 | free, basic and pro get their own plan; any other tier gets the free plan |
| PricingConfig.GetRemainingInterpretations | lib/pricing-config.ts:241-249 | the result is max(0, monthly limit − used), so it lies in [0, limit] when used ≥ 0 |
| PricingConfig.PlanTable | lib/pricing-config.ts:20-158 | the integer and flag limits of the free, basic and pro plans |
| PricingConfig.MaxDreamLengthIncreases | lib/pricing-config.ts:32-114 | the dream length limit increases strictly from free (500) to basic to pro; an anonymous visitor gets 500 |
| PricingConfig.ShouldDowngradeCases | lib/pricing-config.ts:254-262 | false for every non-pro tier; for pro true exactly when used ≥ 200 |
| PricingConfig.HasFeatureCases | lib/pricing-config.ts:225-236 | a flag limit is returned as is and a numeric limit as "positive"; pro history retention (-1) is false; free lacks history, export and priority support |
| AiConfig.GetCurrentModel | lib/ai-config.ts:35-37 | a configured non-empty model overrides; otherwise the FREE model; never empty |
| AiConfig.ModelsDistinct | lib/ai-config.ts:10-26 | the five model identifiers are pairwise distinct |
| AiConfig.ModelByTierTable | lib/ai-config.ts:63-71 | free, standard and premium map to their models and any other name to FREE |
| AiConfig.ModelByComplexityCases | lib/ai-config.ts:77-91 | free always gets FREE (also by default); PREMIUM is chosen exactly for premium with length > 500; every other paid case gets STANDARD |
| AiService.SelectModel | lib/services/ai-service.ts:46-76 | a downgraded choice is pro with the pro fallback model; any other choice is the tier's own model |
| AiService.NonProKeepsModel | lib/services/ai-service.ts:50-54 | a non-pro tier keeps its tier model (STANDARD) without downgrade |
| AiService.ProDowngradeCases | lib/services/ai-service.ts:54-70 | the effective threshold is 100; pro below it or without usage data keeps PREMIUM; pro at or above it gets STANDARD, downgraded |
| AiService.DowngradeMonotone | lib/services/ai-service.ts:57 | once pro is downgraded at some monthly count it stays downgraded, to the same model, at every larger count |
| AiService.DowngradeRulesDisagree | lib/services/ai-service.ts:55-57 | between 100 and 199 monthly uses the service downgrades while `shouldDowngradeModel` says no |
| ValidationService.ValidateDreamInput | lib/services/validation-service.ts:23-47 | valid exactly for a string that is not all whitespace (the ECMAScript whitespace and line terminators, so a dream of no-break spaces is blank); a missing, falsy or non-string value is "required" with the received type; whitespace only is "cannot be empty" |
| ValidationService.MaxDreamLengthFor | lib/services/validation-service.ts:57-59 | every tier's dream length limit is at least 500 |
| ValidationService.ValidateDreamLength | lib/services/validation-service.ts:52-80 | invalid exactly when longer than the tier's maximum, with details naming the maximum, the length, the tier and whether an upgrade exists (tier ≠ pro) |
| ValidationService.ValidateApiConfig | lib/services/validation-service.ts:85-99 | invalid exactly when the API key is absent or empty, with the configuration error |
| ValidationService.MaxDreamLengthTable | lib/services/validation-service.ts:57-61 | anonymous and free get 500, basic 1000, pro 2000, an unknown tier 500 |
| ValidationService.TooLongMessageNamesLimit | lib/services/validation-service.ts:67 | the too-long message carries the decimal maximum at the expected position |
| AuthService.SignedInTier | lib/services/auth-service.ts:45-67 | an active, unexpired row gives its stored tier; a query error, a missing row or any other row gives free |
| AuthService.GetUserAuth | lib/services/auth-service.ts:21-78 | no user gives the anonymous result; a user gives an authenticated result with the user's id and the signed-in tier |
| AuthService.SignedInTierCases | lib/services/auth-service.ts:45-67 | the error, no-row, inactive and expired cases each give free; anonymous comes only from a stored anonymous tier |
| AuthService.GetUserIP | lib/services/auth-service.ts:80-90 | the trimmed first forwarded entry when non-empty, else the real-ip header when non-empty, else "unknown"; never empty |
| AuthService.ForwardedFirstEntry | lib/services/auth-service.ts:84-86 | the forwarded address is a contiguous piece of the header without a comma |
| Database.Select | lib/services/usage-service.ts:150-160 | a query returns the row exactly when it succeeds and the key is present, and a query error exactly when it fails |
| UsageService.CapsOf | lib/services/usage-service.ts:129-139 | every tier's daily cap is at most its monthly cap |
| UsageService.ValidateAnonymousUsage | lib/services/usage-service.ts:38-143 | allowed exactly when both summed totals are under the anonymous caps, carrying the totals and caps; a denial is the monthly one exactly when the monthly cap is reached, with its details |
| UsageService.RecordAnonymousUsage | lib/services/usage-service.ts:277-318 | for an hour in 0..23, the anonymous table becomes the single-bucket upsert of the old table and stays well formed |
| UsageService.AnonymousRecordPoint | lib/services/usage-service.ts:284-314 | the bucket (ip, today, hour) becomes old + 1 (1 after a failed read); a failed write changes nothing; every other bucket is unchanged; well-formedness is kept |
| UsageService.HourSumUpdate | lib/services/usage-service.ts:47-55 | changing one bucket changes an hour sum by that bucket's change, exactly when the bucket is in range |
| UsageService.DaySumUpdate | lib/services/usage-service.ts:57-65 | changing one bucket changes a day sum by that bucket's change, exactly when the bucket is in that month |
| UsageService.AnonymousRecordTotals | lib/services/usage-service.ts:47-65 | after a successful record, the daily and monthly totals of that ip each grow by one |
| UsageService.AnonymousRecordOthers | lib/services/usage-service.ts:47-65 | totals of other ips, days and months are unchanged by a record |
| UsageService.ValidateUserUsage | lib/services/usage-service.ts:145-275 | no row or a read error allows with 0/0; otherwise allowed exactly when both stored counts are under the caps; a denial is the daily one when the daily cap is reached, and only a monthly denial carries `upgradeAvailable` |
| UsageService.RecordUserUsage | lib/services/usage-service.ts:320-361 | the user table becomes the single-row upsert of the old table |
| UsageService.UserRecordCounts | lib/services/usage-service.ts:327-360 | the (user, month) row becomes (today, rolled daily + 1, monthly + 1), or (today, 1, 1) after a failed read; a failed write changes nothing; other rows are unchanged |
| UsageService.RecordedTimesCounts | lib/services/usage-service.ts:327-360 | n records on one day from an empty row give the row (today, n, n) |
| UsageService.DailyQuotaBoundary | lib/services/usage-service.ts:197-225 | after n records on one day the user is admitted exactly when n is below the daily cap |
| UsageService.StaleDailyCountDenies | lib/services/usage-service.ts:154-197 | a row from an earlier day at the daily cap is still denied by the daily cap, although the rolled count is 0 |
| UsageService.DenialDetailsValue | lib/services/usage-service.ts:70-125 | the denial details carry current usage, limits and tier, and a hint and `upgradeAvailable` exactly when present |
| ApiResponse.Stamped | lib/services/api-response.ts:54-63 | the generated timestamp is added and every caller key overrides it |
| ApiResponse.CreateSuccessResponse | lib/services/api-response.ts:54-63 | success with the data unchanged and metadata = timestamp merged with the caller's metadata |
| ApiResponse.CreateErrorResponse | lib/services/api-response.ts:68-84 | failure keeping message and code, with details = timestamp merged with the caller's details |
| ApiResponse.ErrorResponse | lib/services/api-response.ts:96-103 | an error response carries the status given and the error envelope |
| ApiResponse.DefaultStatuses | lib/services/api-response.ts:89-103 | success responses default to 200 and error responses to 400 |
| ApiResponse.ResetTimesBounds | lib/services/api-response.ts:116-118 | the monthly reset is day 1 of the next month, December rolling to January of the next year |
| ApiResponse.GetResetTimes | lib/services/api-response.ts:108-119 | the daily reset is after now and at most 24 hours later, and it is no later than the monthly reset |
| Calendar.NextDate | lib/services/api-response.ts:111-113 | the day after a valid date is valid |
| Calendar.FirstOfNextMonth | lib/services/api-response.ts:116-118 | day 1 of the following month, December rolling over |
| Calendar.DaysInYear | lib/services/api-response.ts:111-118 | the months of a year add up to 365 or 366 days |
| Calendar.LeapStep | lib/services/api-response.ts:111-118 | the leap-year count grows by one exactly at a leap year |
| Calendar.YearStep | lib/services/api-response.ts:111-118 | the day number of January 1 advances by the length of the year |
| Calendar.NextDateIndex | lib/services/api-response.ts:111-113 | the next date has the next day number |
| Calendar.FirstOfNextMonthIndex | lib/services/api-response.ts:116-118 | the first of next month is no earlier than tomorrow |
| Calendar.SetUTCHours | lib/services/api-response.ts:112 | setting the hours gives a valid date at a whole hour: below 24 the same date at that hour, 24 midnight of the next day |
| Calendar.SetUTCMonth | lib/services/api-response.ts:117 | setting the month gives a valid date |
| UsageRoute.Remaining | app/api/usage/route.ts:91-95 | max(0, limit − count): 0 exactly when the count reached the limit, otherwise limit − count, and at most the limit |
| UsageRoute.Get | app/api/usage/route.ts:15-115 | a session error gives 500 USAGE_ERROR; no user gives anonymous, 0/0 and source "default"; a user gets the signed-in tier, the rolled daily count, the monthly count, the tier's caps, remaining = max(0, cap − count) per window, and database metadata |
| UsageRoute.SummaryBounds | app/api/usage/route.ts:91-95 | remaining is 0 exactly at the cap, and usage + remaining = cap below it |
| UsageRoute.SummaryRollover | app/api/usage/route.ts:75-77 | no row gives 0/0; a row from another day gives 0 daily and its monthly count; today's row gives its counts |
| UsageRoute.ReadAfterRecord | app/api/usage/route.ts:75-77 | after one successful record on the same day both reported counts grow by one |
| UsageRoute.GetTierRule | app/api/usage/route.ts:56-64 | the reported tier is the stored one exactly when its row is active and unexpired, else free; the source is "database" |
| UserInfoRoute.EntitlementOf | app/api/user-info/route.ts:70-84 | the entitled stored row is shown with its tier; otherwise the placeholder (free, active) |
| UserInfoRoute.Get | app/api/user-info/route.ts:16-129 | a session error gives 500 USER_INFO_ERROR; no user gives the anonymous placeholder with zero usage; a user gets the chosen view, the rolled summary and metadata naming the tier used |
| UserInfoRoute.AgreesWithUsageRoute | app/api/user-info/route.ts:87-116 | for the same inputs both read endpoints report the same summary, and the metadata tier is the tier whose limits are used |
| UserInfoRoute.ViewRule | app/api/user-info/route.ts:70-84 | the stored row is shown exactly when it is entitled, else the free placeholder |
| InterpretRoute.SuccessMetadata | app/api/interpret/route.ts:109-124 | the success metadata carries the updated usage, the model and the downgrade flag |
| InterpretRoute.CheckRequest | app/api/interpret/route.ts:21-83 | the guard sequence of the endpoint computes the admission function of the tables and request |
| InterpretRoute.Serve | app/api/interpret/route.ts:85-144 | an AI failure gives 500 INTERNAL_ERROR and leaves the tables untouched; a success gives the served response and records usage for the principal |
| InterpretRoute.Post | app/api/interpret/route.ts:21-144 | a rejected request returns the rejection and changes nothing; an AI failure changes nothing; a success is served and recorded |
| InterpretRoute.AdmissionOrder | app/api/interpret/route.ts:27-83 | input, configuration, length and usage guards run in that order with codes INVALID_INPUT/400, CONFIG_ERROR/500, DREAM_TOO_LONG/400, RATE_LIMIT_EXCEEDED/429 |
| InterpretRoute.AdmittedPassedAll | app/api/interpret/route.ts:27-83 | an admitted request passed every guard |
| InterpretRoute.PrincipalChoice | app/api/interpret/route.ts:65-74 | a signed-in caller is metered by user id and an anonymous one by the client ip |
| InterpretRoute.ServedReport | app/api/interpret/route.ts:109-124 | the served response is 200 with the text, currentUsage = the checked counts + 1 with the same limits, and the model selected |
| InterpretRoute.UserReportMatchesLedger | app/api/interpret/route.ts:100-124 | for a user whose row is today's, the reported currentUsage equals the recorded row |
| InterpretRoute.UserReportStaleRow | app/api/interpret/route.ts:100-124 | for a user whose row is from an earlier day, the reported daily count is the stale count + 1 while the ledger restarts at 1; they agree only when the stale count is 0, and the monthly figures agree |
| InterpretRoute.AnonymousReportMatchesLedger | app/api/interpret/route.ts:100-124 | for an ip, the reported currentUsage equals the totals read back after recording |
| CreemConfig.SettingsOf | lib/creem-config.ts:10-18 | the provider URL defaults when unset; the callback URLs start with the app URL |
| CreemConfig.CreemClient.constructor | lib/creem-config.ts:69-72 | the key and URL given override the configured ones when non-empty |
| CreemConfig.VerifyWebhookSignature | lib/creem-config.ts:160-206 | accepted exactly for the hex digest, the base64 digest, or "sha256=" + the hex digest |
| CreemConfig.PrefixedBase64Rejected | lib/creem-config.ts:195-201 | "sha256=" + the base64 digest is rejected |
| CreemConfig.KeySplits | lib/creem-config.ts:238-239 | a plan key splits at "_" into the tier name and the cycle name |
| CreemConfig.Entries | lib/creem-config.ts:24-29 | the four product entries in table order, each carrying its configured id |
| CreemConfig.GetCreemProductId | lib/creem-config.ts:216-231 | succeeds exactly when the configured id is set and non-empty, returning it; otherwise the invalid tier-or-cycle error |
| CreemConfig.FirstMatch | lib/creem-config.ts:233-245 | no match exactly when no entry has the id; otherwise the plan of the first matching entry |
| CreemConfig.ParseTierFromProductId | lib/creem-config.ts:233-245 | the loop returns the plan of the first entry whose id matches, or none |
| CreemConfig.ProductIdRoundTrip | lib/creem-config.ts:216-245 | with four distinct set ids, parsing the product id of a plan gives the plan back |
| CreemConfig.MissingProductId | lib/creem-config.ts:233-245 | a missing id matches an unset basic monthly id; with all ids set it matches nothing |
| WebhookRoute.FirstSignature | app/api/webhooks/creem/route.ts:24-44 | none exactly when no listed header is non-empty; otherwise a listed non-empty header and its value |
| WebhookRoute.FirstSignatureIsEarliest | app/api/webhooks/creem/route.ts:24-44 | the header found is the first carrying a value in list order |
| WebhookRoute.FindSignature | app/api/webhooks/creem/route.ts:35-44 | the loop finds the first non-empty signature header and its name |
| WebhookRoute.HandleCheckoutCompleted | app/api/webhooks/creem/route.ts:139-232 | the table becomes the checkout update of the old table, and the result says whether it was handled |
| WebhookRoute.HandleSubscriptionUpdated | app/api/webhooks/creem/route.ts:243-277 | the table becomes the update-event rewrite of the old table |
| WebhookRoute.HandleSubscriptionStatus | app/api/webhooks/creem/route.ts:279-322 | the table becomes the cancel or expiry rewrite of the old table |
| WebhookRoute.Post | app/api/webhooks/creem/route.ts:11-134 | the response and new table are the webhook outcome of the old table and the request |
| WebhookRoute.SignatureGate | app/api/webhooks/creem/route.ts:46-68 | no signature gives 401 "Missing signature"; 401 exactly when the signature is missing or invalid; a 401 leaves the table unchanged |
| WebhookRoute.StatusMapping | app/api/webhooks/creem/route.ts:116-125 | 200 exactly for `{received: true}`; any other status leaves the table unchanged; a 200 means a no-op event or a handled one |
| WebhookRoute.OnlyReceivedIs200 | app/api/webhooks/creem/route.ts:116-125 | the only 200 response is `{received: true}` |
| WebhookRoute.FailureKeepsTable | app/api/webhooks/creem/route.ts:116-133 | a non-200 response leaves the table unchanged |
| WebhookRoute.SuccessWasHandled | app/api/webhooks/creem/route.ts:86-125 | a 200 response came from a no-op event or a successful handler |
| WebhookRoute.NoOpEvents | app/api/webhooks/creem/route.ts:92-111 | a verified creation event or unknown event type is acknowledged without changes |
| WebhookRoute.CheckoutEntitles | app/api/webhooks/creem/route.ts:158-211 | a handled checkout stores an active row with the product's tier and cycle that entitles for exactly 30 or 365 days; other users' rows are untouched |
| WebhookRoute.CheckoutRefusals | app/api/webhooks/creem/route.ts:158-180 | an unknown product or a missing user id fails without changes |
| WebhookRoute.StatusChangeEffects | app/api/webhooks/creem/route.ts:279-322 | only rows with the event's subscription id change: canceled keeps the tier, expired sets free; either way the user resolves to free |
| WebhookRoute.UpdateEffects | app/api/webhooks/creem/route.ts:246-273 | matching rows get the product's tier and cycle and the payload status when present; other rows are unchanged |
| WebhookRoute.CheckoutIdempotent | app/api/webhooks/creem/route.ts:158-211 | applying the same checkout event twice at the same instant is the same as once |
| WebhookRoute.CheckoutRedeliveredLater | app/api/webhooks/creem/route.ts:158-211 | a checkout applied again later succeeds or fails as before and keeps every tier, cycle, status and provider id; only the buyer's period restarts at the later clock, with the same length |
| WebhookRoute.UpdateIdempotent | app/api/webhooks/creem/route.ts:246-273 | applying the same update event twice is the same as once |
| WebhookRoute.StatusChangeIdempotent | app/api/webhooks/creem/route.ts:279-322 | applying the same cancel or expiry event twice is the same as once |
| WebhookRoute.DispatchIdempotent | app/api/webhooks/creem/route.ts:86-113 | dispatching the same event twice at the same instant is the same as once |
| WebhookRoute.RedeliveryIdempotent | app/api/webhooks/creem/route.ts:11-134 | a webhook redelivered at the same instant gives the same response and leaves the table as the first delivery did |
| WebhookRoute.RedeliveredLater | app/api/webhooks/creem/route.ts:11-134 | a webhook redelivered at any later instant gives the same response, and the table differs from the first delivery's at most in the period columns |
| CheckoutRoute.CheckParams | app/api/checkout/create-session/route.ts:17-48 | parameters pass exactly for tier basic or pro and cycle monthly or yearly, parsed to the plan named; a missing one is INVALID_PARAMETERS |
| CheckoutRoute.ParamCodes | app/api/checkout/create-session/route.ts:26-48 | free or any other tier is INVALID_TIER; a bad cycle for a paid tier is INVALID_BILLING_CYCLE |
| CheckoutRoute.GuardOrder | app/api/checkout/create-session/route.ts:17-66 | parameter errors come first with status 400 and no provider call; then a signed-out caller gets 401 AUTH_REQUIRED |
| CheckoutRoute.ProviderCallCarriesUser | app/api/checkout/create-session/route.ts:70-100 | a provider call uses the plan's product id and metadata carrying the user id, tier and cycle; a 200 needs a created session |
| SubscriptionRoute.Get | app/api/subscription/manage/route.ts:12-60 | a session error gives 500, no user 401 AUTH_REQUIRED; a user gets the stored row from the database or the free placeholder from "default" |
| SubscriptionRoute.GetShowsUnentitledRow | app/api/subscription/manage/route.ts:31-44 | an expired or inactive stored row is still returned here while user-info shows the free placeholder |
| SubscriptionRoute.Delete | app/api/subscription/manage/route.ts:62-128 | the response, provider cancel and new table are the cancellation outcome of the old table |
| SubscriptionRoute.CancelEffects | app/api/subscription/manage/route.ts:95-101 | a successful cancel sets only this user's status to canceled, keeps the tier, and the user then resolves to free |
| SubscriptionRoute.CancelGuards | app/api/subscription/manage/route.ts:70-126 | the provider is called exactly when a subscription id exists; failures leave the table unchanged; no row is 404 SUBSCRIPTION_NOT_FOUND; no user is 401 |
| UsageLimitContext.Rolled | contexts/usage-limit-context.tsx:103-140 | the snapshot is stamped today and this month; a count survives only if its day or month is current; missing or corrupt storage gives zeros |
| UsageLimitContext.RolledIdempotent | contexts/usage-limit-context.tsx:113-139 | rolling a rolled snapshot again changes nothing |
| UsageLimitContext.RolledKeepsCurrent | contexts/usage-limit-context.tsx:113-139 | a current snapshot is kept, a new day zeroes only the daily count, missing or corrupt storage gives the fresh snapshot |
| UsageLimitContext.LimitTierFor | contexts/usage-limit-context.tsx:153-168 | an explicit tier wins, then anonymous when signed out, then the subscription tier; none exactly when signed in without any tier |
| UsageLimitContext.UserTierOf | contexts/usage-limit-context.tsx:475-503 | signed out is anonymous; a subscription tier is used; otherwise one of free, basic or pro |
| UsageLimitContext.RemainingIn | contexts/usage-limit-context.tsx:513-520 | max(0, cap − count) per window, 0/0 without a snapshot |
| UsageLimitContext.RemainingCount | contexts/usage-limit-context.tsx:560 | the smaller of the two remaining counts |
| UsageLimitContext.UsageLimitProvider.constructor | contexts/usage-limit-context.tsx:66-76 | the initial state: no snapshot, not reached, no subscription, not loading, not initialised |
| UsageLimitContext.UsageLimitProvider.UpdateLimitStatus | contexts/usage-limit-context.tsx:153-189 | only the reached flag changes, to the status of the tier resolved |
| UsageLimitContext.UsageLimitProvider.SyncFromResponse | contexts/usage-limit-context.tsx:345-370 | the state becomes the synced state: server counts overwrite, stamped and stored |
| UsageLimitContext.UsageLimitProvider.IncrementUsage | contexts/usage-limit-context.tsx:455-468 | the state becomes the incremented state |
| UsageLimitContext.UsageLimitProvider.CompleteUserInfo | contexts/usage-limit-context.tsx:221-268 | the state becomes the user-info-loaded state for the reply |
| UsageLimitContext.UsageLimitProvider.FetchUserInfo | contexts/usage-limit-context.tsx:193-272 | the fetch runs exactly when forced or not already loading; then the state becomes the loaded state, otherwise it is unchanged |
| UsageLimitContext.UsageLimitProvider.InitEffect | contexts/usage-limit-context.tsx:374-386 | a fetch starts exactly for a signed-in user not yet initialised |
| UsageLimitContext.UsageLimitProvider.LogoutEffect | contexts/usage-limit-context.tsx:389-426 | the state becomes the logout-checked state of the old one |
| UsageLimitContext.UsageLimitProvider.DataInitEffect | contexts/usage-limit-context.tsx:429-449 | the state becomes the data-initialised state of the old one |
| UsageLimitContext.UsageLimitProvider.AuthChanged | contexts/usage-limit-context.tsx:374-449 | the effects run in order after a sign-in change |
| UsageLimitContext.CanUseIffRemaining | contexts/usage-limit-context.tsx:508-520 | with a snapshot, use is allowed exactly when something remains; without one, use is allowed while 0 remains |
| UsageLimitContext.LimitTypeOrder | contexts/usage-limit-context.tsx:524-530 | none exactly when use is allowed; daily is reported when the daily cap is reached; monthly only when daily is not |
| UsageLimitContext.StatusAgreesWithUserTier | contexts/usage-limit-context.tsx:153-189 | with a tier known, the reached flag is exactly the negation of `canUse` |
| UsageLimitContext.SyncFlag | contexts/usage-limit-context.tsx:345-370 | a sync stores exactly the server counts; the flag then agrees with `canUse`, or stays as it was when no tier is known |
| UsageLimitContext.UserInfoFlag | contexts/usage-limit-context.tsx:193-268 | after user info the flag agrees with `canUse`; a failed request leaves a free user with zero counts; success caches the tier used |
| UsageLimitContext.IncrementAddsOne | contexts/usage-limit-context.tsx:455-468 | nothing happens without a snapshot; otherwise both counts grow by one and are stored |
| UsageLimitContext.LogoutResets | contexts/usage-limit-context.tsx:389-426 | signing out after signing in clears both storage keys and resets to a fresh anonymous visitor who may go on |
| UsageLimitContext.NoLogoutKeepsStorage | contexts/usage-limit-context.tsx:389-426 | any other change remembers the sign-in state and keeps storage |
| UsageLimitContext.LoginStartsLoading | contexts/usage-limit-context.tsx:374-386 | signing in before initialisation marks the provider loading and initialised |
| UseUsageLimit.LimitSetting | hooks/use-usage-limit.ts:18-19 | an unset or empty setting parses the fallback, any other setting parses itself |
| UseUsageLimit.DefaultLimits | hooks/use-usage-limit.ts:18-19 | without configuration the limits are 5 signed out and 10 signed in |
| UseUsageLimit.ConfiguredLimit | hooks/use-usage-limit.ts:18-19 | a configured decimal number is the limit |
| UseUsageLimit.RolledCount | hooks/use-usage-limit.ts:35-55 | today's stamp; the stored count only when it is from today, else 0 |
| UseUsageLimit.RemainingOf | hooks/use-usage-limit.ts:76-82 | NaN exactly against NaN, otherwise max(0, limit − count) |
| UseUsageLimit.StatusMatchesCanUse | hooks/use-usage-limit.ts:76-89 | with a numeric limit, reached is exactly "cannot use", and something remains exactly when use is allowed |
| UseUsageLimit.NaNLimit | hooks/use-usage-limit.ts:76-89 | against a NaN limit use is refused, yet the limit is not reported as reached |
| UseUsageLimit.UsageLimitHook.constructor | hooks/use-usage-limit.ts:18-26 | the first render: count 0, not reached, 0 remaining |
| UseUsageLimit.UsageLimitHook.UpdateLimitStatus | hooks/use-usage-limit.ts:76-82 | remaining and reached are set from the current limit and the count |
| UseUsageLimit.UsageLimitHook.InitEffect | hooks/use-usage-limit.ts:69-73 | the count is today's rolled count and, with a numeric limit, reached is exactly "cannot use" |
| UseUsageLimit.UsageLimitHook.IncrementUsage | hooks/use-usage-limit.ts:92-103 | storage holds the rolled count + 1 stamped today, and the state follows it |
| UseUsageLimit.UsageLimitHook.AuthChanged | hooks/use-usage-limit.ts:69-73 | after a sign-in change the count and flag are recomputed for the new state |
| HomePage.PageTier | app/page.tsx:68-71 | signed out is anonymous; the subscription tier when present; otherwise free |
| HomePage.PageTierAgreesWithCache | app/page.tsx:68-71 | the page and the cache agree on the tier except while loading, when the cache may use the cached tier and the page says free |
| HomePage.MaxDreamLength | app/page.tsx:73-77 | the client length limit is at least 500 |
| HomePage.MaxDreamLengthMatchesServer | app/page.tsx:73-77 | the client length limit equals the server's, so the client accepts a length exactly when the server does |
| HomePage.Rank | app/page.tsx:209-282 | each toast has a rank, and that rank leads back to it |
| HomePage.FirstQualifying | app/page.tsx:209-282 | the first qualifying rank at or after a position, none being skipped |
| HomePage.ToastPriority | app/page.tsx:209-282 | no toast when signed out; otherwise none exactly when nothing qualifies, else the qualifying toast of highest priority |
| HomePage.ToastForUnrolled | app/page.tsx:214-281 | the conditions run in the order pro downgrade, monthly urgent, monthly gentle, daily urgent, daily gentle |
| HomePage.ChooseToast | app/page.tsx:209-282 | the flag-guarded check sequence picks the toast of the priority order |
| HomePage.LevelToast | app/page.tsx:225-281 | one window's toast: urgent when met, gentle at the gentle level, otherwise none |
| HomePage.PremiumToastAtDowngrade | app/page.tsx:214-222 | the pro toast fires exactly at the monthly count where the service starts downgrading |
| HomePage.Badge | app/page.tsx:347-375 | pro with more than 100 remaining sees remaining − 100 premium uses; pro otherwise the standard badge; others the plain counts |
| HomePage.BadgeMatchesModel | app/page.tsx:347-367 | the premium badge shows exactly while the service still serves the premium model, counting premium uses left |
| HomePage.SubmitGuards | app/page.tsx:134-150 | a request is sent exactly when the trimmed dream is non-empty, within the length limit and allowed; a refusal leaves the cache alone, and only an over-long dream opens the length prompt |
| HomePage.ReplyHandling | app/page.tsx:152-288 | server counts on a refusal are synced before the error; failures show the fixed message and no toast; success shows the text, counting locally without server counts |
| HomePage.Home.constructor | app/page.tsx:27-33 | the page's initial state |
| HomePage.Home.SetDream | app/page.tsx:386 | only the dream text changes |
| HomePage.Home.HandleInterpret | app/page.tsx:133-289 | the page and cache end in the submission state of the old ones |
| HomePage.Home.CheckDream | app/page.tsx:134-150 | passes exactly when nothing refuses; a refusal sets the refused state |
| HomePage.Home.CheckNotEmpty | app/page.tsx:134-137 | passes exactly for a non-blank dream, else shows the empty-dream error |
| HomePage.Home.CheckLength | app/page.tsx:140-144 | passes exactly within the length limit, else the too-long error and the length prompt |
| HomePage.Home.CheckAllowance | app/page.tsx:147-150 | passes exactly when the cache allows use, else the limit message |
| HomePage.Home.Send | app/page.tsx:152-288 | the page and cache handle the reply as the reply function says |
| HomePage.Home.SendFailed | app/page.tsx:168-180 | a failed request syncs server counts and shows the error |
| HomePage.Home.SendSucceeded | app/page.tsx:183-282 | a success records usage, shows the text and picks the toast |
| HomePage.Home.RecordUsage | app/page.tsx:186-206 | usage is synced from the server counts when present, otherwise incremented |
| HomePage.Home.PromptEffect | app/page.tsx:85-107 | no change while sign-in loads; then the login prompt exactly for a signed-out visitor at the limit and the upgrade prompt exactly for a signed-in one; never both |
| Text.TrimEmptyIff | lib/services/validation-service.ts:37-46 | a trimmed string is empty exactly when the string is all ECMAScript whitespace or line terminators |
| Text.NoBreakSpaceIsBlank | lib/services/validation-service.ts:37 | a lone no-break space trims to the empty string |
| ValidationService.NoBreakSpaceDream | lib/services/validation-service.ts:37-43 | a dream of a lone no-break space "cannot be empty" |
| Text.TrimIsInfix | lib/services/auth-service.ts:84-86 | the trimmed string is a contiguous piece of the input with no ECMAScript whitespace or line terminator at either end |
| Text.ParseInt | hooks/use-usage-limit.ts:18-19 | `parseInt` skips leading whitespace, reads one sign and the digit prefix; NaN exactly without digits |
| Text.ParseIntOfDecimal | hooks/use-usage-limit.ts:18-19 | `parseInt` reads back the decimal rendering of every natural number |
| Text.DecimalRoundTrip | lib/usage-limits.ts:134-144 | rendering a number in decimal and reading it back gives the number |
| Text.BeforeFirst | lib/services/auth-service.ts:84-86 | the part before the first separator: a prefix without it, followed by it or the end |

## Left out

- LLM invocation and prompt text: the AI step is an input `Result`; the provider call is a foreign library.
- Supabase clients, cookies, sessions and OAuth: each query result is an input (`Lookup`, success flags, the session `Result`). The tables are maps.
- HMAC-SHA256 and base64 computation: the expected digests are inputs. The timing of the non-constant-time comparison is not modelled.
- An unset webhook secret (`CREEM_WEBHOOK_SECRET`, lib/creem-config.ts:13) makes `createHmac` throw inside the handler, which answers 500 "Webhook processing failed"; the model takes the digests as given and never reaches that path.
- The HTTP calls of `CreemClient` (create checkout, get and cancel subscription): the checkout reply is an input, and a cancel is the `providerCancel` output naming the subscription.
- Concurrency: both recorders read and then upsert non-atomically. The model is a sequential execution. React effect timing and the async gaps of `fetchUserInfo` are not modelled either.
- Floating point: prices, savings, discounts, `MODEL_PARAMS` and percentages are not modelled.
- ISO and locale formatting: dates are `Calendar` values, and `toISOString` slices become `Date` and `YearMonth` equality. The reset times' locale strings are not modelled.
- The clock: "now", the local hour of the anonymous bucket, the UTC day and the month are separate inputs. The mixture of UTC day and local hour in the source is kept as the caller's choice.
- `updated_at` columns and other timestamps written for bookkeeping only.
- The webhook envelope's JSON parsing: a body that is not an object is `None`; non-string JSON field types are not modelled.
- Logging and the debug header dumps (`available_headers`) are not modelled.
- String length is the count of `char`s, not UTF-16 code units. `Capitalize` upper-cases ASCII letters only.
- `fetchUserSubscription` and `syncUsageFromDatabase` of the usage cache are not modelled: no core path calls them.
- The server-side-rendering branch of the usage cache (`typeof window === "undefined"`) is not modelled: the model runs in the browser.
- Device storage writes cannot fail in the model.
- Toast texts, durations and the `setTimeout` delays: a toast is the `Toast` value chosen.
- UI rendering, dialogs and the OAuth-callback effects of the home page are not modelled.
- The `currentUsage` fields of a server reply are assumed to be numbers when present.
- HomePage.ErrorText: the page's error strings are `PageError` values; the exact texts are given by a function with no contract.
- UseUsageLimit.UsageLimitHook.constructor: takes the two parsed limits as parameters instead of reading configuration; `AnonymousLimitOf` and `AuthenticatedLimitOf` give their values.
