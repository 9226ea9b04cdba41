# Ley en Mano backend: billing, quota and access rules in Dafny

This project models the business rules of the Ley en Mano backend, a FastAPI service that answers legal questions with Gemini, sells query packs through Stripe and throttles anonymous use. The model covers:

- **The Stripe webhook** (`BillingWebhook`). Its guard chain turns a `checkout.session.completed` event into an entitlement. That entitlement is written into a ledger keyed by checkout-session id, where a repeated delivery never adds a second row.
- **One-time checkout** (`BillingRoutes`). The session-cookie lookup, plan validation and the metadata the webhook later reads back.
- **The p99 → p199 upgrade** (`UpgradeCheckout`). Preconditions, the prorated credit, the single-use coupon, and get-or-create of the Stripe customer with its write-back to the users table.
- **Tier resolution** (`PolicyService`). Guest, free or premium limits, the remaining count and the reset time.
- **The usage repository** (`UsageRepo`). The visitor upsert, the append-only usage log and its windowed counts, and the subscription and plan lookups.
- **The users and sessions tables** (`AuthRepo`). Get-or-insert by normalised e-mail, and sessions stored under a peppered hash.
- **The per-(IP, key) throttle** (`Blocklist`). It counts requests in a window and blocks for five minutes.
- **The two Gemini context-cache slots** (`Cache`). Each has its own time to live.
- **Request validators.** Client-IP extraction (`IpUtils`, `RateLimit`), the browser and fingerprint check (`Antibot`) and the API-key check (`Security`).

`Wrappers` holds the Option/Result/HTTP-error types. `Strings` models the Python string built-ins the code relies on: `strip`, `lower`, `split(...)[0]`, `int` and `str`.

Modelling conventions:

- **Database tables are values or class fields.** The entitlements ledger and the visitors and throttle records are maps. Users, sessions, usage events and subscriptions are sequences, read with first-match semantics where the code calls `fetchone()`.
- **Foreign calls are parameters.** Stripe (signature verification, `Session.retrieve`, `Customer.retrieve/create`, `Coupon.create`, `checkout.Session.create`), Gemini and SHA-256 become parameters: a `Call` or `Result` value for each reply, and a `string -> string` function for the digest.
- **Clocks are integers.** Each operation takes its clock as a parameter `now` in whole seconds. The usage windows and the daily reset read the America/Mexico_City local clock, so a local day is a multiple of 86400 seconds. The throttle, the cache slots and the coupon's `redeem_by` read Unix time (`time.time()`); a cache creation reads the clock a second time once Gemini has answered, and that reading (`stampedAt`) is a parameter of its own. Session expiry and entitlement creation use UTC instants: the server clock when a session is created, and the database's `NOW()` when rows are written or checked.
- **Uncaught exceptions keep their effect.** An exception the handler does not catch (a bad `int(...)`, a raising `Customer.create`) is modelled as the framework's 500 reply, not as a precondition.

Two places where the code's own comments or arithmetic differ from what the model states:

- **Upgrade supersession.** The docstring of the upgrade handler (app/upgrade_checkout.py:223) says the webhook will create the p199 entitlement and mark the p99 one as expired. The webhook in `app/billing_webhook.py` only inserts the new entitlement and never touches the old one; the model follows the webhook. The upgrade session's metadata has no `plan_code`, so the webhook takes the plan from the price metadata alone (`UpgradeCheckout.UpgradePlanComesFromPrice`).
- **Credit rounding.** The code divides the price by the quota in floating point, multiplies by the remaining queries and truncates. The model uses the exact floor of the same quotient (see "Left out").

## Model

| member | source | states |
|---|---|---|
| Strings.Strip | app/billing_routes.py:50 | `str.strip()`: the result consists of characters of the input and neither starts nor ends with whitespace |
| Strings.NormalizeIdempotent | app/billing_webhook.py:83 | `strip().lower()` applied twice equals applying it once, so a normalised plan code or e-mail survives re-normalisation |
| Strings.BeforeFirst | app/ip_utils.py:12 | `s.split(sep)[0]` contains no separator, is a prefix of `s`, and is followed in `s` by the separator when shorter |
| Strings.ParseInt | app/billing_webhook.py:84-85 | `int(s)` succeeds exactly when the stripped text is ASCII digits, optionally after one `+` or `-`. Its value is the decimal value of the digits, negated after `-`. Every other string is None, the ValueError case |
| Strings.ParseShowRoundTrip | app/upgrade_checkout.py:311-313 | `int(str(n)) == n` for every integer, so the numbers written into metadata read back |
| BillingWebhook.Safe | app/billing_webhook.py:18-23 | A string of at most `maxlen` characters is returned unchanged; a longer one becomes its first `maxlen` characters followed by `...` |
| BillingWebhook.ProcessDelivery | app/billing_webhook.py:27-141 | 400 exactly when the signature is missing or does not verify, and then nothing else happens. An insert happens only with an acknowledged reply. Every inserted row: carries the event's checkout-session id, a positive quota with `remaining == quota_total`, status `active`, a plan in {p99, p199}, and the non-blank metadata `user_id`, which is also the ensured user |
| BillingWebhook.Grant | app/billing_webhook.py:58-141 | After the `user_id` check, the user is always ensured and no reply is a 400. A row is inserted only with an acknowledged reply, for that user and that checkout session, active, with a positive quota, `remaining == quota_total`, and a plan in {p99, p199} |
| BillingWebhook.OtherEventsIgnored | app/billing_webhook.py:47-48 | A verified event of any type other than `checkout.session.completed` is acknowledged, ensures no user and inserts nothing |
| BillingWebhook.VerifiedDeliveriesAcknowledged | app/billing_webhook.py:42-141 | After verification every path is acknowledged, including retrieve failure, missing line items, invalid plan or quota, and DB failure. The exception is an `int(...)` that raises on malformed `quota_total`/`validity_months` metadata |
| BillingWebhook.GuardsPreventInsert | app/billing_webhook.py:51-93 | A blank `user_id`, a plan code outside {p99, p199} or a non-positive `quota_total` each prevent the insert |
| BillingWebhook.GrantedEntitlement | app/billing_webhook.py:79-127 | When all guards pass and the DB is reachable, the inserted row has: the stripped `user_id`; the resolved plan code; the price's quota as total and remaining; the price's `validity_months`, or 12 when absent; the session's checkout-session id, customer and payment intent; the price id; status `active`; the fresh entitlement id and `now` |
| BillingWebhook.ResolvePlanCode | app/billing_webhook.py:83 | The resolved plan code is already stripped and lower-cased: normalising it again changes nothing |
| BillingWebhook.PricePlanCodeTakesPrecedence | app/billing_webhook.py:83 | A non-empty price-level `plan_code` decides the plan, normalised, whatever the session metadata says |
| BillingWebhook.InsertIfAbsent | app/billing_webhook.py:95-120 | `ON CONFLICT DO NOTHING`: the ledger gains exactly the session id; existing rows never change; a new id receives the new row |
| BillingWebhook.DeliverKeepsKeying | app/billing_webhook.py:95-120 | Any sequence of deliveries keeps every ledger row filed under its own checkout-session id |
| BillingWebhook.RedeliverySameSession | app/billing_webhook.py:50-120 | All redeliveries of one verified event can only insert for that event's checkout session |
| BillingWebhook.AtMostOneEntitlementPerSession | app/billing_webhook.py:95-141 | Idempotence of any number of deliveries for one session. Other ledger entries never change. An existing entitlement is never overwritten. The session has an entitlement afterwards exactly when it had one or some delivery inserted. For a session not yet in the ledger, the row kept is the one from the first delivery that inserts, wherever it falls in the sequence |
| BillingWebhook.WebhookStore.EnsureUser | app/billing_webhook.py:58 | The user exists afterwards; the ledger is unchanged |
| BillingWebhook.WebhookStore.InsertEntitlement | app/billing_webhook.py:95-136 | The ledger becomes `InsertIfAbsent` of the old one and stays keyed by session; the rowcount is 0 on conflict and 1 otherwise |
| BillingWebhook.WebhookStore.StripeWebhook | app/billing_webhook.py:26-141 | The reply is the guard chain's. The ledger is the old ledger after that delivery's effect, still keyed by session. The users gain exactly the ensured user |
| UsageRepo.MergeVisitor | app/usage_repo.py:18-32 | An unseen visitor gets a new row. An existing one keeps its `created_at` and its stored `user_id` when the new one is None, takes the new `user_id` otherwise, and always updates `last_seen_at` |
| UsageRepo.UpsertNeverUnlinks | app/usage_repo.py:27 | Once a visitor is linked to a user, no upsert unlinks it |
| UsageRepo.ActiveSubscription | app/usage_repo.py:35-61 | The result is a row of the user that is `active` with `current_period_end > now`, and has the latest end among such rows. None exactly when no row qualifies |
| UsageRepo.PlanQuota | app/usage_repo.py:64-75 | The plan's monthly quota, and 0 for an unknown plan code |
| UsageRepo.DayWindow | app/usage_repo.py:78-82 | A half-open interval [local midnight, next midnight) that contains `now` |
| UsageRepo.DayWindowUnique | app/usage_repo.py:78-82 | The day window is the only midnight-aligned day containing `now` |
| UsageRepo.CountAllowed | app/usage_repo.py:85-131 | `COUNT(*)` of allowed, owned events with `start <= created_at < end` never exceeds the log's length |
| UsageRepo.CountAppend | app/usage_repo.py:134-158 | Appending an event raises a count by 1 when the event is counted, and by 0 otherwise |
| UsageRepo.CountZero | app/usage_repo.py:85-131 | A count is 0 exactly when no event of the log passes its filter |
| UsageRepo.CountDayUsage | app/usage_repo.py:85-114 | Today's count is at most the log's length, and is 0 exactly when no event is allowed, owned by the counted user (or, without a user, the visitor) and inside today's window |
| UsageRepo.CountPeriodUsage | app/usage_repo.py:117-131 | The period count is at most the log's length, and is 0 exactly when no event is allowed, of that user and inside `[start, end)` |
| UsageRepo.InsertRaisesDayCount | app/usage_repo.py:85-158 | An event inserted now raises today's count by exactly 1 when it is allowed and matches the counted user (or, without a user, the visitor), and leaves it unchanged otherwise |
| UsageRepo.UsageStore.UpsertVisitor | app/usage_repo.py:18-32 | The visitors map gains the visitor with the merged row. Every other visitor and the event log are unchanged |
| UsageRepo.UsageStore.InsertUsageEvent | app/usage_repo.py:134-158 | The log grows by exactly one event stamped `now`; visitors are unchanged |
| PolicyService.ResetAtDaily | app/policy_service.py:29-36 | The reset is a local midnight strictly after `now` and at most one day later |
| PolicyService.ResetIsNextMidnight | app/policy_service.py:29-36 | No local midnight lies strictly between `now` and the reset, so it is the first midnight after `now` |
| PolicyService.ResetEndsCountingWindow | app/policy_service.py:29-36 | The daily reset is the end of the window in which the day's usage is counted |
| PolicyService.Remaining | app/policy_service.py:39-90 | `max(0, limit - used)` is never negative, is positive exactly when `used < limit`, and is at most the limit when `used >= 0` |
| PolicyService.BuildPolicy | app/policy_service.py:39-90 | `remaining` is never negative. `plan_code` is set only in the premium branch. The profile is guest exactly when `user_id` is None or empty |
| PolicyService.PremiumTier | app/policy_service.py:41-58 | A user with an active subscription is premium: flash, full answers, full cards, no daily limit, and the plan quota as monthly limit. Remaining is counted over the billing period, and the reset is the period end |
| PolicyService.FreeTier | app/policy_service.py:60-74 | A user without an active subscription is free: lite, `diagnostico_y_blindaje`, two cards, a daily limit of 3 counted by user, and the daily reset |
| PolicyService.GuestTier | app/policy_service.py:41-90 | A request without a user is a guest: lite, `blindaje_only`, one card, a daily limit of 2 counted by visitor. Subscriptions never change the result |
| PolicyService.RemainingWithinLimit | app/policy_service.py:39-90 | In every branch, `0 <= remaining <= max(0, limit)` |
| AuthRepo.SessionHashPreimage | app/auth_repo.py:11-13 | With a pepper, the hashed text is the pepper, then `:`, then the session id; without one it is the bare session id |
| AuthRepo.SessionHashPreimageInjective | app/auth_repo.py:11-13 | For a fixed pepper, distinct session ids have distinct hash pre-images |
| AuthRepo.SessionHashInjective | app/auth_repo.py:11-13 | With a collision-free digest, two session ids share a stored hash only when they are equal; `_session_hash` in the checkout routes (app/billing_routes.py at lines 42-44) computes the same digest, so the model uses this one function for both and the same holds for the cookie lookup |
| AuthRepo.UserIdByEmail | app/auth_repo.py:22-25 | The lookup by e-mail is None exactly when no row has that e-mail, and otherwise returns the id of a row that has it |
| AuthRepo.UserIdByEmailAppend | app/auth_repo.py:22-30 | A lookup in a table grown by one row finds the old answer, or else the new row |
| AuthRepo.UserTable.UpsertUserByEmail | app/auth_repo.py:15-33 | The e-mail is normalised. A known address returns its stored id and inserts nothing. An unseen one inserts exactly one row with the fresh id and returns it. E-mails stay unique, and the normalised address resolves to the returned id afterwards, so a second call with an equal normalised address returns the same id |
| AuthRepo.SessionTable.CreateSession | app/auth_repo.py:35-56 | Appends one row that stores only the session hash, with `expires_at = now + days·86400` and `revoked_at` NULL, and returns the raw id |
| BillingRoutes.GetCookie | app/billing_routes.py:46-51 | None for a missing or whitespace-only cookie, the stripped value otherwise |
| BillingRoutes.SessionUserId | app/billing_routes.py:62-73 | A user is returned only from a row with the cookie's hash, no `revoked_at` and `expires_at > now`; None exactly when no row qualifies |
| BillingRoutes.SessionUserIdAppend | app/billing_routes.py:62-73 | A lookup in a sessions table grown by one row finds the old answer, or else the new row |
| BillingRoutes.GetSessionUserId | app/billing_routes.py:53-73 | No cookie gives None; otherwise the user of the live session stored under the cookie's hash |
| BillingRoutes.CreatedSessionAuthenticates | app/auth_repo.py:35-56 | A session created by `create_session` authenticates its user at any time before it expires, provided no live session already sits under the same hash |
| BillingRoutes.UserEmail | app/billing_routes.py:75-82 | `_get_user_email` answers from the first row of that user: its e-mail when non-empty, else None. An unknown user gives None |
| BillingRoutes.PlanToPrice | app/billing_routes.py:31-34 | The purchasable plans are exactly p99 and p199 |
| BillingRoutes.CheckoutParamsFor | app/billing_routes.py:92-130 | 401 "No autenticado" exactly when there is no session user, which is checked before the plan. 400 "plan_code inválido" exactly when the normalised plan is not p99 or p199. Otherwise a one-item payment for the plan's price, with the `/?billing=ok` and `/?billing=cancel` URLs under the front-end base, the user's e-mail, and metadata `user_id`, normalised `plan_code`, `app` and `billing_type` |
| BillingRoutes.CreateCheckoutSession | app/billing_routes.py:92-134 | The checks' error is returned first. A Stripe exception becomes 502 `Stripe error: <type>`. Success returns Stripe's session URL |
| BillingRoutes.CheckoutMetadataFeedsWebhook | app/billing_routes.py:124-129 | For a price without `plan_code`, the webhook resolves the plan the buyer chose, and it is in {p99, p199}. It attributes the purchase to the buyer |
| UpgradeCheckout.MxnToCents | app/upgrade_checkout.py:170-171 | Cents are never negative, are whole pesos, are positive exactly for a positive amount, and equal 100 × the amount for non-negative amounts |
| UpgradeCheckout.ProratedCredit | app/upgrade_checkout.py:266-267 | The credit is the floor of `remaining × from_price / quota_total`: non-negative, never above the value of the unused queries, and the largest such whole number |
| UpgradeCheckout.CreditAtMostPricePaid | app/upgrade_checkout.py:266-267 | With `0 <= remaining <= quota_total`, the credit never exceeds the price paid |
| UpgradeCheckout.CreditMonotone | app/upgrade_checkout.py:266-267 | More unused queries never give less credit |
| UpgradeCheckout.UpgradeQuote | app/upgrade_checkout.py:225-276 | 401 `No autenticado` exactly without a session user, before any other check. 400 unless the target is p199 after normalisation and the active entitlement's plan is p99. Once those pass, in order: a missing plan row gives 500 `No pude leer plans desde DB`; a missing `price_mxn` gives 500 `Plan sin price_mxn en DB`; no destination price id (DB or configured) gives 500 `Plan destino sin stripe_price_id`; `quota_total <= 0` gives 500; a prorated credit reaching the destination price gives 400. On success: the credit is the prorated credit, `0 <= credit < to_price`, and the price id is the DB one when present, else the configured one |
| UpgradeCheckout.FullyCoveredUpgradeRefused | app/upgrade_checkout.py:266-276 | Once the earlier checks pass, the upgrade proceeds exactly when the prorated credit is below the destination price, and is refused with 400 otherwise |
| UpgradeCheckout.CouponParamsFor | app/upgrade_checkout.py:180-201 | Non-positive credit gives 400. Otherwise the request is for a once-only MXN coupon of credit × 100 cents, with at most one redemption, redeemable until `now + 1800`, tagged with the user and the superseded entitlement |
| UpgradeCheckout.CreateOneTimeCoupon | app/upgrade_checkout.py:173-209 | Succeeds exactly for a positive credit and a Stripe reply with a non-empty id, and returns that id. A Stripe error or a missing id gives 502 |
| UpgradeCheckout.CleanCustomerId | app/upgrade_checkout.py:120 | The cleaned id is a contiguous slice of the stored id, and every character removed from either end is a blank or a quote mark. It neither starts nor ends with a double quote, so a stored id with any other character is never cleaned to "" |
| UpgradeCheckout.CleanKeepsPlainId | app/upgrade_checkout.py:120 | An id with no blank or quote at either end is used as stored |
| UpgradeCheckout.StoredCustomerId | app/upgrade_checkout.py:89-101 | The first row of the user decides: its customer id when non-empty, else None. An unknown user gives None |
| UpgradeCheckout.SetCustomerId | app/upgrade_checkout.py:103-114 | The UPDATE sets the customer id on exactly the user's rows and leaves every other row unchanged |
| UpgradeCheckout.SavedCustomerIdReadBack | app/upgrade_checkout.py:89-114 | After the UPDATE, the lookup returns the saved id whenever the user has a row |
| UpgradeCheckout.CustomerOutcome | app/upgrade_checkout.py:116-141 | Succeeds exactly when the cleaned stored id is accepted (and is then returned) or Stripe returns the id of a new customer (which is returned). A raising create is the 500 of an uncaught exception; a reply without an id is 502 |
| UpgradeCheckout.GetOrCreateStripeCustomer | app/upgrade_checkout.py:116-141 | The answer is `CustomerOutcome` on the table before the call. The users table changes only when a new customer is created: its id is then saved on exactly the user's rows. E-mails stay unique |
| UpgradeCheckout.UpgradeMetadata | app/upgrade_checkout.py:304-315 | The upgrade metadata has exactly the ten keys the handler writes, with `billing_type` `upgrade`, the user, both plans and the coupon id or "", and no `plan_code` |
| UpgradeCheckout.UpgradeMetadataNumbersRoundTrip | app/upgrade_checkout.py:311-313 | The credit, remaining and quota written into the metadata parse back to the quote's numbers |
| UpgradeCheckout.UpgradePlanComesFromPrice | app/upgrade_checkout.py:304-315 | The webhook resolves an upgrade purchase's plan from the price metadata alone; a price without `plan_code` grants nothing |
| UpgradeCheckout.CreateUpgradeCheckoutSession | app/upgrade_checkout.py:217-326 | A quote error is returned unchanged, with no Stripe request and no table change. After a quote, in order: a customer error is returned; with a positive credit, a coupon error is returned; otherwise the session request is sent. That request carries the customer, the destination price, one item, the user, the success and cancel URLs, a coupon exactly when the credit is positive, and `UpgradeMetadata`. A failed session is 502 `Stripe error: <type>: <message[:220]>`, and a successful one is always answered Ok, with `pay_estimated = to_price − credit > 0`, the credit, the price and the URL. Only customer ids of user rows change |
| Blocklist.KeyHash | app/blocklist.py:20-21 | The key hash is a prefix of the digest, 12 characters long when the digest is that long |
| Blocklist.Identity | app/blocklist.py:42 | `ip::hash` starts with the IP and ends with the hash |
| Blocklist.IdentityInjective | app/blocklist.py:42 | With equal-length hashes, an identity names exactly one (IP, key hash) pair |
| Blocklist.Step | app/blocklist.py:39-70 | A blocked record gives `(False, blocked_until − now)` with a positive wait, and is unchanged. No record, or a window older than 120 s, gives `(True, 0)` with record `{count: 1, start: now}`. Otherwise the count rises by one. At most 2 is allowed with the counted record. Above 2 the call is refused with `(False, 300)` and the record is blocked until `now + 300` |
| Blocklist.Run | app/blocklist.py:39-70 | A sequence of calls allows at most as many requests as there are calls |
| Blocklist.WindowAllowsAtMostRemaining | app/blocklist.py:53-70 | Within a record's 120-second window at most `2 − count` further calls are allowed |
| Blocklist.AtMostMaxRequestsPerWindow | app/blocklist.py:15-70 | From the call that opens a window, at most 2 calls within the next 120 seconds are allowed |
| Blocklist.StepKeepsConsistent | app/blocklist.py:53-67 | If time never goes backwards, every record starts no later than the last call, and a block lasts at least 300 s past the window start |
| Blocklist.ExpiredBlockOpensWindow | app/blocklist.py:16-59 | Once a block has run out, the window has too, so the next call opens a fresh window and is allowed |
| Blocklist.OverLimitBlocksForBlockTime | app/blocklist.py:62-70 | The call that goes over 2 in a window is refused with a wait of 300 s, and every later call before `now + 300` is refused with the time still left |
| Blocklist.Throttle.CheckIpKey | app/blocklist.py:39-70 | The answer is `Step`'s on the identity's record, the identity is stored with `Step`'s record, and every other identity is untouched |
| Cache.ReusedUntilTtl | app/cache.py:79-83 | A filled slot is reused exactly while its age is at most the ttl; an age equal to the ttl still reuses it |
| Cache.ModelFor | app/cache.py:72 | The kind `lite` selects the lite model, and any other kind the flash model |
| Cache.DisplayFor | app/cache.py:73 | The kind `lite` selects the lite display name, and any other kind the flash one |
| Cache.CacheSlot.constructor | app/cache_global.py:3-15 | A slot starts empty, created at 0, with a ttl of 3600 |
| Cache.LegalCaches.constructor | app/cache_global.py:5-15 | Two distinct fresh slots, both in the initial state |
| Cache.LegalCaches.SlotFor | app/cache.py:71 | `lite` selects the lite slot and any other kind the flash slot |
| Cache.CreateCacheFor | app/cache.py:27-57 | Creation stores the new handle, made with the slot's ttl, stamped with the clock read after the creation returns; the ttl is unchanged |
| Cache.CreateCaches | app/cache.py:60-63 | Both slots are filled with handles of their own model and display name, lite first, each stamped with its own clock reading taken after its creation |
| Cache.GetCache | app/cache.py:66-83 | On the selected slot, an empty slot or an age above the ttl at the entry clock creates a handle stamped with the clock read after the creation, and otherwise the stored handle is returned with the slot unchanged. The other slot is untouched |
| IpUtils.FirstForwarded | app/ip_utils.py:12 | The first forwarded entry has no comma, only characters of the header, and no blanks at its ends |
| IpUtils.GetClientIp | app/ip_utils.py:4-21 | Priority order: a non-blank first `X-Forwarded-For` entry (comma-free), then a non-empty `X-Real-IP` stripped (possibly to ""), then the client host, or `unknown` without a client |
| IpUtils.ForwardedAddressRoundTrip | app/ip_utils.py:9-14 | An address written as the first entry of `X-Forwarded-For` is read back unchanged |
| RateLimit.GetRealIp | app/ratelimit.py:5-19 | A non-empty `X-Forwarded-For` always yields its first entry stripped and comma-free, even if that is empty. Otherwise a non-empty client host, or else `unknown`. `X-Real-IP` is never read |
| RateLimit.RateLimitKeyMatchesClientIp | app/ratelimit.py:11-19 | The limiter key equals the client address when the first forwarded entry is non-blank, or when neither header is present and the client host is non-empty |
| RateLimit.BlankForwardedEntryDiffers | app/ratelimit.py:11-14 | With a blank first forwarded entry the limiter keys the request on "", while the client address falls back to `X-Real-IP` |
| Antibot.SearchFindsOccurrence | app/antibot.py:5-12 | The case-insensitive scan finds a word exactly when it occurs somewhere in the User-Agent |
| Antibot.VerifyAntibot | app/antibot.py:7-23 | Passes exactly when the User-Agent contains a browser word ignoring case and the fingerprint has at least 16 characters. The User-Agent is checked first. Both failures are 403 |
| Antibot.BrowserWordAccepted | app/antibot.py:5-12 | A User-Agent containing Mozilla, Chrome, Safari, Firefox or Edge in any letter case, anywhere, passes the first check |
| Antibot.TypicalBrowserPasses | app/antibot.py:5-23 | A `Mozilla/5.0 …` User-Agent with a fingerprint of 16 or more characters passes |
| Antibot.LetterlessAgentRefused | app/antibot.py:12-16 | A User-Agent with no ASCII letter is refused as a client, whatever the fingerprint |
| Security.VerifyApiKey | app/security.py:7-12 | Passes exactly when a non-empty key is configured and the header equals it. Every refusal is the same 401, whose detail is the source's own text `API Key inv√°lida o faltante`, mis-encoded accent included |
| Security.UnconfiguredRefusesAll | app/security.py:8 | With no key configured, or an empty one, every request is refused |

## Left out

- UpgradeCheckout.ProratedCredit: computes the exact floor of `remaining × from_price / quota_total`. The code computes `from_price / quota_total` in floating point, multiplies and truncates, which can come out one peso lower when the quotient is not exactly representable.
- Strings.Lower: folds only ASCII letters. Python's `str.lower` also folds non-ASCII letters in plan codes and e-mails.
- Strings.ParseInt: accepts an optional sign and ASCII digits with surrounding blanks. Python's `int` also accepts underscores between digits and non-ASCII decimal digits.
- BillingWebhook.Safe: the `<unprintable>` branch, taken when `str(v)` raises, is not modelled; the argument is already a string.
- UsageRepo.ActiveSubscription: among rows with equal `current_period_end`, SQL may return any; the model picks the first, and its contract states only maximality.
- BillingRoutes.SessionUserId: `fetchone()` without `ORDER BY` may return any matching row; the model takes the first.
- UpgradeCheckout.GetOrCreateStripeCustomer: the arguments sent to `Customer.create` (the e-mail and the `user_id`/`app` metadata) are not recorded, and the retrieve error's message only reaches a log.
- AuthRepo.UserTable.UpsertUserByEmail: the SELECT and INSERT are separate statements; two concurrent first logins with one address are not modelled, and the model handles one call at a time.
- Blocklist.IdentityInjective: two API keys whose digests share the first 12 characters share an identity; digest collisions are not modelled.
- Time zones and daylight saving: all times are integer local seconds, so `_day_window_mx`, `_reset_at_daily_iso` and the period ends assume 86400-second days. The conversions back to UTC and ISO strings are not modelled.
- Floating-point clocks: `time.time()` in the throttle and the cache is an integer, so `int(blocked_until - now)` is exact.
- Stripe: signature verification, `Session.retrieve`, `Customer.retrieve/create`, `Coupon.create` and `checkout.Session.create` are inputs to the model, not modelled behaviour.
- SHA-256 is an arbitrary function parameter; only the text that is hashed is modelled.
- The database and its pool are tables held in values and class fields. `NOW()` is the parameter `now`. Connection failures are modelled only where the code catches them, as in the webhook's insert.
- `ensure_user` is not defined in the shown repository; the model records only that the user exists afterwards.
- `get_active_entitlement` is not defined in the shown repository; its answer is the parameter `ent` of the upgrade.
- The throttle's JSON file (`_load_blocks`, `_save_blocks`) and its lock: the blocks map is in memory and calls are sequential.
- The cache's file reading (`load_files`) and the Gemini `caches.create` call: the returned handle's name is a parameter.
- Logging with `print` and app/logger.py.
- app/billing_portal.py, app/auth_routes.py, app/routes.py, app/main.py and app/gemini.py are not part of this model. They are Stripe-portal, OAuth and Gemini request plumbing.
- The `slowapi` limiter object in app/ratelimit.py.
- The duplicated helpers (`_session_hash`, `_get_cookie`, `_get_session_user_id`, `_get_user_email` in app/upgrade_checkout.py and app/billing_routes.py, and `_hash_session` in app/auth_repo.py) are one definition each in the model.
