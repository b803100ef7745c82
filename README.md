# Idea generator entitlements and idea queries, modelled in Dafny

This project models three pieces of an idea-generator web app.

- **The server's entitlement ledger** (module `Ledger`, `ledger.dfy`). This is the in-memory list of
  subscription records behind the Express routes `POST /free`, `POST /activate`,
  `GET /user/:userId` and `POST /use-generation`. The list is the `subscriptions` field of the
  class `SubscriptionStore`, and each route is a method on it. Pure functions specify the methods:
  - `WithoutFreeOf` is the filter applied before a free activation;
  - `LatestIndex` is the user's newest record, as the `activatedAt` sort picks it;
  - `ConsumeStep` is the guarded decrement of that record.

  The lemmas prove the route-level promises: exactly one free record per user, "nothing else
  changes", the allowance table, and that a counter never goes below zero. They also cover runs of
  requests: `n` uses, the race for the last generation, and ten free generations.
- **The browser's subscription context** (module `Client`, `client.dfy`). This is the plan table
  `SUBSCRIPTION_PLANS` and the provider state `subscription`, `generationCount`, `billingHistory`
  and `apiSubscription`, as the class `SubscriptionState`. Its methods are the mutators
  `subscribe` (local and server branches), `incrementGeneration`, `canGenerate` (which clears an
  expired local plan) and the refresh from a server record. The decisions `canGenerate`,
  `getRemainingGenerations` and `getCurrentPlan` are pure functions of that state.

  The server writes camelCase fields, but the client reads snake_case ones (`plan_type`,
  `total_generations`, `generations_left`, `activated_at`). `SnakeView` records that only
  `status` is actually present, so the model keeps this mismatch. The lemmas prove what follows
  from it:
  - a record refreshed from the server always shows 8 generations left and a limit of 10;
  - a free plan activated through the server is counted locally against 10;
  - a paid plan activated through the server can never generate.
- **The idea endpoints** (module `Ideas`, `ideas.dfy`):
  - The parameterised query of `GET /api/ideas` is built by a method that appends one
    ` AND <column> = ?` per supplied filter and pushes its value. It is proved against
    `Conditions`/`Values` of the supplied filters, with a fixed prefix and suffix and one `?` per
    parameter.
  - Row decoding is modelled, and so is the validation and encoding of `POST /api/ideas`.
  - `JSON.stringify` and `JSON.parse` are function parameters. Their round trip is stated only as
    a precondition of the lemma that needs it.

`wrappers.dfy` holds `Option`/`Result` and JavaScript truthiness of an optional string.

Randomness and the clock are parameters: record ids, generated transaction ids, and `now` in
milliseconds. A JavaScript property that is `undefined` or `null` is `None`.

The model follows the code in two behaviours:
- a list column that does not parse makes `GET /api/ideas` throw (`DecodeRows` is `None`); it does
  not fall back to an empty list;
- the query has only the industry, type and difficulty filters, with no duration or search filter.

## Model

| member | source | states |
|---|---|---|
| Ledger.PlanLimit | server/routes/subscriptions.js:52-56 | the `planLimits` table has an entry exactly for starter, pro and unlimited, each positive |
| Ledger.Allowance | server/routes/subscriptions.js:52-63 | `planLimits[planType] \|\| 50`: starter 50, pro 200, unlimited 999999, any other type 50; always positive |
| Ledger.FreeRecord | server/routes/subscriptions.js:16-25 | a new free record belongs to the user, has plan `free`, 10 of 10 generations left, status `active`, is a trial and is consistent |
| Ledger.PaidRecord | server/routes/subscriptions.js:58-69 | a new paid record has the requested plan type, `generationsLeft == totalGenerations ==` the allowance, status `active`, not a trial |
| Ledger.Select | server/routes/subscriptions.js:11-13 | a filter keeps exactly the records its selector accepts, so the result is never longer |
| Ledger.WithoutFreeOf | server/routes/subscriptions.js:11-13 | the filtered list holds exactly the records that are not this user's free-plan records; `FreeActivationForUser` and `FreeActivationForOthers` prove what it keeps |
| Ledger.FreeActivationForUser | server/routes/subscriptions.js:11-27 | after `/free` the user's free records are exactly the new one, and the user's non-free records are unchanged and in order |
| Ledger.FreeActivationForOthers | server/routes/subscriptions.js:11-27 | after `/free` every other user's records are unchanged and in order |
| Ledger.LatestIndex | server/routes/subscriptions.js:95-97 | the picked index, when there is one, is in range and holds a record of the user |
| Ledger.LatestIndexIsLatest | server/routes/subscriptions.js:95-97 | by induction: `LatestIndex` is none iff the user has no record; otherwise no record of the user is newer, and each earlier record of the user is strictly older, so ties go to the first in list order (stable sort) |
| Ledger.LatestAfterAppend | server/routes/subscriptions.js:71-97 | an appended record becomes the user's latest iff it is strictly newer than each earlier record of the user |
| Ledger.UseOutcome.Error | server/routes/subscriptions.js:129-134 | a refused request answers the error `No generations left. Please upgrade your plan.`; a success carries no error |
| Ledger.ConsumeStep | server/routes/subscriptions.js:118-134 | with a latest record left above 0: answer the decremented count, decrement that record by exactly 1, change no other position; otherwise refuse and change nothing |
| Ledger.LatestIndexDependsOnKeys | server/routes/subscriptions.js:118-120 | which record is latest depends only on each position's user and activation time, so changing a counter cannot change it |
| Ledger.ConsumePreservesWellFormed | server/routes/subscriptions.js:122-123 | using a generation keeps every counter within `0..total`: never negative |
| Ledger.ConsumeKeepsLatest | server/routes/subscriptions.js:118-123 | using a generation does not change which record is the user's latest |
| Ledger.ConsumeAtLatest | server/routes/subscriptions.js:118-134 | one request on a latest record with `g >= 0` left: answer `g-1` and counter `g-1`, or refusal and counter `0` when `g == 0` |
| Ledger.UseManyShape | server/routes/subscriptions.js:118-134 | `n` requests give `n` answers; the list keeps its length and the user's latest record stays the same one |
| Ledger.UseManyCounter | server/routes/subscriptions.js:118-134 | after `n` requests the latest record is the same and its counter is `g - n`, floored at 0 |
| Ledger.UseManyAnswers | server/routes/subscriptions.js:122-134 | `n` requests are answered `g-1, ..., 0` and then refused |
| Ledger.LastGenerationUsedOnce | server/routes/subscriptions.js:122-134 | two requests for the last generation: one gets 0 left, the other is refused, and the counter ends at 0 |
| Ledger.PaidActivationResets | server/routes/subscriptions.js:58-97 | a newer paid activation becomes the latest record with the plan's full allowance, whatever older records hold |
| Ledger.FreePlanAllowsTen | server/routes/subscriptions.js:113-134 | a user without records who activates the free plan is granted exactly ten generations; the eleventh request is refused |
| Ledger.SubscriptionStore.ActivateFree | server/routes/subscriptions.js:5-43 | the list becomes the old list without the user's free records, followed by the new free record |
| Ledger.SubscriptionStore.Activate | server/routes/subscriptions.js:46-87 | the list becomes the old list followed by the new paid record; nothing existing changes |
| Ledger.SubscriptionStore.Lookup | server/routes/subscriptions.js:90-110 | none iff the user has no record; otherwise a record of that user with maximal `activatedAt`; it is the record at `LatestIndex`, the one `UseGeneration` decrements |
| Ledger.SubscriptionStore.UseGeneration | server/routes/subscriptions.js:113-142 | the answer and the new list are those of `ConsumeStep` on the old list; every counter stays consistent |
| Ideas.OrNull | server/index.js:84-91 | `v \|\| null`: present iff the value is truthy, and then the value itself |
| Ideas.Supplied | server/index.js:34-45 | only supplied filters contribute, so there are never more conditions than filters |
| Ideas.Condition | server/index.js:35-43 | the clause one supplied filter appends is 9 characters longer than its column; `ConditionTexts` gives its three spellings and `ConditionsPlaceholders` proves it carries one `?` |
| Ideas.Conditions | server/index.js:34-45 | the clauses of the supplied filters in order: empty exactly when no filter is supplied, at least 9 characters per filter; `ConditionsAppend` and `BuildIdeasQuery` prove the builder produces exactly this text |
| Ideas.ConditionsAppend | server/index.js:34-45 | appending filters appends their conditions |
| Ideas.Values | server/index.js:32-45 | one parameter per supplied filter; the i-th is the i-th supplied filter's value |
| Ideas.ConditionsPlaceholders | server/index.js:34-45 | the conditions carry exactly one `?` per bound value |
| Ideas.SuppliedFilters | server/index.js:34-45 | the supplied filters are industry, type, difficulty in that order, each iff truthy |
| Ideas.SuppliedColumns | server/index.js:34-45 | the number of supplied filters is the number of truthy ones, and no column name holds a `?` |
| Ideas.Supply | server/index.js:34-45 | a filter contributes its column and value iff it is truthy, and nothing otherwise |
| Ideas.ConditionTexts | server/index.js:35-43 | the three conditions read ` AND industry = ?`, ` AND type = ?` and ` AND difficulty = ?` |
| Ideas.FixedTextsHaveNoPlaceholder | server/index.js:31-47 | neither the fixed prefix nor the ORDER BY suffix contains a `?` |
| Ideas.QueryShape | server/index.js:31-47 | a query of prefix, conditions and suffix begins with the prefix, ends with the suffix, and has one `?` per value |
| Ideas.ExtendQuery | server/index.js:34-45 | one filter step keeps the text and parameters equal to those of the pairs supplied so far |
| Ideas.FinishQuery | server/index.js:31-47 | the finished query begins `SELECT * FROM ideas WHERE 1=1`, ends ` ORDER BY id DESC`, and has as many `?` as parameters |
| Ideas.BuildIdeasQuery | server/index.js:27-47 | the query is prefix, then one ` AND <col> = ?` per supplied filter in the order industry, type, difficulty, then the suffix; the parameters are the supplied values in order; one `?` per parameter |
| Ideas.UnfilteredQuery | server/index.js:31-47 | with no filter the query is exactly `SELECT * FROM ideas WHERE 1=1 ORDER BY id DESC` with no parameters |
| Ideas.ListText | server/index.js:52-54 | a list column's text is the column when truthy, else `[]` |
| Ideas.DecodeRow | server/index.js:50-56 | a row decodes iff its three list texts parse; the result keeps the row's id, title, description, industry, type and difficulty, holds the parsed roles, technologies and similar projects, and `duration \|\| null` |
| Ideas.DecodeRows | server/index.js:50-56 | all rows decode iff each does; then pointwise, same length and order |
| Ideas.EmptyListColumns | server/index.js:52-54 | missing or empty list columns read as empty lists |
| Ideas.PrepareInsert | server/index.js:64-92 | refused with the 400 text iff title, industry or type is missing or empty; otherwise those three are kept, the optional text fields become null when falsy, and the lists, defaulting to `[]`, are stringified |
| Ideas.DecodeCreated | server/index.js:95-104 | the created idea decodes iff its three stored list columns are present and parse (no `'[]'` default here); it keeps the row's id, title, description, industry, type and difficulty, holds the parsed lists, and `duration \|\| null` |
| Ideas.CreateThenQuery | server/index.js:84-104 | given a parse that inverts stringify, the created idea carries the submitted lists (`[]` when omitted) and a later query decodes the row the same way |
| Client.PlanByKey | src/Context/SubscriptionContext.jsx:148-151 | the plan under a key, if the table has that key; none iff no entry has it |
| Client.FindByType | src/Context/SubscriptionContext.jsx:659 | a plan of the list whose type matches; none iff no plan matches |
| Client.PlanKey | src/Context/SubscriptionContext.jsx:144 | `FREE` when the plan type is missing or empty; otherwise the type upper-cased character by character, same length; `PlanKeyFindsTablePlan` proves every table type finds its own entry |
| Client.Upper | src/Context/SubscriptionContext.jsx:144 | `toUpperCase` keeps the length and maps each character through `UpperChar`: `a`-`z` to `A`-`Z`, every other character unchanged |
| Client.PlanKeyFindsTablePlan | src/Context/SubscriptionContext.jsx:6-69 | upper-casing a table plan's type gives its key, and the lookup returns that plan |
| Client.SnakeView | src/Context/SubscriptionContext.jsx:143-155 | of the snake_case properties the client reads, a server record carries only `status` |
| Client.MapApiRecord | src/Context/SubscriptionContext.jsx:257-271 | the mapped subscription is an API one with the record's plan type and start time, no expiry, a non-zero limit and counter and a non-empty status; `MappingDefaults`, `MappedServerRecord` and `RefreshedRecordAllows` give its defaults and their effect |
| Client.MappingDefaults | src/Context/SubscriptionContext.jsx:143-157 | mapping keeps `plan_type`, `total_generations \|\| 10`, `generations_left \|\| 8`, `status \|\| 'active'`, no expiry, monthly, marked as API |
| Client.MappingNamesTablePlan | src/Context/SubscriptionContext.jsx:144-151 | a table plan's type maps to that plan's name and price |
| Client.MappedServerRecord | src/Context/SubscriptionContext.jsx:257-271 | a mapped server record has no plan, the name `Free Plan`, limit 10, 8 left, price 0 and no start time |
| Client.LocalSubscription | src/Context/SubscriptionContext.jsx:428-465 | a local free plan has limit 10, no expiry and no transaction id; a paid plan keeps its type and limit, expires 30 days after `now` when monthly, and has a non-empty transaction id, the caller's when truthy, else a generated `txn_...` one; local, with no counter |
| Client.ExpiredStaysExpired | src/Context/SubscriptionContext.jsx:574-577 | `LocalExpired` (a local subscription whose expiry lies before `now`) is final: expired at `now` means expired at every later time, and `canGenerate` then clears the subscription |
| Client.PaidBilling | src/Context/SubscriptionContext.jsx:475-482 | the prepended billing record has the given id, the plan's name and price, the given date and payment method, and status `completed` |
| Client.ApiFreeSubscription | src/Context/SubscriptionContext.jsx:332-343 | the server free plan keeps the plan's type and limit and takes the record's `generations_left` and `activated_at`; `ApiFreePlanCountsLocally` proves it is counted against 10 |
| Client.ApiPaidSubscription | src/Context/SubscriptionContext.jsx:383-394 | the server paid plan takes the record's `plan_type`, `total_generations`, `generations_left` and `activated_at`, its limit undefined iff `total_generations` is; `ApiPaidPlanBlocks` proves it never generates |
| Client.CanGenerateNow | src/Context/SubscriptionContext.jsx:567-619 | false without a subscription or for an expired local one; otherwise true for `unlimited`, `generationsLeft > 0` for an API subscription with a counter, `count < 10` for the free plan, `count < limit` for a numeric limit, and false for a limit that is not a number |
| Client.RemainingGenerations | src/Context/SubscriptionContext.jsx:621-652 | 0 without a subscription; an API subscription with a counter answers that counter; otherwise exactly `Unlimited` for `unlimited`, `max(0, 10 - count)` for the free plan, `max(0, limit - count)` for a numeric limit, and `NaN` exactly for any other plan whose limit is not a number; never negative for a local plan |
| Client.AfterCheck | src/Context/SubscriptionContext.jsx:574-579 | the subscription is cleared iff it is an expired local one, and kept otherwise |
| Client.Max0 | src/Context/SubscriptionContext.jsx:647-651 | `Math.max(0, x)`: at least 0 and x, and one of them |
| Client.CurrentPlan | src/Context/SubscriptionContext.jsx:654-661 | a table plan whose type is the subscription's plan; none iff there is no subscription or no plan matches |
| Client.CanGenerateAgreesWithRemaining | src/Context/SubscriptionContext.jsx:567-652 | except an API `unlimited` plan with a counter, `canGenerate` is true iff there is an unexpired subscription whose remaining count is positive or `'Unlimited'` |
| Client.UnlimitedCounterDisagrees | src/Context/SubscriptionContext.jsx:582-596 | an API `unlimited` plan with 0 left may still generate while reporting 0 remaining |
| Client.RemainingNeverNegative | src/Context/SubscriptionContext.jsx:621-652 | a numeric remaining count is never negative when the counter is not |
| Client.CheckedStateAgrees | src/Context/SubscriptionContext.jsx:567-652 | the answer of `canGenerate` agrees with the remaining count of the state it leaves behind |
| Client.CurrentPlanIsTablePlan | src/Context/SubscriptionContext.jsx:654-661 | `getCurrentPlan` returns `p` iff `p` is a table plan of the subscription's type |
| Client.LocalFreePlanAllowsTen | src/Context/SubscriptionContext.jsx:599-608 | a local free plan allows generation iff fewer than 10 were used, reports `max(0, 10 - count)` and is the free table plan |
| Client.LocalMonthlyPlan | src/Context/SubscriptionContext.jsx:574-651 | a local limited monthly plan allows generation iff it is within 30 days and `count < limit`, reports `max(0, limit - count)` remaining, and is cleared exactly after 30 days |
| Client.LocalUnlimitedPlan | src/Context/SubscriptionContext.jsx:574-585 | a local unlimited plan allows generation iff within 30 days and reports `'Unlimited'` |
| Client.SubscribedPlanAllowsGeneration | src/Context/SubscriptionContext.jsx:428-471 | right after a local subscription to any table plan, with the counter reset, generation is allowed and the current plan is that plan |
| Client.ApiFreePlanCountsLocally | src/Context/SubscriptionContext.jsx:332-343 | a free plan activated through the server allows generation iff `count < 10` and is the free table plan |
| Client.ApiPaidPlanBlocks | src/Context/SubscriptionContext.jsx:378-396 | a paid plan activated through the server never allows generation, reports `NaN`, and has no current plan |
| Client.RefreshedRecordAllows | src/Context/SubscriptionContext.jsx:257-271 | a subscription refreshed from any server record allows generation and reports 8 left, even when the server has none left |
| Client.AfterGeneration | src/Context/SubscriptionContext.jsx:546-553 | an API counter above 0 drops by exactly 1; otherwise nothing changes; only the counter changes; the counter never goes below 0 |
| Client.GenerationSpendsOne | src/Context/SubscriptionContext.jsx:541-553 | one generation lowers the remaining count by exactly one, stopping at 0, and leaves `'Unlimited'` and `NaN` as they were |
| Client.SubscriptionState.constructor | src/Context/SubscriptionContext.jsx:99-104 | the provider starts with no subscription, a count of 0, an empty billing history and no server record |
| Client.SubscriptionState.SubscribeLocal | src/Context/SubscriptionContext.jsx:426-490 | stores the local subscription and resets the counter to 0; a paid plan prepends exactly one billing record before the unchanged history; the free plan adds none |
| Client.SubscriptionState.SubscribeApi | src/Context/SubscriptionContext.jsx:306-425 | a failed request throws its error (`data.error` or the branch's default) and changes nothing; an activation stores the record and the subscription built from its snake_case view, resets the counter, and for a paid plan prepends one billing record |
| Client.SubscriptionState.IncrementGeneration | src/Context/SubscriptionContext.jsx:538-565 | the count rises by exactly 1 and is returned; the subscription becomes `AfterGeneration` of the old one |
| Client.SubscriptionState.CanGenerate | src/Context/SubscriptionContext.jsx:567-619 | answers `canGenerate` for the old state and clears an expired local subscription; nothing else changes |
| Client.SubscriptionState.RefreshFromApi | src/Context/SubscriptionContext.jsx:252-271 | stores the server record and the subscription mapped from it; the counter and billing are unchanged |

## Left out

- Network and persistence are not modelled: `fetch`, `localStorage`, `console` and every `async` wait.
- The `loadData` effect is not modelled. It reads a stale `apiSubscription` at `SubscriptionContext.jsx:139`, and its mapping is the same as the one `Client.MapApiRecord` models for the refresh.
- The payment-callback effect (`SubscriptionContext.jsx:663-686`) is not modelled. Nor are `createGCashPayment` and `verifyPayment`, which only call a mock gateway. Nor is `handlePaymentCallback`, which verifies the payment and then refreshes from the server. Nor is `subscribeWithPayment`, which, after the gateway, calls `subscribe`.
- The background `POST /use-generation` call in `incrementGeneration` is left out. It is fire-and-forget and its answer is ignored.
- `Client.SubscriptionState.SubscribeApi` takes the server's answer as a parameter. It does not model the request it sends.
- `Client.LocalSubscription` reads the clock once. The source reads it twice, for `subscribedAt` and for the expiry. Timestamps are millisecond integers, not ISO strings.
- The features lists of `SUBSCRIPTION_PLANS` are not modelled. They are display text.
- The derived flags `isSubscribed`, `isFreePlan`, `isPaidPlan`, `hasNoPlan` and `isApiSubscription` are not modelled. `usageHistory` and `isLoading` are not modelled either.
- `Client.Upper` upper-cases ASCII letters only. JavaScript's `toUpperCase` covers all of Unicode.
- `Ledger.Allowance`: a plan type naming an inherited object property (such as `constructor`) would read a non-number from `planLimits`. The model treats every type outside the table as missing.
- `Ledger.SubscriptionStore` starts empty. The initial contents of `demoData` are not part of this model.
- The 500 answers of the `catch` blocks in `server/routes/subscriptions.js` are not modelled. On the modelled inputs none of its modelled steps throws. In `server/index.js`, `Ideas.DecodeCreated` being `None` stands for the POST handler's 500 answer `Failed to create idea`. `Ideas.DecodeRows` being `None` stands for the GET handler throwing, which has no `catch`.
- SQL execution and the MySQL pool are not modelled. `Ideas.InsertedRow` stands for the row the database stores.
- `Ideas.DecodeCreated`: a list column that is SQL NULL makes the model's answer `None`, where `JSON.parse(null)` returns `null` and the answer would carry a `null` list. A row written by the POST handler never holds NULL there (`InsertedRow`).
- JSON encoding and decoding are function parameters. A `JSON.parse` that yields something other than a list of strings is not modelled.
- Request bodies and the query-string filters of `GET /api/ideas` take strings (and string lists for the POST body's list fields). Arrays or objects, which Express's query and body parsers can produce, are not modelled.
- The second validator in `server/routes/ideas.js` is left out. It requires `title` and `description`, and that router is not part of this model.
