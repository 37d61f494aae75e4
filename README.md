# Credit ledger of the Goodwin household assistant, in Dafny

The application sells credits through Stripe and spends them on paid
features: the mechanic assistant, image generation and the Goodwin
orchestrator. This project models the ledger at its core and the code that
prices charges and applies them.

The ledger (`Store`) is a table of users with an integer `credits` balance,
plus three append-only logs: purchases (keyed by Stripe payment intent),
spends and adjustments. Every write the source makes is one atomic step: a
`Database` method, specified by a function from one `Ledger` value to the
next. The invariant the model is built around is the *books*. For every user:

    credits == 500 + purchases - spends + adjustments

Every write keeps the books except the bare decrement of the consume route
(`Store.DecrementBreaksBooks`, `ConsumeRoute.ConsumeBreaksBooks`).

Modules, one per source file:

- `CreditService`: the credit service.
- `McpService`: operation costing and recording.
- `McpCreditManager`: `executeWithCredits` and `handleMcpError`.
- `MechanicService`, `ImageGenerationService`, `GoodwinService`: the
  feature services.
- `StripeWebhook`: the Stripe webhook.
- `AuthOptions`: the adapter's `createUser` and the `session` callback.
- `ConsumeRoute`, `HistoryRoute`, `Middleware`: those routes.
- `TurnResponse`: message conversion and the stream-event translator.

Shared modules:

- `Store`: the data model.
- `History`: the filter/sort/take query.
- `Errors`: each thrown error and its exact message text.
- `Flow`: the trace of calls a feature flow makes.
- `Text`: `startsWith`, `includes`, `trim`, `toUpperCase`, `encodeURI`
  and number interpolation.
- `Wrappers`: `Option` and `Result`.

Each feature flow returns a `Flow.Run`: the ledger it leaves, its result or
error, and the calls it made in order. The calls are:

- balance check;
- external operation;
- charge;
- balance read.

The trace makes statements like these provable:

- the model is never called before the pre-check;
- the amount charged is the amount checked (or, for Goodwin, is not).

External services are parameters of the functions and methods:

- OpenAI replies;
- Stripe's `constructEvent`;
- the session;
- `prisma.$connect`;
- the clock;
- the id the database assigns to a new row.

The Goodwin `formatServantResponse` is the identity
(`GoodwinService.FormatServantResponse`). Its effect is stated in
`ProcessChargesMechanicAndOrchestration`: the reply is the mechanic's text.
The translator's `currentToolCall` is never reset within a stream. So a
second tool call in the same stream opens nothing, and its fragments are
appended to the first call, as in the source (`TurnResponse.CallStep`).

## Model

| member | source | states |
|---|---|---|
| Store.SpendKeepsBooks | lib/services/creditService.ts:59-72 | The spend row plus the equal decrement keep every user's balance equal to 500 + purchases - spends + adjustments, and keep the schema's uniqueness and reference rules |
| Store.AdjustKeepsBooks | lib/services/creditService.ts:112-125 | The adjustment row plus the balance change by the same signed amount keep the books and the schema |
| Store.PurchaseKeepsBooks | app/api/stripe/webhook/route.ts:124-138 | A purchase row for a payment intent not yet recorded, plus the equal increment, keeps the books and keeps payment intents unique |
| Store.AddUserKeepsBooks | app/api/auth/options.ts:99-107 | A new user with an unused id, an unused email and 500 credits keeps the books (the user has no log rows) |
| Store.DecrementBreaksBooks | app/api/credits/consume/route.ts:28-31 | A non-zero decrement with no log row keeps the schema but leaves that user's balance out of step with the logs |
| Store.FindUserByEmail | app/api/stripe/webhook/route.ts:116 | Finds a user with that email, or reports that no user has it |
| Store.FindPurchase | app/api/stripe/webhook/route.ts:104 | Finds a purchase row with that payment intent, or reports that no row has it |
| CreditService.Deduct | lib/services/creditService.ts:43-74 | Commits iff the user exists and has at least the amount. A missing user fails with "User with ID … not found" and a short balance with the insufficient-credits error carrying both numbers. On success exactly one spend row (user, feature, amount, no metadata) is appended, only that user's balance drops by the amount (so it stays at or above 0) and the other logs are untouched |
| CreditService.DeductKeepsBooks | lib/services/creditService.ts:43-74 | A deduction, committed or rolled back, keeps the books and the schema |
| CreditService.DeductRefusalIsInsufficient | lib/services/creditService.ts:55-57 | The refusal's message contains "Insufficient credits" and not "Unauthorized" |
| CreditService.DeductCredits | lib/services/creditService.ts:43-74 | The database ends as `Deduct` says, and the method returns the updated user row exactly when `Deduct` commits |
| CreditService.Add | lib/services/creditService.ts:110-127 | Commits iff the user exists (otherwise the database refuses the write). It appends exactly one adjustment with the signed amount and reason, and moves only that user's balance by exactly the amount |
| CreditService.AddKeepsBooks | lib/services/creditService.ts:110-127 | An adjustment keeps the books and the schema |
| CreditService.AddCanGoNegative | lib/services/creditService.ts:122-125 | Nothing bounds a negative amount: a user with c ≥ 0 credits adjusted by -(c+1) ends at -1 |
| CreditService.AddCredits | lib/services/creditService.ts:110-127 | The database ends as `Add` says, and the method returns the updated user row exactly when `Add` commits |
| CreditService.Markup | lib/services/creditService.ts:81-83 | The result is the least integer at or above 13/10 of the base, the ceiling of `b*1.3` |
| CreditService.MarkupAtLeastBase | lib/services/creditService.ts:81-83 | Marking up never lowers a non-negative base |
| CreditService.MarkupMonotone | lib/services/creditService.ts:81-83 | A larger base never costs less |
| CreditService.MarkupExamples | lib/services/creditService.ts:81-83 | 1→2, 5→7, 10→13, 25→33, 50→65 |
| CreditService.CheckCreditBalance | lib/services/creditService.ts:89-104 | Fails with "not found" iff the user is missing; otherwise returns the balance, with `lowCredits` iff the balance is below 100 |
| CreditService.LowCreditBoundary | lib/services/creditService.ts:102 | 99 credits is low, 100 is not |
| CreditService.HasEnoughCredits | lib/services/creditService.ts:31-37 | Defined as: the user exists and its balance is at least the amount required, so a missing user can afford nothing. `Deduct` and `Record` commit exactly when it holds |
| CreditService.RecentHistory | lib/services/creditService.ts:140-156 | Each of the three lists meets `RecentOf` for the user: only that user's rows, each no more often than logged, newest first, exactly min(n, the user's row count) of them; a copy of a row of the user's is left out only when the list is full and the row is no newer than the last one kept |
| CreditService.OldestHistory | lib/services/creditService.ts:140-156 | The three lists a negative `take` of -n gives, each meeting `OldestOf` for the user: the user's last min(n, count) rows in newest-first order, a copy left out only when n rows are kept and the row is no older than the first one kept |
| CreditService.GetCreditHistory | lib/services/creditService.ts:135-159 | `limit` goes to `take` unchanged: for `limit` ≥ 0 each list meets `RecentOf` with `limit`; for a negative `limit` each meets `OldestOf` with -`limit` |
| CreditService.CopiesCount | lib/services/creditService.ts:146-150 | Illustration of `RecentOf` counting copies: with a spend logged twice and an older one, keeping one copy and the older spend is not a valid answer for a limit of 2, and the query answers both copies |
| History.Insert | lib/services/creditService.ts:141-145 | Inserting adds exactly that row to the list, and nothing else |
| History.InsertNewestFirst | lib/services/creditService.ts:141-145 | Inserting into a newest-first list keeps it newest first |
| History.SortNewestFirst | lib/services/creditService.ts:143 | The result is newest first and a permutation of its input |
| History.OwnedByFacts | lib/services/creditService.ts:142 | The owner filter keeps only the owner's rows, never more often than logged, and keeps all of them |
| History.RecentMeetsPromise | lib/services/creditService.ts:141-145 | The filter/sort/take query meets the promise `RecentOf` spells out: owner only, a sub-multiset, newest first, exactly min(`limit`, the owner's row count) rows, and a copy of a row is left out only from a full list and only when it is no newer than the last kept; copies are counted, so a row logged twice and kept once counts as left out |
| History.Recent | lib/services/creditService.ts:141-145 | Defined as the owner filter, the newest-first sort, then the first min(`limit`, length) rows; `RecentMeetsPromise` states what it returns |
| History.OldestMeetsPromise | app/api/user/credit-history/route.ts:29-46 | A negative `take` of -n answers the last min(n, count) of the owner's rows in newest-first order, still newest first; a copy of a row is left out only when n rows are kept and the row is no older than the first one kept; copies are counted |
| McpService.TableCost | lib/services/mcpService.ts:15-54 | The entry exists iff the server and operation are both in `MCP_COSTS`, and then it is that constant |
| McpService.BaseCost | lib/services/mcpService.ts:68-81 | A truthy override wins; otherwise a truthy table entry; otherwise 1. The base is never 0 |
| McpService.OperationCost | lib/services/mcpService.ts:68-84 | The cost is always more than a positive base (the markup adds at least one credit) |
| McpService.OverrideIsBase | lib/services/mcpService.ts:70-84 | With a truthy override the cost is the markup of the override, whatever the table says |
| McpService.MinimumCharge | lib/services/mcpService.ts:72-84 | With no negative override, every operation costs at least 2 |
| McpService.UnknownOperationCostsTwo | lib/services/mcpService.ts:80-84 | A pair missing from the table, with no override, costs markup(1) = 2 |
| McpService.OverrideExamples | lib/services/mcpService.ts:49-52 | GOODWIN/ORCHESTRATION costs 7 with the override 5, and markup(2) = 3 with no override or an override of 0 |
| McpService.FeatureTag | lib/services/mcpService.ts:106 | The tag is `mcp:`, the server, `:`, the operation, in that layout |
| McpService.MetadataBlob | lib/services/mcpService.ts:95-100 | The operation's own metadata keys override `server`, `operation` and `baseCost`; those three are present with the operation's values when not overridden (`baseCost` only when given) |
| McpService.Record | lib/services/mcpService.ts:91-109 | Exactly one deduction of `calculateOperationCost(op)` under the `mcp:` tag; commits iff the user can afford it; the refusal is the deduction's own error, unchanged |
| McpService.RecordKeepsBooks | lib/services/mcpService.ts:91-109 | Recording keeps the books and the schema |
| McpService.RecordOperation | lib/services/mcpService.ts:91-109 | The database ends as `Record` says, and the method returns `Record`'s error on a refusal |
| McpCreditManager.Execute | lib/services/mcpCreditManager.ts:32-77 | No session: "Unauthorized" before any call. Otherwise the calls are a prefix of check, execute, charge, read. An unaffordable cost stops after the pre-check with "Insufficient credits". The operation's own error is rethrown unchanged. Success iff session, affordable cost and successful operation: the ledger is `Record`'s and the reply carries the result and the balance after |
| McpCreditManager.ChargeEqualsPreCheck | lib/services/mcpCreditManager.ts:49-62 | On success the balance drops by exactly the amount the pre-check asked for, the last spend logs that amount, and the balance stays at or above 0 |
| McpCreditManager.ExecuteKeepsBooks | lib/services/mcpCreditManager.ts:32-77 | A run either changes nothing or makes the one logged deduction, so it keeps the books |
| McpCreditManager.ExecuteWithCredits | lib/services/mcpCreditManager.ts:32-77 | The database, result and calls are those `Execute` gives |
| McpCreditManager.HandleMcpError | lib/services/mcpCreditManager.ts:82-102 | 401 iff the message mentions "Unauthorized"; 402 with `insufficientCredits` iff it mentions "Insufficient credits" and not "Unauthorized"; otherwise 500 |
| McpCreditManager.ExecuteErrorStatus | lib/services/mcpCreditManager.ts:41-55 | The wrapper's own refusals map to 401 (no session) and 402 (unaffordable); any other error is the operation's, unchanged |
| Errors.UnauthorizedMentionsOnlyUnauthorized | lib/services/mcpCreditManager.ts:43 | The no-session message contains "Unauthorized" and not "Insufficient credits" |
| Errors.InsufficientMentionsOnlyInsufficient | lib/services/creditService.ts:56 | Both insufficient-credit messages (with or without "Available") contain "Insufficient credits" and not "Unauthorized" |
| Errors.GenericMentionsNeither | lib/services/mechanicService.ts:124 | The generic "Failed to …" messages and the account-creation messages contain neither phrase, so they map to 500 |
| MechanicService.MechanicBase | lib/services/mechanicService.ts:55-60 | The base is 25 + 15 per image, with no list counting as no images |
| MechanicService.MechanicCostExamples | lib/services/mechanicService.ts:55-63 | 0, 1 and 2 images cost 33, 52 and 72 credits |
| MechanicService.GearhartChargeIsPreCheck | lib/services/mechanicService.ts:102-112 | The recorded base overrides the table, so the charge is the pre-checked markup of the base |
| MechanicService.BuildContext | lib/services/mechanicService.ts:131-143 | Defined as the introduction, the model clause when a model name is given, and the image clause when images are; `BuildContextShape` states its shape |
| MechanicService.BuildContextShape | lib/services/mechanicService.ts:131-143 | The context is the introduction, then the model clause iff a model name is set, then the image clause iff images are given |
| MechanicService.SystemMessage | lib/services/mechanicService.ts:148-167 | Defined as the context, a blank line, the reference heading and numbered entries when there are results, then the instructions; `SystemMessageShape` and `BuildSystemMessage` state its shape |
| MechanicService.SystemMessageShape | lib/services/mechanicService.ts:148-167 | The message starts with the context and a blank line and ends with the instructions; with no results there is nothing in between |
| MechanicService.BuildSystemMessage | lib/services/mechanicService.ts:148-167 | The `+=`/`forEach` loop builds the context, the heading and the numbered entries of every result in order, then the instructions |
| MechanicService.SearchVectorStore | lib/services/mechanicService.ts:205-214 | The placeholder search finds nothing for any store id |
| MechanicService.Assist | lib/services/mechanicService.ts:49-126 | The first call is the pre-check for markup(base). If it is refused, nothing else happens and the error is "Insufficient credits". Success iff affordable and the model answers. Any later failure is the generic mechanic error with the ledger unchanged. On success the balance drops by exactly the checked amount and the reply is the model's text |
| MechanicService.AssistAsksThenLogs | lib/services/mechanicService.ts:82-112 | Past the pre-check the model is asked with the system message built from the request. A success appends exactly one spend: `mcp:MECHANIC_ASSISTANT:MR_GEARHART` for the checked amount |
| MechanicService.AssistKeepsBooks | lib/services/mechanicService.ts:49-126 | A request keeps the books |
| MechanicService.AssistErrorMessages | lib/services/mechanicService.ts:67-68 | A failure mentions insufficient credits iff the pre-check refused |
| MechanicService.GetAssistance | lib/services/mechanicService.ts:49-126 | The database, result and calls are those `Assist` gives |
| MechanicService.VectorStoreCharge | lib/services/mechanicService.ts:221-245 | The creation is charged markup(50) = 65 |
| MechanicService.CreateVectorStore | lib/services/mechanicService.ts:219-253 | Checks 65. If refused, nothing else happens. Otherwise it charges the same 65 under `mcp:MECHANIC_ASSISTANT:CREATE_VECTOR_STORE`, moves only that user's balance, leaves the purchase and adjustment logs untouched, and returns a `vs_` id. Success iff the user can afford 65 |
| MechanicService.CreateVectorStoreKeepsBooks | lib/services/mechanicService.ts:219-253 | Creating a store, refused or charged, keeps the books and the schema |
| MechanicService.CreateEquipmentVectorStore | lib/services/mechanicService.ts:219-253 | The database, result and calls are those `CreateVectorStore` gives |
| ImageGenerationService.NumberOfImages | lib/services/imageGenerationService.ts:42 | An absent or zero count becomes 1; any other count is kept |
| ImageGenerationService.ImageBase | lib/services/imageGenerationService.ts:48-60 | 30 per image, 50 at the two wide sizes, half as much again in HD, times the count |
| ImageGenerationService.HdCostsHalfAgain | lib/services/imageGenerationService.ts:55-57 | HD costs exactly 3/2 of standard quality |
| ImageGenerationService.ImageCostExamples | lib/services/imageGenerationService.ts:42-63 | The defaults cost 39 credits; one wide HD image costs 98 |
| ImageGenerationService.ImageChargeIsPreCheck | lib/services/imageGenerationService.ts:83-94 | The recorded base overrides the table, so the charge is the pre-checked amount |
| ImageGenerationService.ImageList | lib/services/imageGenerationService.ts:100-102 | One entry per item in order (none when `data` is absent), each being the field the requested format names |
| ImageGenerationService.Generate | lib/services/imageGenerationService.ts:36-113 | Check first; if it is refused, nothing else happens. Otherwise the image API is called with the prompt. Success iff affordable and the API answers. Later failures are the generic image error with the ledger unchanged. On success exactly one `mcp:IMAGE_GENERATION:DALLE` spend of the checked amount, and the reply lists the images and the balance after |
| ImageGenerationService.GenerateKeepsBooks | lib/services/imageGenerationService.ts:36-113 | A request keeps the books |
| ImageGenerationService.GenerateErrorMessages | lib/services/imageGenerationService.ts:67-69 | A failure mentions insufficient credits iff the pre-check refused |
| ImageGenerationService.GenerateImages | lib/services/imageGenerationService.ts:36-113 | The database, result and calls are those `Generate` gives |
| GoodwinService.Normalised | lib/services/goodwinService.ts:180 | The model's answer trimmed and upper-cased, or `GOODWIN_DIRECT` when it is absent or blank |
| GoodwinService.ClassifyIntent | lib/services/goodwinService.ts:149-198 | Always one of the six offered servants; a failed call or an empty answer is direct handling; a servant other than direct is chosen only when the normalised answer is exactly its label |
| GoodwinService.ClassifyLabel | lib/services/goodwinService.ts:183-192 | Each offered servant is chosen when the model answers with its label |
| GoodwinService.ClassifyNormalised | lib/services/goodwinService.ts:180 | Surrounding white space and letter case in the answer do not change the choice |
| GoodwinService.DirectResponse | lib/services/goodwinService.ts:203-233 | The model's text when it answers, the "momentary lapse" text for an empty answer, the "some difficulty" text on failure |
| GoodwinService.FormatServantResponse | lib/services/goodwinService.ts:238-244 | Defined as the identity on the servant's text; `ProcessChargesMechanicAndOrchestration` states that the mechanic's reply reaches the user unchanged |
| GoodwinService.OrchestrationCharge | lib/services/goodwinService.ts:66-119 | The checked base is 5, and the recorded orchestration costs markup(5) = 7 |
| GoodwinService.ToMechanic | lib/services/goodwinService.ts:82-90 | The GEARHART branch is the mechanic's run: same ledger, calls and error |
| GoodwinService.Route | lib/services/goodwinService.ts:81-107 | Only GEARHART reaches the mechanic; BRIGHTWELL is the placeholder reply with an extra cost of 30 and no calls; every other servant is a direct reply after one model call, all without touching the ledger |
| GoodwinService.Charged | lib/services/goodwinService.ts:110-130 | The orchestration charge of 7 is made first. It succeeds iff the user can afford it. A refusal is the charge's error with nothing changed. A success is the recorded ledger, the servant's reply, and the balance after, with `lowCredits` iff the balance is below 100, and a low-credit message iff `lowCredits` |
| GoodwinService.ChargedRefused | lib/services/goodwinService.ts:110-119 | An account below 7 credits is refused the orchestration charge with "Insufficient credits" carrying 7 and its balance, and nothing changes |
| GoodwinService.Catch | lib/services/goodwinService.ts:131-142 | An error mentioning "Insufficient credits" becomes the apology (0 credits, low); any other error, and any success, is passed on unchanged |
| GoodwinService.Settle | lib/services/goodwinService.ts:107-130 | A successful reply after routing has `lowCredits` iff the balance is below 100, and a low-credit message iff `lowCredits` |
| GoodwinService.Attempt | lib/services/goodwinService.ts:64-130 | The first call is the pre-check for the given amount, and a successful reply has `lowCredits` iff the balance is below 100, and a low-credit message iff `lowCredits` |
| GoodwinService.Process | lib/services/goodwinService.ts:63-143 | The first call checks 5 credits; a successful reply has `lowCredits` iff the balance is below 100, and a low-credit message iff `lowCredits` (the apology reports 0 credits, flagged low) |
| GoodwinService.ProcessKeepsBooks | lib/services/goodwinService.ts:63-143 | Every request, whichever servant handles it and whatever the model answers, keeps the books and the schema |
| GoodwinService.ProcessRefusesPoorAccount | lib/services/goodwinService.ts:69-72 | An account that cannot pay 5 gets the apology after the pre-check alone, and nothing changes |
| GoodwinService.OnlyMechanicFailuresEscape | lib/services/goodwinService.ts:131-142 | The only error `processRequest` lets escape is the mechanic's generic failure, and only after a GEARHART classification, with the ledger unchanged |
| GoodwinService.ProcessChargesOrchestration | lib/services/goodwinService.ts:92-119 | A request not sent to the mechanic, from an account with at least 7 credits, succeeds. It is charged exactly 7 in one `mcp:GOODWIN:ORCHESTRATION` spend (the image placeholder's 30 is never taken). The reply is the placeholder or the direct reply |
| GoodwinService.ProcessChargesMechanicAndOrchestration | lib/services/goodwinService.ts:82-119 | A mechanic request that can pay both charges pays both (two spends, the mechanic's fee plus 7), and is answered with the mechanic's text unchanged |
| GoodwinService.PrecheckBelowCharge | lib/services/goodwinService.ts:66-119 | As written: with 5 or 6 credits a direct request passes the pre-check of 5. The model is called twice, then the charge of 7 is refused. The request ends in the apology, with no change to the ledger |
| GoodwinService.ProcessCorrected | lib/services/goodwinService.ts:66-72 | The corrected flow checks the 7 it charges |
| GoodwinService.CorrectedNeverServesUnpaid | lib/services/goodwinService.ts:66-119 | With the corrected check, a request not sent to the mechanic either stops at the pre-check (iff the account has less than 7, answered with the apology, nothing changed), or succeeds and pays exactly 7 |
| GoodwinService.RouteRequest | lib/services/goodwinService.ts:78-107 | The database, result and calls are those `Route` gives |
| GoodwinService.ChargeOrchestration | lib/services/goodwinService.ts:109-130 | The database, result and calls are those `Charged` gives |
| GoodwinService.TryProcess | lib/services/goodwinService.ts:64-130 | The database, result and calls are those of the `try` block, with the pre-check for 5 |
| GoodwinService.ProcessRequest | lib/services/goodwinService.ts:63-143 | The database, result and calls are those `Process` gives |
| StripeWebhook.Keys | app/api/stripe/webhook/route.ts:88 | `Object.keys`: every key of the table, each once |
| StripeWebhook.FindByAmount | app/api/stripe/webhook/route.ts:88-90 | The first key in order whose package amount times 100 is the total paid, or none when no package matches |
| StripeWebhook.FindByAmountUnique | app/api/stripe/webhook/route.ts:86-91 | When exactly one package matches the amount paid, that package is the one found |
| StripeWebhook.PackageTotalsAddUp | app/api/stripe/webhook/route.ts:37-44 | Every package in the table grants its credits plus its bonus, whatever the six price ids are |
| StripeWebhook.PurchasedPriceId | app/api/stripe/webhook/route.ts:83-91 | Without a metadata price id, a package is found only for a `payment` session with an amount, and only one whose price times 100 is that amount |
| StripeWebhook.MatchByAmount | app/api/stripe/webhook/route.ts:86-91 | With distinct price ids, a total of 50000 resolves to the 5050-credit package |
| StripeWebhook.Checkout | app/api/stripe/webhook/route.ts:76-142 | Nothing changes unless credits are awarded. An award needs all of: a known package, a payment intent never recorded before, and an existing user with the session's email; when all three hold the award is made, to that user, for the package total. It adds one purchase row (the package total, `amount_total` or 0, the currency or "usd") and raises only that user's balance by the total |
| StripeWebhook.CheckoutReplayIsNoOp | app/api/stripe/webhook/route.ts:104-108 | Delivering the same checkout event again changes nothing |
| StripeWebhook.CheckoutKeepsBooks | app/api/stripe/webhook/route.ts:76-142 | The checkout branch keeps the books and the schema |
| StripeWebhook.Refund | app/api/stripe/webhook/route.ts:143-184 | Changes something iff a purchase for the intent exists and its user does; otherwise nothing changes |
| StripeWebhook.RefundTakesBackGrant | app/api/stripe/webhook/route.ts:167-180 | A refund lowers the buyer's balance by exactly the credits purchased, with one adjustment of minus that amount and reason "Refund for Stripe paymentIntent …"; nothing else changes |
| StripeWebhook.RefundIsAdjust | app/api/stripe/webhook/route.ts:168-180 | The refund transaction is `addCredits`'s adjustment for the buyer: minus the credits purchased, with the refund reason |
| StripeWebhook.RefundKeepsBooks | app/api/stripe/webhook/route.ts:143-184 | The refund branch keeps the books and the schema |
| StripeWebhook.RefundReversesAward | app/api/stripe/webhook/route.ts:123-180 | A refund right after an award takes back exactly the award, so every balance is back where it was |
| StripeWebhook.RefundReplayTakesTwice | app/api/stripe/webhook/route.ts:143-180 | As written: a refund delivered twice is applied twice, taking back twice the grant |
| StripeWebhook.RefundCorrected | app/api/stripe/webhook/route.ts:143-180 | The corrected refund skips an intent whose refund is already logged and otherwise is the refund as written |
| StripeWebhook.RefundCorrectedReplayIsNoOp | app/api/stripe/webhook/route.ts:143-180 | With the guard, a redelivered refund changes nothing |
| StripeWebhook.Webhook | app/api/stripe/webhook/route.ts:46-192 | No signature: 400 and no change. A failed verification: 400 with its message and no change. Otherwise 200: a completed checkout is `Checkout`'s ledger and outcome, a refunded charge is `Refund`'s, and any other event type changes nothing |
| StripeWebhook.WebhookKeepsBooks | app/api/stripe/webhook/route.ts:46-192 | Every request keeps the books and the schema |
| StripeWebhook.HandleWebhook | app/api/stripe/webhook/route.ts:46-192 | The database, reply and branch taken are those `Webhook` gives |
| StripeWebhook.HandleCheckout | app/api/stripe/webhook/route.ts:76-142 | The database and branch taken are those `Checkout` gives |
| StripeWebhook.HandleRefund | app/api/stripe/webhook/route.ts:143-184 | The database and branch taken are those `Refund` gives |
| AuthOptions.Provision | app/api/auth/options.ts:61-129 | No email: "Email is required" and no change. No connection: "Database connection failed". An existing email returns that user, unchanged, with no grant. Otherwise exactly one new user is added with the data and 500 credits. The returned email is always the one signed in with |
| AuthOptions.AsAdapterUser | app/api/auth/options.ts:87-94 | The returned object carries the stored user's fields, its email falling back to the one signed in with |
| AuthOptions.ProvisionKeepsBooks | app/api/auth/options.ts:97-107 | Provisioning keeps the books and the schema |
| AuthOptions.ProvisionGrantsOnce | app/api/auth/options.ts:81-107 | No existing account changes, and the only account added is the new id with 500 credits |
| AuthOptions.ProvisionTwiceIsOnce | app/api/auth/options.ts:81-95 | Signing up again with the same email finds the first account and changes nothing |
| AuthOptions.CreateUser | app/api/auth/options.ts:61-129 | The database and result are those `Provision` gives |
| AuthOptions.SessionCredits | app/api/auth/options.ts:193 | `user.credits || 0`: the balance when present, 0 when absent |
| AuthOptions.Attached | app/api/auth/options.ts:191-194 | A session with a user gets the account's id and balance, all else kept; a session without one is unchanged |
| AuthOptions.SessionCallback | app/api/auth/options.ts:188-197 | The callback updates the session in place as `Attached` says and returns the same session |
| ConsumeRoute.Consume | app/api/credits/consume/route.ts:15-33 | 401 without a session. 400 "Invalid amount" for a missing or non-positive amount. Consumes exactly when there is a session, a positive amount and a user with at least that balance. Only then is the balance decremented by the amount (staying at or above 0), with no log row, and nothing else changes |
| ConsumeRoute.ConsumeBreaksBooks | app/api/credits/consume/route.ts:28-31 | A successful consume leaves a balanced account unbalanced: no spend row records it |
| ConsumeRoute.ConsumeCredits | app/api/credits/consume/route.ts:15-33 | The database and reply are those `Consume` gives |
| HistoryRoute.Limit | app/api/user/credit-history/route.ts:27-29 | The limit is 10 when the parameter is absent or empty, otherwise its parsed value, negative values and 0 included |
| HistoryRoute.GetHistory | app/api/user/credit-history/route.ts:16-55 | 401 iff no session user id. Otherwise three lists of only that user's rows, newest first: for a limit n ≥ 0 the `RecentOf` answer with exactly min(n, count) rows; for a negative limit -n the `OldestOf` answer, the last min(n, count) rows |
| HistoryRoute.DefaultLimitBounds | app/api/user/credit-history/route.ts:29 | Illustration of `GetHistory`'s contract: without a limit no list holds more than 10 rows |
| HistoryRoute.NoPurchasesNoList | app/api/user/credit-history/route.ts:32-37 | Illustration of `GetHistory`'s contract: a user with no purchases gets an empty purchase list, whatever other users bought |
| HistoryRoute.NegativeLimitListsOldest | app/api/user/credit-history/route.ts:29-41 | With `limit=-1` and two spends of the user, the spend list holds the older one only |
| Middleware.Decide | middleware.ts:16-44 | Passes iff the path is public or a token is present; otherwise redirects to `/api/auth/signin` with the `encodeURI`-escaped request URL as callback |
| Middleware.IsPublic | middleware.ts:20-26 | Defined as: `/`, one of the four literal prefixes, or a dot anywhere; `PublicPrefixExtends` and `PublicExamples` state its consequences |
| Middleware.CallbackEscapesAgain | middleware.ts:38 | A `%` already in the request URL of a protected path reaches the callback as `%25` |
| Middleware.PublicPrefixExtends | middleware.ts:20-26 | Any path other than "/" that is public stays public whatever is appended to it |
| Middleware.ApiRoutesAreProtected | middleware.ts:20-40 | Any `/api/` path outside `/api/auth` with no dot is not public, and without a token is redirected to sign in with the escaped request URL |
| Middleware.PublicExamples | middleware.ts:20-26 | The prefix test is literal: `/authx` and `/favicon.ico` are public, `/dashboard` is not |
| TurnResponse.FirstText | app/api/turn_response/route.ts:18 | The first part's text when it is non-empty, else the content as it was |
| TurnResponse.Convert | app/api/turn_response/route.ts:14-30 | No converted message carries the `developer` role; a message passes through as it was exactly when it has none of the three roles and is not a function output; a rewritten chat message is sent as `system`, `user` or `assistant` |
| TurnResponse.ConvertMessages | app/api/turn_response/route.ts:13-31 | One converted message per message, in order |
| TurnResponse.ConvertRoles | app/api/turn_response/route.ts:13-31 | `developer` becomes `system` with the same content, `user`/`assistant` keep their role with `FirstText` of the content, a function output with none of those roles becomes a `tool` message with its output and call id, any other message passes through unchanged, and no `developer` role reaches the completion API |
| TurnResponse.CallsStepFacts | app/api/turn_response/route.ts:74-116 | The tool-call loop never replaces an open call. It announces an opening exactly when it opened one, and sends neither text nor `response.done`. The stored arguments keep mirroring the accumulated ones |
| TurnResponse.TakeAppendsFragment | app/api/turn_response/route.ts:102-115 | With a call open, an entry's fragment is appended to the arguments (none when absent). A truthy one sends exactly one `arguments.delta` with that fragment and the call's id, an empty one sends nothing and changes nothing |
| TurnResponse.ChunkEvents | app/api/turn_response/route.ts:57-154 | A chunk's text event comes first, and there is exactly one iff the delta has text. `response.done` comes last, exactly once iff there is a finish reason. For `tool_calls` with a call open, `arguments.done` and `output_item.done` of that call come right before it |
| TurnResponse.OneOpeningPerStream | app/api/turn_response/route.ts:53-117 | Over a whole stream, `output_item.added` is sent exactly once if a named tool call arrives, and never otherwise. The stored call's arguments always equal the accumulated arguments |
| TurnResponse.OpeningFragmentCountedTwice | app/api/turn_response/route.ts:78-104 | As written: a named entry carrying fragment `a` opens the call with `a` and then appends `a` again, giving `a + a` |
| TurnResponse.OpeningFragmentExample | app/api/turn_response/route.ts:78-104 | The opening fragment `{}` ends up as `{}{}` |
| TurnResponse.CorrectedCountsEachFragmentOnce | app/api/turn_response/route.ts:78-115 | With the corrected step, a run of entries starting with a named one opens one call with the first entry's id, whose arguments are every fragment once, in order |
| TurnResponse.Translate | app/api/turn_response/route.ts:53-157 | Defined as the chunk step folded over the stream from the initial state; the rows below state what it sends |
| TurnResponse.TranslateIsEntries | app/api/turn_response/route.ts:53-117 | The stream's final state, and its count of `arguments.delta` events, are those of the tool-call loop run over all the stream's entries in order |
| TurnResponse.WrittenEntriesFacts | app/api/turn_response/route.ts:78-115 | As written: a run of entries starting with a named one carrying fragment a accumulates a + a + the later fragments, and sends one delta per truthy fragment, the first included |
| TurnResponse.WrittenStreamFacts | app/api/turn_response/route.ts:53-157 | As written, over a whole stream whose first named entry is preceded only by unnamed ones: the arguments hold that entry's fragment twice, then the later ones, and the delta count is as in `WrittenEntriesFacts` |
| TurnResponse.TranslateCorrectedIsEntries | app/api/turn_response/route.ts:53-117 | The corrected stream's final state and delta count are those of the corrected loop over all its entries |
| TurnResponse.CorrectedDeltaCount | app/api/turn_response/route.ts:78-115 | The corrected loop sends one delta per truthy later fragment and none for the opening one, which the opening already announced |
| TurnResponse.CorrectedStreamCountsEachFragmentOnce | app/api/turn_response/route.ts:53-157 | With the corrected step, over a whole stream: one call opens with the first named entry's id, its arguments are every fragment once, in order, mirrored in the stored item, and one delta is sent per truthy later fragment |
| TurnResponse.TakeToolCalls | app/api/turn_response/route.ts:74-116 | The inner loop's final state and events are those `CallsStep` gives |
| TurnResponse.TranslateChunk | app/api/turn_response/route.ts:58-154 | One chunk's state and events are those `ChunkStep` gives |
| TurnResponse.TranslateStream | app/api/turn_response/route.ts:53-157 | The events of the whole stream are those `Translate` gives |
| Text.NatToStringRoundTrip | lib/services/creditService.ts:56 | Reading back the decimal digits of `${n}` gives n |
| Text.Trim | lib/services/goodwinService.ts:180 | `trim` gives a slice of the input with no white space at either end, and everything removed before or after it is white space |
| Text.TrimIdempotent | lib/services/goodwinService.ts:180 | Trimming twice is trimming once |
| Text.ToUpperIdempotent | lib/services/goodwinService.ts:180 | Upper-casing twice is upper-casing once |
| Text.EncodeUri | middleware.ts:38 | `encodeURI` never shortens its input, and every character of its output is one it keeps unescaped or a `%` |
| Text.EncodeUriConcat | middleware.ts:38 | Escaping a concatenation escapes each part |
| Text.EncodeUriKeeps | middleware.ts:38 | A string made only of characters `encodeURI` keeps (letters, digits, `-_.!~*'()`, the reserved set and `#`) is returned unchanged |
| Text.EncodeUriEscapes | middleware.ts:38 | After a kept prefix, a character outside that set is replaced by the `%XY` escapes of its UTF-8 bytes, and the rest is encoded in turn |
| Text.PercentIsEscapedAgain | middleware.ts:38 | `%` becomes `%25` and a space `%20` |

## Left out

- OpenAI, Stripe, NextAuth and Prisma are not modelled. Each call's
  outcome is a parameter:
  - the model's reply;
  - the image response;
  - the result of `constructEvent`;
  - the session's user id;
  - whether `$connect` succeeded;
  - the id a new row gets.
- Concurrency is not modelled. Each transaction, and each bare update, is
  one atomic step. Nothing is claimed about two requests racing: the
  consume route's read-then-update, or the webhook's find-then-create.
- Every `Date.now()` reading in one request is the single `now` parameter.
  So the ids (`vs_…`, `msg_…`, `call_…`) and the row timestamps use that
  value.
- JSON (de)serialisation is not modelled:
  - the metadata blob is kept as a map and never stored, as the source
    never stores it;
  - the SSE framing (`data: …\n\n`) and event payloads are kept as
    datatypes.
- The `500` catch paths are left out, because the modelled database never
  throws. This covers the webhook, the credit-history route,
  `turn_response` and `createUser`'s rethrow of an unexpected fault.
- The webhook's env-var package keys are six abstract price ids
  (`StripeWebhook.PriceIds`). Distinctness is assumed only where a lemma
  says so.
- `mechanicService.processResponse` uses regular expressions, which are
  not modelled. The reply's text is kept, and the parts list the regex
  extracts is dropped.
- `classifyIntent`'s and `generateGoodwinResponse`'s prompts are not
  modelled. Each is one `External` call carrying the query.
- The `turn_response` model omits three things:
  - the tool list mapping at app/api/turn_response/route.ts:37-44;
  - the stream options;
  - `controller.error`.
- Text.ToUpper: upper-cases only ASCII letters. JavaScript's
  `toUpperCase` also maps other letters (for example `ſ` to `S`), so an
  exotic answer could be classified differently.
- HistoryRoute.Limit: takes the parameter as an integer, so `parseInt`'s
  handling of text, of trailing junk and of NaN limits is left out.
- HistoryRoute.GetHistory and CreditService.GetCreditHistory: a negative
  `take` is read as Prisma documents it: the last rows of the newest-first
  order, still listed newest first.
- History.Recent: rows with equal timestamps keep log order. The database
  leaves that order open, so RecentOf does not fix it.
- ConsumeRoute.Consume: the amount is an integer. A fractional JSON number
  is outside the model.
- ConsumeRoute.Consume: a session with a user but no id is modelled as no
  session (401). The route itself lets such a session through: it answers
  400 for a bad amount, and otherwise `findUnique` with an undefined id
  throws, which the route does not catch, so the request fails with an
  unhandled error. That path is not modelled.
- CreditService.Markup: computes the ceiling of 13b/10 exactly. The
  source's float product `b*1.3` could in principle round differently for
  very large bases.
- GoodwinService.Route: `additionalCost` is computed and returned as in
  the source, but never charged, as in the source.
- GoodwinService.Attempt and GoodwinService.Settle: their own contracts
  state only the first call and the low-credit flag and message. The full
  behaviour is stated by the lemmas about `Process`.
- StripeWebhook.Webhook, StripeWebhook.Checkout, AuthOptions.Provision: require the schema's uniqueness rules (`Store.WellFormed`), which the database enforces.
- AuthOptions.CreateUser: requires that the fresh id is not in use. The
  database guarantees this.
- Other NextAuth callbacks and events, which only log, are left out.
- UI components, hooks and the feature route handlers are left out. The
  handlers only repeat the `handleMcpError` mapping.

## Findings

The handlers model the code as written. Each corrected definition sits
beside them, with the intended property proved about it.

| source | as written | input that shows it | evidently intended | confidence | as-written member | corrected member |
|---|---|---|---|---|---|---|
| lib/services/goodwinService.ts:66-72 | The pre-check asks for the base fee 5. The orchestration is then recorded at markup(5) = 7 (lines 110-119) | An account with 5 or 6 credits sends a direct request. It passes the pre-check and the model is called twice; then the charge is refused and the apology is returned, with nothing paid | Check the amount that is charged (7) | not executed; high that the amounts differ, medium that it is unintended | GoodwinService.PrecheckBelowCharge | GoodwinService.CorrectedNeverServesUnpaid |
| app/api/stripe/webhook/route.ts:143-180 | A refund looks up the purchase and logs an adjustment, with no check for an earlier refund of the same intent | The same `charge.refunded` event is delivered twice. The grant is taken back twice, and the balance falls by twice the credits purchased | Skip a refund already logged, as the checkout branch skips a purchase already recorded | not executed; medium | StripeWebhook.RefundReplayTakesTwice | StripeWebhook.RefundCorrectedReplayIsNoOp |
| app/api/turn_response/route.ts:78-104 | Opening a call sets the accumulated arguments to the entry's fragment (line 84). The same entry's fragment is then appended again (line 103) | The first tool-call entry has name `search` and arguments `{}`. The accumulated arguments become `{}{}` | Each fragment is counted once | not executed; medium | TurnResponse.WrittenStreamFacts | TurnResponse.CorrectedStreamCountsEachFragmentOnce |
