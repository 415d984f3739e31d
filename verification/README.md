# Verification of the pburls billing protocol and the structures around it

A Dafny model of the parts of pburls where a mistake costs money or shows one account's data to
another, with proofs about every run of them. `dafny verify dfyconfig.toml` checks the project.

## What is modelled

**Billing.** The tables of the billing service are a `Ledger` (BillingTypes). Each `locked(...)`
block, and each conditional update outside one, is a function of the ledger (BillingSteps); the
class in BillingService changes the same tables row by row, in the order of the source, and every
method is proved to do exactly what the function says and to keep the ledger invariant
(BillingInvariant, BillingPreservation). BillingWorld puts the transactions between any number of
requests, webhooks, polls and recovery runs and a payment provider that answers late, twice or never:
25 kinds of step in any order. A value that was read before a lock was taken travels as a snapshot,
which may be any earlier reading of its row in the order of BillingHistory; every step is proved to
move the rows forward in that order. BillingSafety proves the invariant for every step, BillingRuns
states what follows for every run of a fresh installation, and BillingUndo and BillingJoin prove what
spans several operations. BillingRows says what a step does to one payment row; on it rest
BillingOwnCharge (are balances and refund requests those of the charge the row names?),
BillingFulfilment (is captured money ever left without a plan and without a mark?), BillingPrices (when
is an order granted, and what does it cost?), BillingRefunds (when does a refund count as failed, and
until when may it be asked for?), BillingCoupons (who has used a coupon?) and BillingMirror (what does a
checkout show of its payment?). BillingExamples and BillingRaces walk through concrete runs. What is assumed of the
provider is written at the head of BillingWorld: one order per order request, final rejections, final
empty receipt lookups 60 seconds after the reservation, a list of processed refunds that only grows,
and idempotency keys.

**Around billing.** Calendar (paid periods), Gateway (the meaning of a provider answer, the paged
refund list), Recovery and RecoveryRuns (the leased job queue: the resources that call for recovery,
the four seed statements on them, workers that read, call and decide step by step while the resources
move, and the fenced writes) and RecoveryDelays (how often a job is tried).

**Elsewhere.** TokenRefresh (the browser's refresh queue, one event-loop turn a step, with the
requests that are sent again), LocationCache, IpAddress and JsText (the location resolver), PyText,
EnvFile, EnvPlain, EnvRoundTrip and EnvProduction (writing and reading the production environment
file), Redirects (short links behind a cache), Clicks (rollups and charts). Sequences holds what the
proofs need of concatenation.

## Where the code does less than it promises

These are results: the exact condition is proved, and the code is modelled as it is.

- A full refund ends the plan it paid for only if the payment row that was read *before* the lock
  already named the subscription (`BillingUndo.RefundEndsPlan`). `BillingExamples.RefundedAndActive` is a
  run from a fresh installation that ends with a fully refunded payment and its plan still active.
- A purchase followed by a full refund gives back the previous entitlement exactly under
  `BillingUndo.CanBeUndone`. It does not when the replaced subscription had time left but no captured
  payment, or had no end and was not Free; `BillingExamples.GivenPlanIsLost` is such a run.
- `refunded_amount` never exceeds what the provider returned of some charge of the order
  (`BillingRuns.RefundLedger`), but it can exceed what was returned of the charge the row names: a
  reconciliation lists the refunds of the charge its reading named, and another attempt may have been
  captured since. `BillingRaces.RefundedElsewhere` ends with a payment that says it was refunded in
  full and a charge of which nothing was returned. One step keeps the balance within the row's own
  charge exactly when what it lists is within it, so always when the reading names that charge
  (`BillingOwnCharge.ReconcileKeepsOwn`); over runs `BillingOwnCharge.BalancesOfOwnCharge`.
- Likewise a refund request can be sent to an attempt that was not captured
  (`BillingRaces.SubmittedElsewhere`), exactly when it works from a reading that names another charge
  (`BillingOwnCharge.SubmissionsOfOwnCharge`). `BillingOwnCharge.OwnChargeIsKept` gives the guard for
  both: compare the reading's charge with the row's, or work from a reading of a captured row only
  (`BillingOwnCharge.SettledReadingNamesOwn`).
- A captured payment always has its plan or a mark for review (`BillingFulfilment.CapturedIsServed`).
  Money that was taken and partly or wholly returned can have neither, with its checkout open for
  good: exactly when a balance is recorded on a row whose capture was not
  (`BillingFulfilment.TakenIsServed`, with a run in `BillingRaces.CaptureIsLost`).
- A recovery job whose resource goes on calling for work keeps its row, except for a refund whose
  worker decided on a failed status that was pending again by the time it wrote
  (`RecoveryRuns.NoWorkIsLost`, exactly then; `RecoveryRuns.StaleDecision` is such a run). The next
  seed pass gives it a new row (`RecoveryRuns.SeedFindsAll`).
- `merge` accepts values with line separators other than "\n" and "\r" (for instance form feed or
  U+2028). Reading back works exactly when there are none (`EnvRoundTrip.MergeRoundTrips`).
- A setting without a value in front of a comment (`KEY= # note`) reads as the comment, because the space
  that would set it off is stripped first (`EnvPlain.CommentForValue`; with a value it is read as it
  stands, `EnvPlain.PlainReads`).
- `normalizeIpAddress` takes off one mapped prefix only; the result is its own normal form exactly
  when the trimmed, lower-cased input does not begin with two (`IpAddress.NormalizeIsIdempotent`, with
  an input in `IpAddress.PrefixedTwice`).

## Model

| member | source | states |
|---|---|---|
| Calendar.PeriodEnd | backend/src/services/billingPolicy.js:7-16 | the step-by-step date change gives the same day of the target month, or its last day if that is earlier, and a valid later date |
| Calendar.PeriodLength | backend/src/services/billingPolicy.js:7-16 | a paid period is 28 to 31, 89 to 92 or 365 to 366 days long, by cycle |
| Calendar.PeriodEndMonotone | backend/src/services/billingPolicy.js:7-16 | a later start never ends earlier |
| Calendar.ChainedRenewals | backend/src/services/billing.service.js:38-41 | n chained monthly renewals end in the month one n-month period ends in, never later and at most three days earlier |
| Calendar.RenewalsAgainstLongCycles | backend/src/services/billing.service.js:38-41 | three renewals against a quarter and twelve against a year |
| Calendar.PeriodEndAtDate | backend/src/services/billingPolicy.js:7-16 | on instants the date moves and the time of day stays, for every date and time |
| BillingPolicy.DiscountMeaning | backend/src/services/billingPolicy.js:26-33 | a percentage leaves that share of the price to within half a unit, a flat discount the difference, never below zero or above the price; exactly the valid discounts are accepted |
| BillingPolicy.CouponAcceptance | backend/src/services/billing.service.js:19-28 | a typed code is accepted if and only if it is 1 to 64 characters long and names a coupon that runs now, has uses left, fits the plan and is new to the user |
| BillingPolicy.RefundAcceptance | backend/src/services/billingPolicy.js:35-46 | self-service refunds: a captured provider charge with money left, within 14 days, and nothing else |
| BillingPrices.ReservedExactly | backend/src/services/billing.service.js:65-97 | a new order is granted if and only if the user has no such request, no open checkout, no pending refund and has seen the newest purchase, and plan, coupon, places and payment allow it; its row is what was ordered, at the price of its period (the stored one, or 1, 3 or 12 months) less the discount |
| BillingPrices.AnswerIsTrue | backend/src/services/billing.service.js:65-97 | every refusal of an order gives a reason that holds, and an existing checkout is the user's own for the same purchase |
| BillingPrices.PaymentIsPriced | backend/src/services/billingPolicy.js:18-33 | in every reachable state a payment costs the price of its plan and period in the plan's currency, less the discount of its coupon |
| BillingInvariant.ActivateKeepsSubscriptions | backend/src/services/billing.service.js:30-52 | granting a plan leaves one live subscription per user, and ties the new one to its payment and no other |
| BillingInvariant.RedeemCounts | backend/src/services/billing.service.js:42-50 | `times_redeemed` stays the number of redemption rows and moves by at most one, for the paying coupon only |
| BillingInvariant.RedeemAndClose | backend/src/services/billing.service.js:42-50 | the redemption takes the place that the closing checkout held, so no limit is passed |
| BillingPreservation.ReserveKeepsInv | backend/src/services/billing.service.js:64-99 | a granted reservation keeps one open checkout per user, one per request key, and every coupon within its limit |
| BillingPreservation.AttachKeepsInv | backend/src/services/billing.service.js:109-128 | saving or recovering an order keeps the ledger invariant, whoever comes first |
| BillingPreservation.SaveFreeKeepsInv | backend/src/services/billing.service.js:109-113 | a free order is captured and granted in the transaction that creates it, again and again without a second grant |
| BillingPreservation.RecoverFreeIsSaveOrder | backend/src/services/billing.service.js:137-142 | recovering a free checkout does what the request that created it does |
| BillingPreservation.SettleKeepsInv | backend/src/services/billing.service.js:165-194 | any report, captured or not, matching or not, keeps the ledger invariant |
| BillingPreservation.RecordTotalKeepsInv | backend/src/services/billing.service.js:233-248 | a balance recorded from any earlier reading of the row keeps the ledger invariant |
| BillingPreservation.ExpireTables | backend/worker/index.js:535-561 | expiry leaves one live subscription per user and touches no purchase |
| BillingHistory.SettleAdvances | backend/src/services/billing.service.js:165-194 | a report never reopens a checkout, unsettles a payment or changes what a subscription is |
| BillingHistory.RecordTotalAdvances | backend/src/services/billing.service.js:228-248 | a balance never shrinks and only a full refund changes the end of what was bought |
| BillingSafety.ProviderOrderAttaches | backend/src/services/billing.service.js:118-131 | an order of the provider always finds its checkout open or already its own: it was never given up, and it has no other order |
| BillingSafety.StepKeepsInv | backend/src/services/billing.service.js:60-350 | every step of requests, webhooks, recovery, provider and scan keeps the invariant between tables and provider, and moves rows forward |
| BillingRuns.RunKeepsInv | backend/src/services/billing.service.js:60-350 | so does every run |
| BillingRuns.CouponsNeverOversold | backend/src/services/billing.service.js:82-96 | in every reachable state, across users, redemptions plus open reservations stay within the limit, and the counter counts the redemptions |
| BillingRuns.CouponOncePerUser | backend/src/services/billing.service.js:25-28 | once a user has redeemed a coupon, in every later state the redemption stands for the same order, no new order of theirs is reserved with it and its code is refused to them |
| BillingCoupons.RedeemedByPurchase | backend/src/services/billing.service.js:42-50 | in every reachable state a user has redeemed a coupon if and only if a fulfilled purchase of theirs has it, which the redemption names |
| BillingRuns.OneOrderPerRequest | backend/src/services/billing.service.js:64-107 | one user and request key is one checkout, one order request and one provider order |
| BillingRuns.OnePurchasePerPayment | backend/src/services/billing.service.js:30-52 | no two subscriptions of one order ever exist, in any two states of a run |
| BillingRuns.OnePerUser | backend/src/services/billing.service.js:40-79 | at most one open checkout and at most one live subscription per user |
| BillingRuns.ClosedIsFinal | backend/src/services/billing.service.js:149-159 | a closed checkout stays closed with its payment, and a payment it has was captured |
| BillingRuns.RefundLedger | backend/src/services/billing.service.js:228-268 | the refunded amount never shrinks and never exceeds the price or what the provider returned of some charge of the order; REFUNDED exactly when all of it is; a PROCESSED record is covered |
| BillingRuns.OneRefundPerRecord | backend/src/services/billing.service.js:252-323 | every submission of a record carries its key and amount, other orders have other keys, and the provider makes at most one refund of it; the charge it names is in BillingOwnCharge |
| BillingRuns.OneRecordPerPayment | backend/src/services/billing.service.js:270-286 | a refund request is for the owner's captured charge, within 14 days unless an administrator makes it, and asks for all that is left; after it no request, in any run, makes a second record |
| BillingRefunds.RequestedExactly | backend/src/services/billing.service.js:274-284 | a request makes a record if and only if the owner's provider charge is captured, has money left, has no record yet and is within 14 days or an administrator asks; the record asks for what is left |
| BillingRefunds.RefusalIsTrue | backend/src/services/billing.service.js:274-283 | the reason for refusing a request holds |
| BillingRefunds.RefundWindow | backend/src/services/billing.service.js:176-184 | after a capture, over every run: the owner may ask from the capture's date on (the provider's, if it is one of the past) for exactly 14 days, once, while money is left |
| BillingRefunds.StepRejects | backend/src/services/billing.service.js:252-311 | a record is failed after a step exactly when the step acts on a definite refusal, saves a report that it failed, or left a failed one alone |
| BillingRefunds.FailedWasRefused | backend/src/services/billing.service.js:252-323 | over every run: a refund counts as failed only after the provider turned a submission down or reported it failed |
| BillingRefunds.WaitsForTheProvider | backend/src/services/billing.service.js:299-323 | over every run: until the provider says no, a record that waits goes on waiting or is processed, with its key and amount |
| BillingRefunds.DoubtIsRetried | backend/src/services/billing.service.js:303-310 | after a request that left doubt the record is unresolved and can be submitted again with the same key and amount, on the payment's charge |
| BillingRefunds.RefusalIsNotRetried | backend/src/services/billing.service.js:300-310 | after a request that was turned down the record is failed, and nothing that reads it afterwards submits it |
| BillingOwnCharge.ReconcileKeepsOwn | backend/src/services/billing.service.js:228-236 | recording a balance keeps it within what was returned of the row's own charge if and only if the listed total is, and so whenever the reading names that charge |
| BillingOwnCharge.StepKeepsOwnReturned | backend/src/services/billing.service.js:165-250 | no other step, of all 25 kinds, takes a balance out of the row's own charge |
| BillingOwnCharge.BalancesOfOwnCharge | backend/src/services/billing.service.js:228-250 | over every run: the balance is within the row's own charge in all its states if and only if every reconciliation lists no more than that charge returned |
| BillingOwnCharge.SubmissionsOfOwnCharge | backend/src/services/billing.service.js:299-323 | over every run: all refund requests of an order went to the charge its row names if and only if each worked from a reading that named it |
| BillingOwnCharge.OwnChargeIsKept | backend/src/services/billing.service.js:228-323 | both hold over every run whose readings name the charge the row names when they are used |
| BillingOwnCharge.SettledReadingNamesOwn | backend/src/services/billing.service.js:228-323 | a reading of a captured row always does |
| BillingFulfilment.StepServes | backend/src/services/billing.service.js:165-250 | a step leaves taken money without a plan and a mark exactly when it records a balance before the capture, or the money was lost before and no second charge turns up |
| BillingFulfilment.CapturedIsServed | backend/src/services/billing.service.js:165-194 | in every reachable state a captured payment has its plan or is marked for review |
| BillingFulfilment.TakenIsServed | backend/src/services/billing.service.js:165-250 | over every run: taken money is never without both if and only if no balance is recorded before the capture |
| BillingUndo.GrantsUnlessSuperseded | backend/src/services/billing.service.js:30-37 | a payment is granted once and not when the active plan has a newer payment; then only the review mark changes |
| BillingUndo.GrantWritesRows | backend/src/services/billing.service.js:37-51 | the rows a grant writes: the bought plan from now or from the end of the same plan, every live one cancelled now, the payment linked to both |
| BillingUndo.PurchaseTakesEffect | backend/src/services/billing.service.js:38-41 | a granted plan is in force at once, runs on from the end of the same plan without losing a day, and changes nobody else's plan |
| BillingUndo.EntitlementIsActive | backend/src/services/planLimitService.js:57-86 | the plan in force is that of the only active subscription while it lasts, else Free |
| BillingUndo.RevokedEntitlement | backend/src/services/billing.service.js:239-247 | after a full refund the user has what was replaced, if it has time left and its charge stands, else Free |
| BillingUndo.RefundUndoesPurchase | backend/src/services/billing.service.js:30-52 | a purchase, any run, then a full refund while it is active: the entitlement is what it was without the purchase if and only if `CanBeUndone` |
| BillingUndo.ScheduleKeepsEntitlement | backend/src/controllers/subscription.controller.js:41-53 | cancelling or resuming changes nobody's entitlement at any time |
| BillingUndo.RefundEndsPlan | backend/src/services/billing.service.js:239-247 | a recorded full refund ends the plan if and only if the snapshot named the subscription |
| BillingExamples.RefundedAndActive | backend/src/services/billing.service.js:228-247 | a reachable state with a fully refunded payment and its plan still active |
| BillingExamples.FirstPurchaseIsUndone | backend/src/services/billing.service.js:239-247 | a run in which a first purchase is refunded and the account is Free again |
| BillingExamples.GivenPlanIsLost | backend/src/services/billing.service.js:239-247 | a run in which a plan that nobody paid for is replaced and not given back |
| BillingRaces.RefundedElsewhere | backend/src/services/billing.service.js:228-238 | a run that ends with a payment refunded in full by a balance of another attempt |
| BillingRaces.SubmittedElsewhere | backend/src/services/billing.service.js:307-322 | a run in which the refund of a captured payment is asked of another attempt |
| BillingRaces.CaptureIsLost | backend/src/services/billing.service.js:169-194 | a run in which a refund notice overtakes the capture, after which the report of the capture changes nothing |
| BillingJoin.ReportIsJoined | backend/src/services/billing.service.js:169-191 | one more report, new or repeated, takes the row to the maximum of its status and the report's, and its charges to all captured ids |
| BillingJoin.SettlementIsAJoin | backend/src/services/billing.service.js:165-194 | after any run that returned nothing, the row is the highest status of the reports heard, and its charges are exactly the captured ones |
| BillingJoin.OrderDoesNotMatter | backend/src/services/billing.service.js:165-194 | two histories with the same reports agree, whatever their order and repetition |
| BillingJoin.ReportsToSettle | backend/src/services/billing.service.js:211-217 | the reports a poll settles have the same highest status and the same captured charges as all attempts |
| BillingMirror.CheckoutShowsPayment | backend/src/services/billing.service.js:105-192 | in every reachable state a checkout shows its payment's status as long as nothing was returned |
| BillingMirror.FailureCloses | backend/src/services/billing.service.js:105-108 | a checkout being created is closed by a definite refusal and stays open after a failure in doubt |
| BillingMirror.ReleaseCloses | backend/src/services/billing.service.js:149-159 | a released reservation is closed when it has no payment, and nothing changes when it has one |
| BillingMirror.SavedOrderIs | backend/src/services/billing.service.js:109-112 | a saved order gets a new payment of what was ordered, dated now, unless it has one |
| BillingMirror.ReportIsTaken | backend/src/services/billing.service.js:165-188 | what a matching report writes: status, charge and review mark of an unsettled and of a settled row |
| BillingService.BillingService.LatestPurchase | backend/src/services/billing.service.js:71-72 | finds the newest fulfilled purchase: exactly that expected id is accepted |
| BillingService.BillingService.NewestPayment | backend/src/services/billing.service.js:33-35 | finds the newest payment of a subscription |
| BillingService.BillingService.Activate | backend/src/services/billing.service.js:30-52 | performs the grant: period, replacement, redemption, link |
| BillingService.BillingService.DecideReservation | backend/src/services/billing.service.js:65-96 | the checks of a new order in their order, with their refusals |
| BillingService.BillingService.PriceCheckout | backend/src/services/billing.service.js:80-97 | plan, coupon, coupon places and amount of a new order |
| BillingService.BillingService.CheckCode | backend/src/services/billing.service.js:19-28 | the checks of a typed coupon code in their order, with their refusals |
| BillingService.BillingService.ReserveCheckout | backend/src/services/billing.service.js:64-99 | adds the checkout row when the reservation is granted, and only then, keeping the invariant |
| BillingService.BillingService.MarkOrderFailed | backend/src/services/billing.service.js:105-108 | an order request that was turned down closes a checkout that is being created, one in doubt keeps it open, and any other checkout stays |
| BillingService.BillingService.SaveCreatedOrder | backend/src/services/billing.service.js:109-113 | saves the order, grants a free one, keeps the invariant |
| BillingService.BillingService.RecoverPayment | backend/src/services/billing.service.js:118-131 | recreates the payment row of a provider order, or refuses one whose checkout, amount or currency is another |
| BillingService.BillingService.RecoverFreeCheckout | backend/src/services/billing.service.js:136-145 | recovers a free checkout |
| BillingService.BillingService.ReleaseReservation | backend/src/services/billing.service.js:149-159 | gives up a reservation unless a payment arrived first, and says which |
| BillingService.BillingService.SettlePayment | backend/src/services/billing.service.js:165-194 | settles a report, refusing exactly those with another amount or currency |
| BillingService.BillingService.CheckListed | backend/src/services/billing.service.js:229-232 | the list is accepted if and only if the expected refund is in it and its sum is within the charge and safe |
| BillingService.BillingService.ReconcileRefundBalance | backend/src/services/billing.service.js:228-250 | records the balance of an accepted list and changes nothing otherwise |
| BillingService.BillingService.SaveRefundResult | backend/src/services/billing.service.js:252-268 | a refund recorded as PROCESSED is covered by the recorded balance |
| BillingService.BillingService.RequestRefund | backend/src/services/billing.service.js:270-286 | the input and configuration checks, then the one refund record of a payment when the policy allows it |
| BillingService.BillingService.BeginSubmission | backend/src/services/billing.service.js:299-307 | what goes out carries the key and amount of the record and the charge of the reading, and only without a provider reference |
| BillingService.BillingService.SubmissionFailed | backend/src/services/billing.service.js:308-311 | a running request that was turned down has failed, one in doubt stays unresolved with its key, and any other record stays |
| BillingService.BillingService.ProcessExpired | backend/worker/index.js:517-565 | one row of the scan: grace period or expiry |
| BillingService.BillingService.ProcessDunning | backend/worker/index.js:495-565 | the whole loop: ended plans are past due for three days, then expired; nobody whose plan lapsed is left without one; other rows stay |
| BillingService.BillingService.ChangeSchedule | backend/src/controllers/subscription.controller.js:41-53 | cancel and resume under the user lock |
| BillingService.ScheduledExactly | backend/src/controllers/subscription.controller.js:41-53 | a plan in force is cancelled or resumed if and only if no refund is pending, it is not free and, to be cancelled, has an end; only its row says so |
| BillingService.ResumeUndoesCancel | backend/src/controllers/subscription.controller.js:41-53 | resuming a cancelled plan gives back the tables as they were |
| BillingService.BillingService.GetActiveSubscription | backend/src/services/planLimitService.js:57-86 | answers the entitlement |
| Gateway.Request | backend/src/services/billingGateway.js:7-29 | a request is refused without configuration, taken as rejected only on a definite refusal, as answered only on a successful answer with a body, and carries the wait that Retry-After asks for |
| Gateway.FetchProcessedRefunds | backend/src/services/billingGateway.js:42-51 | the paged list is the processed part of the whole history, or none; with every page answered it succeeds exactly under 10000 items |
| Gateway.PagedSum | backend/src/services/billingGateway.js:42-51 | the sum of that list is the sum over the whole history |
| Recovery.DelayGrows | backend/src/services/billingRecovery.js:36-38 | without Retry-After, more failures up to 12 wait strictly longer for every pair of jitter draws |
| Recovery.DelayBounded | backend/src/services/billingRecovery.js:36-38 | an error delay is positive and at most 24 hours |
| Recovery.RunJob | backend/src/services/billingRecovery.js:51-74 | a dropped job called for nothing at one of the moments the worker looked, its event being marked processed by then; one that calls for nothing is dropped, payments excepted; delays and review flag otherwise |
| Recovery.RecoveryQueue.Seed | backend/src/services/billingRecovery.js:7-21 | afterwards exactly the old rows and those of the resources that call for work are there, the old ones unchanged |
| Recovery.RecoveryQueue.Claim | backend/src/services/billingRecovery.js:23-34 | leases the claimable row that has been due the longest, the first by id among equals, or finds none claimable |
| Recovery.RecoveryQueue.Finish | backend/src/services/billingRecovery.js:40-49 | writes the row only under its own token; what it writes is in RecoveryDelays |
| Recovery.RecoveryQueue.RetryNow | backend/src/controllers/billingRecovery.controller.js:16-24 | an administrator's retry changes only rows that are not held |
| RecoveryRuns.OnlyTheLatestWrites | backend/src/services/billingRecovery.js:40-49 | a finish changes the table only if its worker made the latest claim on that row |
| RecoveryRuns.HoldersOverlapOnlyAfterExpiry | backend/src/services/billingRecovery.js:23-34 | two unfinished claims on one row overlap only after the earlier lease expired |
| RecoveryRuns.NoWorkIsLost | backend/src/services/billingRecovery.js:7-74 | a row whose resource goes on calling for work stays in every run if and only if its worker has not decided before to drop it; that happens to refunds alone |
| RecoveryRuns.ResolvedIsRight | backend/src/services/billingRecovery.js:51-74 | a worker decides to drop a job only at a moment its resource calls for nothing |
| RecoveryRuns.RowGoes | backend/src/services/billingRecovery.js:40-49 | a row leaves the table exactly when the worker that holds it writes that decision |
| RecoveryRuns.SeedFindsAll | backend/src/services/billingRecovery.js:7-21 | the next seed statement gives every resource that calls for work a row |
| RecoveryRuns.StaleDecision | backend/src/services/billingRecovery.js:58-62 | a run in which a pending refund is about to lose its row |
| RecoveryRuns.EveryJobComesBack | backend/src/services/billingRecovery.js:36-49 | every surviving row is claimable again within 24 hours |
| RecoveryDelays.ErrorFinish | backend/src/services/billingRecovery.js:40-49 | a failure adds one, lets the row go, asks for a review from the eighth on, and waits 15 seconds doubled once a failure up to the twelfth, give or take a fifth, or what the provider asks for, at most a day |
| RecoveryDelays.StartingOver | backend/src/services/billingRecovery.js:40-49 | a finish without an error counts nothing and comes back when the worker said; an administrator's retry is due at once |
| RecoveryDelays.FailuresAdd | backend/src/services/billingRecovery.js:40-49 | over every run: n failures and nothing else leave n more, and the review flag exactly from eight on |
| RecoveryDelays.WaitsGrow | backend/src/services/billingRecovery.js:36-47 | over every run: of two failures in a row the second waits strictly longer, up to the twelfth, whatever the draws |
| RecoveryDelays.ReturnDecides | backend/src/services/billingRecovery.js:51-69 | what is decided when a call returns: a minute for an unsettled refund, five minutes or a day for a checkout or payment, and when a review is asked for |
| RecoveryDelays.ThrowDecides | backend/src/services/billingRecovery.js:70-72 | a call that throws asks to be tried again after the wait its error carries, and writes nothing yet |
| RecoveryDelays.ClaimHolds | backend/src/services/billingRecovery.js:26-33 | nobody can take a claimed row for five minutes |
| TokenRefresh.AuthClient.ProcessQueue | frontend/src/services/urlApi.js:65-76 | the loop settles the matching waiters and keeps the others, in order |
| TokenRefresh.AuthClient.ResetAuthSession | frontend/src/services/urlApi.js:26-31 | a session change |
| TokenRefresh.AuthClient.Send | frontend/src/services/urlApi.js:52-60 | a request goes out only in its own session |
| TokenRefresh.AuthClient.SendReplay | frontend/src/services/urlApi.js:52-60 | a replay goes out in its own session or is dropped |
| TokenRefresh.AuthClient.OnUnauthorized | frontend/src/services/urlApi.js:83-111 | a 401 is declined, parked or starts the refresh |
| TokenRefresh.AuthClient.CompleteRefresh | frontend/src/services/urlApi.js:113-135 | the end of a refresh: token, waiters, their replays and that of the request that started it |
| TokenRefresh.OneRefreshPerSession | frontend/src/services/urlApi.js:99-135 | at any time a session has at most one refresh running |
| TokenRefresh.EveryWaiterSettledOnce | frontend/src/services/urlApi.js:65-135 | every parked request waits or was settled, exactly once, and waits only while a refresh of its own, current session runs |
| TokenRefresh.RefreshServesAll | frontend/src/services/urlApi.js:113-135 | over every run: a refresh of the current session that brings a token gives it to every waiter in order, replays each of them and its own request once with it, and makes it the browser's |
| TokenRefresh.FailedRefreshDeniesAll | frontend/src/services/urlApi.js:129-135 | one that brings none denies every waiter, clears the token and replays nothing |
| TokenRefresh.SessionBeginsClean | frontend/src/services/urlApi.js:26-31 | a new session begins with its own token, denies whoever waited and may refresh at once |
| TokenRefresh.UnauthorizedWaitsOrRefreshes | frontend/src/services/urlApi.js:90-111 | a first 401 of the current session waits for its running refresh or starts one, and any other changes nothing |
| TokenRefresh.ReplayGoesOutOnce | frontend/src/services/urlApi.js:52-60 | a replay goes out with the token of the moment in its own session and nowhere in another, and is used up |
| TokenRefresh.StaleRefreshTouchesNobody | frontend/src/services/urlApi.js:113-135 | a refresh of an earlier session changes no token, flag or waiter and replays nothing |
| TokenRefresh.TokensStayInSession | frontend/src/services/urlApi.js:113-135 | a waiter is given only a token of its own session, by a refresh of that session |
| TokenRefresh.RequestsStayInSession | frontend/src/services/urlApi.js:52-135 | over every run: whatever goes out, first time or again, belongs to the session it goes out in, carries only a token taken in it, and was replayed only by a refresh of it |
| LocationCache.ByRecencyIsOrdered | backend/src/utils/location.js:29-46 | the reference order lists each key once, by last use |
| LocationCache.LeastRecentGoes | backend/src/utils/location.js:42-44 | dropping the oldest key of the bounded cache is cutting the unbounded order |
| LocationCache.LocationResolver.Resolve | backend/src/utils/location.js:31-45 | the public address is what the cache is asked for, and it holds the last maxEntries distinct ones by use; the database is asked exactly when the address is not among them or its latest lookup is older than its lifetime, five minutes for misses |
| IpAddress.NormalizeIsIdempotent | backend/src/utils/location.js:4-13 | a normalized address is its own normal form if and only if the input did not begin with two mapped prefixes |
| IpAddress.PrefixedTwice | backend/src/utils/location.js:4-13 | an address with two mapped prefixes keeps one |
| IpAddress.MappedOctets | backend/src/utils/location.js:7-11 | a mapped address of two hexadecimal groups becomes the dotted form of the 32-bit number they write |
| IpAddress.IsPublicV4 | backend/src/utils/location.js:19-24 | the octet test is membership in none of twelve address blocks |
| IpAddress.DottedIsPublic | backend/src/utils/location.js:15-25 | a dotted address is public exactly when its number is in no reserved block |
| IpAddress.MappedIsPublic | backend/src/utils/location.js:4-33 | an address mapped in hexadecimal is judged by the IPv4 address it stands for |
| EnvFile.ReadEnvFile | infrastructure/scripts/settings.py:11-36 | the loop reads the settings of the lines that are neither blank nor comments |
| EnvFile.Merge | infrastructure/scripts/update-integrations.py:18-68 | accepts exactly the checked patches and files, and prints retained lines followed by the patch |
| EnvPlain.PlainReads | infrastructure/scripts/settings.py:17-32 | a value that needs no quotes is read as it stands, with or without a comment after it |
| EnvPlain.CommentForValue | infrastructure/scripts/settings.py:20-30 | where there is no value, the comment is read as one |
| EnvRoundTrip.SameKey | infrastructure/scripts/settings.py:17-22 | both programs find the same key in a line they both accept |
| EnvRoundTrip.QuotedReads | infrastructure/scripts/update-integrations.py:66-68 | a printed setting is read as it was given |
| EnvRoundTrip.RetainedIsKept | infrastructure/scripts/update-integrations.py:42-56 | the retained lines are the original ones without the replaced settings |
| EnvRoundTrip.MergeRoundTrips | infrastructure/scripts/update-integrations.py:18-68 | reading the merged file gives the original settings overridden by the patch if and only if no patched value contains a line separator |
| EnvProduction.SameValue | infrastructure/scripts/settings.py:17-30 | behind the same key both programs find the same value |
| EnvProduction.MergedIsProduction | infrastructure/scripts/update-integrations.py:18-68 | the updated file reads as the production file of its domain, on test payments and with mail, and nothing but the integrations has changed |
| Redirects.RedirectService.GetOriginalUrl | backend/src/services/url.service.js:64-97 | a visit, from the cache or the table |
| Redirects.RedirectService.InsertWithUniqueCode | backend/src/utils/generateShortCode.js:17-25 | the first free generated code is taken, or none is free |
| Redirects.RedirectService.UpdateShortUrl | backend/src/services/url.service.js:124-227 | the checks in order, the renamed row with all its columns, and the dropped old entry |
| Redirects.RedirectService.DeactivateShortUrl | backend/src/services/url.service.js:229-239 | deactivation and the dropped entry |
| Redirects.UpdateAgrees | backend/src/services/url.service.js:207-224 | dropping the entry of the old code is enough, also for a rename |
| Redirects.CacheIsInvisible | backend/src/services/cache.service.js:9-121 | for every history, visits answer the same target, password hash or status with the cache as without |
| Redirects.VisitTells | backend/src/services/url.service.js:64-97 | after every history, with the cache: a visit answers the URL and password last written under the code exactly when that link was not renamed or deactivated since and has not expired; 404 exactly when every link of the code was renamed away; else 410 |
| Redirects.UpdateWrites | backend/src/services/url.service.js:124-224 | an accepted update writes the requested columns, moves the link to its new code and leaves every other code alone; a refused one writes nothing |
| Redirects.UpdateStatusIsTrue | backend/src/services/url.service.js:124-204 | the status of an update is 200 exactly when it is carried out, and otherwise says what stood in its way |
| Redirects.VisitIsRemembered | backend/src/services/url.service.js:83-96 | after a visit that answered, the next is answered without the table until the entry runs out |
| Clicks.ClickWorker.ProcessClickEvent | backend/worker/index.js:225-327 | after every click, late or not, both rollups equal a recount of the raw clicks |
| Clicks.DailyIsSumOfHourly | backend/worker/index.js:256-327 | a daily row is the sum of its 24 hourly rows, and human plus bot clicks are the raw clicks of the day |
| Clicks.FillTimeBuckets | backend/src/utils/analyticsWindow.js:8-19 | the loop gives each bucket of the window once, ascending without gaps, with the three columns of its last row |
| Clicks.SeriesSumsToWindow | backend/src/services/analytics.service.js:49-60 | the filled series sums to the raw clicks of its window, and its bots to those of bots |
| Clicks.SeriesIsShort | backend/src/utils/analyticsWindow.js:1-6 | at most 25 hours, 8 days or 31 days are drawn |
| Clicks.WindowHolds | backend/src/utils/analyticsWindow.js:1-6 | a click is in the window exactly when it is not older than 24 hours, 7 or 30 days, not from before the plan's cutoff and not from the future |

## Left out

- Administrator overrides of subscriptions, invoices and coupon limits: they write outside the user lock, and the invariants are not claimed for them.
- Legacy payments without a checkout: no step of BillingWorld creates one; they only get a recovery job.
- `verifyBillingPayment`, `syncBillingCheckout`, `syncBillingPayment`, `syncBillingRefund` and `processBillingWebhook` as whole functions: each chooses which of the modelled transactions run, and BillingWorld runs them in every order. What `processBillingWebhook` writes besides, the `processed` column of its event, is in Recovery.
- BillingWorld: the expiry step may run without the three-day guard, which is more than the scan does; the guard itself is in `BillingService.BillingService.ProcessExpired`.
- BillingService.BillingService.SaveRefundResult: states the sequence without other requests in between, and that the provider lists a refund with the amount it reports for it; the interleaved form is in BillingWorld.
- Recovery.RunJob: the calls into the billing service are an answer; only what they leave in the event or the refund is read.
- RecoveryRuns: that events are kept and stay processed, that ids of checkouts and payments are not used twice, and that each has its user is assumed of everybody else; the keys of the schema and the absence of other writers are the reason.
- A coupon is read twice in `createBillingOrder`, before and under its lock; the model reads it once, under the lock.
- The administrator's entitlement bypass and the five-minute cache in front of `getActiveSubscription`.
- Currency conversion, floating-point rounding of prices beyond safe integers, and the quirk of `Date.UTC` for the years 0 to 99.
- Gateway.Request: the parsing of the Retry-After text; it is given as seconds, a date or neither.
- IpAddress: letters outside ASCII keep their case, IPv6 addresses are public by the prefix test of the code and nothing is proved of it, and Node's `isIP` is a parameter.
- LocationCache.LocationResolver.Resolve: the shape of a location is not modelled, only which lookup it comes from.
- EnvFile: file encodings, `json.loads` and the test for a port number are parameters.
- Redirects: plan gating and hashing are arguments; hard deletes and an unavailable Redis are outside the cache theorem, as are operations that interleave inside one another.
- Clicks: the distinct visitors of a chart bucket are a column of the query, HyperLogLog uniqueness, user agents and locations; `date_trunc` is taken to cut in UTC.
- Signatures, sessions, team seats, plan gating, health checks, search and the user interface.
