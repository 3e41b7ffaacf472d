# Verified model of the settlement orchestrator

This project models the transactional core of the resilient settlement orchestrator, a Go service
that routes payments to payment service providers (PSPs), keeps their state and audit trail in
PostgreSQL, books captures and refunds in a double-entry ledger, and guards its API with circuit
breakers, a token-bucket rate limiter and an idempotency middleware. The proofs cover every input
and every run of the model.

## How it is organised

**One transaction at a time.** `Transactions` holds the tables (`Db`) and what each database
transaction does to them when it runs alone: `Decide` states its guards and the rows it writes,
`Exec` runs it, `Replay` runs a whole history in commit order on the seeded tables. `Effects`
spells out exactly when each one commits after a history, and what it leaves. The eight
transactions are the insert and the closing update of `CreatePayment`, the update of
`CancelPayment`, capture and refund through the API, the three webhook handlers, and the generic
ledger posting. `AuditTrail`, `BookKeeping`, `Refunds`, `WebhookRefunds`, `CaptureLedger` and
`CappedRequests` prove what holds after every serial history. `Ledger`, `Balances` and
`LedgerBounds` are the posting rules and their int64 arithmetic (`Int64`).

**Many requests at once.** `Sessions` is a transition system: any number of requests execute the
statements of their Go function one after the other, interleaved in any way, under READ COMMITTED
with row locks held to the end of the transaction. A request may get any answer from its PSP, may
roll back at any statement and may vanish at any time. `Isolation` and `Serialisability` prove
that the committed tables always equal `Replay` of the committed transactions in commit order, so
`Guarantees` carries every serial result over to every reachable state. `Deadlock`, `Progress` and
`WaitCircles`, `CircleRuns` and `PostingDeadlock` treat waiting; `Deliveries` and `Matching` the way
of a webhook to its payment, `CreateRace` and `Answers` that of a PSP's answer; `EventAliases` the deliveries that escape the duplicate check and
`RepeatedHooks` what they can do. `Driving`, `SetUp` and `Completion` construct runs.

**The Go functions as methods.** `Services`, `PaymentCreation`, `CircuitBreaker`, `Router`,
`RateLimiter`, `Retry` and the key parser in `CachedResponse` are imperative: classes whose
methods update fields as the Go code does. The database methods are proved to leave exactly what
`Exec` says; the breaker and the limiter keep a ghost history of their calls and are what a function makes of it,
and the whole-run results are proved about that function; the retry loop is tied to a predicate
that leaves one result only. `Idempotency` is a transition system over one Redis key.

Order in the log, the journal and the history is commit order. The timestamps in `created_at` are
not modelled, because the code reads the clock before it waits for a lock.

## Where the code and its documents differ

The model follows the code.

- README.md:110-124 draws the states voided, settled and dispute. The code has none of them: a
  cancelled payment is `cancelled`, and captured payments only move on to refunds.
- docs/architecture.md:17 speaks of a state Processing. Its closest relative, `pending`, is in the
  transition table but is never entered (`CreateRace.PendingIsUnreachable`).
- docs/architecture.md:28 and 42 say that all money movements are recorded in the ledger. A capture
  through the API books nothing, and the capture webhook that follows finds the payment captured
  and books nothing either. `CaptureLedger.BookedIffByWebhook` states exactly which captures are
  in the ledger, `CaptureLedger.ApiCaptureLeavesGap` shows that the gap is always reachable. The
  document names the ledger service as the writer; its `PostLedgerTransaction` has no caller in
  the repository, the webhook handlers post for themselves.
- The comment "expense increases" (internal/service/webhook.go:378) is at odds with the posting
  rule: a credit lowers an expense account (`BookKeeping.WebhookBalancesExact`).
- Refund webhooks neither read nor write `total_refunded`, so the over-refund protection covers API
  refunds only. After every history a refund webhook commits whenever its amount is positive and the
  payment is captured or partially refunded (`WebhookRefunds.RefundHookCommitsIff`), also when it
  exceeds what is left, which is exactly when the webhook refunds of a payment outgrow its amount
  (`WebhookRefunds.OverRefundIff`, `WebhookRefunds.WithinAmountIff`).
- The comments at internal/service/webhook.go:49 and 89 promise that a processed event is not
  processed again. The key holds the event type as received (internal/service/webhook.go:87), and
  each event that is processed has two types (lines 135 to 140), so one body under both is two
  events. Whatever is committed in between, the second one has an effect exactly when it is a refund
  and the payment is partially refunded by then (`RepeatedHooks.RepeatIff`), so of all webhook
  transactions only partial refunds are ever committed twice (`RepeatedHooks.CommittedTwice`); a run
  that does so is `EventAliases.OneBodyRefundedTwice`. At most once holds per key
  (`Deliveries.AtMostOncePerKey`), and which deliveries share one is `EventAliases.SameKeyIff`.
- A refund through the API is not booked either, and the PSP's webhook about it is refused or is one
  more refund (`WebhookRefunds.ApiRefundLeavesGap`).
- The debit = credit test adds up in int64, so without a cap on the amounts an unbalanced posting
  can pass it (`LedgerBounds.ValidationFooled`); with the handlers' cap it is exact.
- PostLedgerTransaction locks accounts in the order of its caller's entries
  (internal/service/ledger.go:90-101). Which mixes of postings and webhooks can deadlock, in circles
  of any length, is `CircleRuns.DeadlockIffCircular`; that nothing else does is
  `WaitCircles.EveryCircleIsCircular`.
- The middleware replays a cached response "with the original status code"
  (internal/middleware/idempotency.go:90) until it expires, unless a handler whose own claim has
  expired is still running: it replaces or deletes the cached response when it ends. Exactly when
  the response lasts is `Idempotency.CacheLastsIff`.

## Model

| member | source | states |
|---|---|---|
| PaymentStates.ValidateTransition | internal/service/statemachine.go:20-33 | the "terminal state" error is returned exactly for the statuses IsTerminal names, and created is never a target; which changes pass is LegalChanges |
| PaymentStates.LegalChanges | internal/service/statemachine.go:11-17 | exactly the thirteen listed changes pass, and exactly failed, cancelled and refunded are terminal |
| PaymentStates.StepLowersRank | internal/service/statemachine.go:11-17 | the transition table is acyclic apart from the partially_refunded self-loop |
| PaymentStates.EnteredOnce | internal/models/payment.go:31-37 | along any legal audit trail a terminal status is last and no status but partially_refunded is entered twice |
| PaymentStates.TrailLength | internal/service/statemachine.go:11-17 | without partial refunds an audit trail has at most six rows less the steps still open |
| Effects.InsertCommitsIff | internal/service/payment.go:68-98 | a payment is inserted exactly under a new id with an amount that is not negative, as created, without reference or refund, and its first log row |
| Effects.MoveCommitsIff | internal/service/payment.go:200-246 | after every history the updates of CreatePayment and CancelPayment commit exactly when the payment has the status they expect; the row takes the new status and a reference that is not empty, nothing else changes |
| Effects.ApiCaptureCommitsIff | internal/service/payment.go:264-310 | after every history an API capture commits exactly for an authorized payment with a PSP reference; the row is captured and nothing else changes |
| Effects.ApiRefundCommitsIff | internal/service/payment.go:337-399 | after every history an API refund commits exactly for a captured or partially refunded payment with a PSP reference whose total stays between 0 and the amount; the row takes that total, is refunded exactly when nothing remains, and nothing else changes |
| Effects.CaptureHookCommitsIff | internal/service/webhook.go:172-263 | after every history a capture webhook commits exactly for a pending or authorized payment of a positive amount, which becomes captured and is booked as a debit of PSP_SETTLEMENT and a credit of MERCHANT_PAY; it has nothing to do exactly for a captured one |
| Effects.FailureHookCommitsIff | internal/service/webhook.go:265-307 | after every history a failure webhook commits exactly for a created, pending or authorized payment, which becomes failed; it has nothing to do exactly for a failed, cancelled or refunded one |
| Effects.RefundHookLeaves | internal/service/webhook.go:309-385 | when a refund webhook commits, the payment is partially refunded exactly if it was smaller than the amount, refunded otherwise, and its own amount is booked as a debit of MERCHANT_PAY and a credit of REFUND_EXP; it always has something to do |
| Effects.PostLedgerCommitsIff | internal/service/ledger.go:42-145 | a generic posting commits exactly with two lines or more, each a debit or a credit of an existing account, totals that agree modulo 2^64, and a payment that exists if it names one; no payment changes |
| Effects.AbsentIsRefused | internal/service/payment.go:337-348 | nothing but an insert or a posting without a payment commits for a payment that does not exist |
| Effects.BalanceByKind | internal/service/ledger.go:109-119 | after every history an asset or expense account carries its debits less its credits, a liability or revenue account its credits less its debits, as int64 |
| Effects.ChartOfAccounts | migrations/000002_create_ledger.up.sql:54-65 | after every history the accounts are exactly the nine of the migration, with the types it gives them |
| AuditTrail.WritersFollowTable | internal/service/payment.go:272-310 | every writer of a payment, also those that never call ValidateTransition, logs the change it makes, stays within the transition table and keeps amount, PSP and reference |
| AuditTrail.EveryTrailIsLegal | internal/service/payment.go:84-98 | in every history each payment's transition log starts "" to created, each row continues the one before by a legal change, and the last one is the payment's status |
| AuditTrail.TerminalIsFinal | internal/models/payment.go:30-37 | no committed transaction changes a failed, cancelled or refunded payment or its log |
| AuditTrail.CapturedInLedgerOnce | internal/service/webhook.go:192-256 | whatever mix of API captures and capture webhooks commits, a payment gets at most one payment_capture ledger transaction besides the generic postings that carry this header, and none before it is captured |
| CaptureLedger.EnteredAtMostOnce | internal/service/statemachine.go:11-17 | an audit trail enters captured at most once, exactly once if at all |
| CaptureLedger.BookedIffByWebhook | docs/architecture.md:28-28 | the documented promise that every movement is booked, corrected: a captured payment was captured by exactly one committed transaction, and besides generic postings with the same header the ledger holds its capture exactly when that was the webhook's |
| CaptureLedger.ApiCaptureLeavesGap | internal/service/payment.go:287-310 | any authorized payment with a PSP reference can be captured through the API with the ledger unchanged, and the webhook that follows then has nothing to do |
| Refunds.RefundsStayWithinAmount | internal/service/payment.go:347-385 | with validated amounts total_refunded is always the sum of the committed API refunds and between 0 and the amount; reaching the amount means refunded, and without refund webhooks the converse holds and partially_refunded means strictly between |
| Refunds.RefundCapNeverFires | migrations/000006_add_total_refunded.up.sql:6-7 | in every such history a transaction is refused exactly when its own guards fail, so the database constraint on total_refunded never rejects a row |
| Refunds.AtMostAmountRefunds | internal/service/payment.go:352-357 | at most `amount` API refunds of a payment commit, and none larger than what remains |
| Refunds.WritersDescend | internal/service/payment.go:370-375 | every committed change lowers (status rank, amount - total_refunded) lexicographically, except exactly a partial refund webhook on a partially refunded payment |
| Refunds.ApiRunsTerminate | internal/service/payment.go:322-409 | without refund webhooks at most amount + 3 changes of a payment ever commit, in whatever order requests come |
| AuditTrail.ReplayKeepsCap | migrations/000006_add_total_refunded.up.sql:6-7 | in every history every payment row satisfies the constraint on total_refunded |
| WebhookRefunds.RefundHookCommitsIff | internal/service/webhook.go:320-347 | after every history a refund webhook commits exactly when its amount is positive and the payment is captured or partially refunded, whatever was refunded before |
| WebhookRefunds.OverRefundIff | internal/service/webhook.go:340-349 | the next refund webhook commits and takes the payment's webhook refunds over its amount exactly when it is positive, the payment is refundable and it exceeds what the webhooks before have left |
| WebhookRefunds.WithinAmountIff | internal/service/webhook.go:333-349 | over a whole history the webhook refunds of a payment stay within its amount exactly when each was within what was left |
| WebhookRefunds.RefundsAreBooked | internal/service/webhook.go:362-382 | the refund transactions booked for a payment add up to its committed refund webhooks, also beyond its amount, plus what generic postings with the same header book |
| WebhookRefunds.ApiRefundLeavesGap | internal/service/payment.go:370-399 | an API refund commits with the ledger unchanged; a refund webhook that follows commits exactly when its amount is positive and the API refund was not the last |
| WebhookRefunds.WebhookRefundsRepeat | internal/service/webhook.go:333-349 | a partially refunded payment takes any sequence of partial refund webhooks, each logged and counted, its row staying as it is |
| WebhookRefunds.OneWebhookRefundsAnything | internal/service/webhook.go:340-343 | a captured payment takes a single webhook of any amount from its own up, which is booked in full |
| WebhookRefunds.PartiallyRefundedExample | internal/service/payment.go:322-409 | a concrete history reaches a payment of 100 of which 1 is refunded |
| Ledger.PostingShape | internal/service/ledger.go:90-140 | a posting writes one entry per line, in order and with the line's amounts, on accounts that exist, and changes no account's type |
| Ledger.PostingFrame | internal/service/ledger.go:96-129 | a posting neither reads nor writes an account it does not name |
| Balances.PostingKeepsReconciled | internal/service/ledger.go:109-136 | posting keeps every current balance equal to the type-signed sum of its account's entries and every running balance to the prefix sum |
| Balances.SumNetIsImbalance | internal/service/ledger.go:109-119 | over the whole chart of accounts the entries add up to debits minus credits |
| BookKeeping.LedgerReconciles | internal/service/webhook.go:389-421 | in every history each running balance is the type-signed prefix sum of its account, each current balance the whole sum, and debits match credits in int64 |
| BookKeeping.AccountingEquation | internal/service/ledger.go:49-64 | in every history assets plus expenses equal liabilities plus revenue modulo 2^64, over arbitrary postings |
| BookKeeping.LedgerIsExact | internal/service/ledger.go:109-136 | while every booked amount is at most 999,999,999,999 and at most 9,223,372 entries exist nothing has wrapped: stored and running balances are the exact sums and the accounting equation is exact |
| CappedRequests.BookIsCapped | internal/handler/payment.go:44-49 | when no validated payment and no reported refund or posted line exceeds the cap, no payment and no booked entry does |
| CappedRequests.CappedLedgerIsExact | internal/handler/payment.go:44-49 | with requests capped in this way and at most 9,223,372 entries, stored and running balances are the exact sums and the accounting equation is exact |
| BookKeeping.WebhookBalances | internal/service/webhook.go:241-251 | while only webhooks post, PSP_SETTLEMENT is the total C of posted captures, MERCHANT_PAY is C minus the total R of posted refunds, REFUND_EXP is minus R, all other accounts are 0, as int64 |
| BookKeeping.WebhookBalancesExact | internal/service/webhook.go:372-382 | below the caps the same three balances are exact integers, and REFUND_EXP is never positive |
| LedgerBounds.BalancesExact | internal/service/webhook.go:402-408 | up to 9,223,372 entries of at most 999,999,999,999 the int64 balances are the mathematical sums |
| LedgerBounds.ValidationMeaning | internal/service/ledger.go:49-64 | what validation accepts: at least two clean lines whose debits and credits agree modulo 2^64 |
| LedgerBounds.ValidationExact | internal/service/ledger.go:49-64 | for capped amounts it accepts exactly the balanced postings |
| LedgerBounds.ValidationFooled | internal/service/ledger.go:62-64 | without the cap some unbalanced posting passes validation and the table constraint |
| LedgerBounds.ValidationExactIff | internal/service/ledger.go:49-64 | for int64 amounts up to a cap and at most n lines, validation accepts only balanced postings exactly when n times the cap is below 2^64 |
| LedgerBounds.OneEntryTooMany | internal/service/ledger.go:109-119 | 9,223,373 debits of 999,999,999,999 turn the balance of an asset account negative, so the bound on the entries is sharp |
| Services.Database.constructor | migrations/000002_create_ledger.up.sql:54-65 | the tables start as the seeded chart of accounts and nothing else |
| Services.Database.InsertCreated | internal/service/payment.go:68-98 | the first transaction of CreatePayment leaves exactly the serial step, and nothing when it fails |
| Services.Database.UpdatePaymentState | internal/service/payment.go:200-246 | the optimistic update leaves exactly the serial step, and reports a stale status exactly when the change is legal and the row is gone or has another status |
| Services.Database.CapturePayment | internal/service/payment.go:250-318 | leaves exactly the serial step if the PSP agrees and nothing otherwise; which error is returned when |
| Services.Database.RefundPayment | internal/service/payment.go:322-409 | leaves exactly the serial step if the PSP agrees and nothing otherwise; the over-refund error exactly for a refundable payment asked for more than remains |
| Services.Database.CancelPayment | internal/service/payment.go:412-442 | leaves exactly the serial step if the PSP agrees and nothing otherwise; which error is returned when |
| Services.Database.PostEntryInTx | internal/service/webhook.go:389-421 | one account row and one entry row are written as the posting rule says, or the error is returned |
| Services.Database.PostAll | internal/service/ledger.go:80-140 | the loop writes one header and all entries as posting all lines in order does, or stops with the first error |
| Services.Database.PostLedgerTransaction | internal/service/ledger.go:32-148 | leaves exactly the serial step: everything on success, nothing after any failure |
| Services.ValidateEntries | internal/service/ledger.go:42-64 | accepts exactly the acceptable postings, with the error that belongs to each refusal |
| Services.Database.ProcessCaptureWebhook | internal/service/webhook.go:172-263 | leaves exactly the serial step, of which Effects.CaptureHookCommitsIff tells the condition and the effect; a captured payment is a success and stays, one that is neither pending nor authorized is an error and stays |
| Services.Database.ProcessFailureWebhook | internal/service/webhook.go:265-307 | leaves exactly the serial step: a created, pending or authorized payment becomes failed, one that has ended is a success and stays, a captured or partially refunded one is an error and stays |
| Services.Database.ProcessRefundWebhook | internal/service/webhook.go:309-385 | leaves exactly the serial step, nothing after any failure; the amount error exactly for an amount that is not positive, success only for a captured or partially refunded payment, with the status it takes |
| Services.Database.ProcessEvent | internal/service/webhook.go:132-143 | by the six event types as received, two of them each run the capture, failure or refund transaction on the matched payment; without one a capture is an error, a failure or refund nothing; any other type does nothing |
| Services.Database.IngestWebhook | internal/service/webhook.go:54-161 | unverified deliveries, those with a recorded key and those the database refuses change nothing; any other is recorded under its key with a payment of the same PSP and reference, if there is one, does what ProcessEvent states by its event type, and is marked processed exactly when that succeeds |
| PaymentCreation.CreatePayment | internal/service/payment.go:40-154 | a routed call inserts its payment and runs the retry loop of three attempts; when the PSP has answered, the payment is authorized under the id it gave and the selected breaker records one success, otherwise the payment is failed and it records one failure; no other breaker learns anything and nothing else changes; an unroutable call changes nothing |
| Serialisability.PostingLocally | internal/service/ledger.go:90-140 | posting on locked accounts alone is posting on the whole chart of accounts |
| Serialisability.CommitIsSerial | internal/service/webhook.go:184-256 | the private rows of a transaction that reaches its commit are what running it alone at that moment would write |
| Serialisability.StepKeepsSound | internal/service/payment.go:264-267 | every step of every request keeps the invariant: locks match their holders, rows read under lock stay current, and the tables replay the history |
| Serialisability.EveryRunIsSerial | internal/service/webhook.go:389-421 | however requests interleave, fail or crash, the committed tables equal those of running the committed transactions one by one in commit order |
| Isolation.StepKeepsLocks | internal/service/payment.go:337-345 | in every step each lock has exactly one holder, the request whose transaction took it, until that transaction ends |
| Guarantees.HistoryIsHandled | internal/handler/payment.go:40-49 | only transactions with validated amounts, and only the two callers' status changes, are ever committed |
| Guarantees.AmountsAreValidated | internal/handler/payment.go:40-49 | in every run each inserted payment and each API refund committed has an amount from 1 to 999,999,999,999 |
| Guarantees.PaymentsAreSound | internal/service/payment.go:272-310 | in every reachable state of the concurrent service each audit trail is legal and each payment's refund fields add up |
| Guarantees.LedgerIsSound | internal/service/ledger.go:90-145 | in every reachable state the ledger reconciles and the accounting equation holds |
| Guarantees.WebhookLedgerIsSound | internal/service/webhook.go:195-248 | in every reachable state without generic postings the ledger shows exactly the webhooks' captures and refunds, at most one capture per payment |
| Guarantees.CapturesAreSound | internal/service/webhook.go:192-256 | in every reachable state, besides generic postings with the same header, at most one capture per payment is booked, and exactly those a webhook committed |
| Guarantees.RefundsAreBookedInRuns | internal/service/webhook.go:362-382 | in every reachable state the booked refunds of a payment are its committed refund webhooks plus what generic postings with the same header book |
| Guarantees.RepeatIffInRuns | internal/service/webhook.go:202-209 | in every reachable state a webhook transaction committed at any time before could commit once more exactly when it is a refund and the payment is partially refunded |
| Guarantees.CommittedTwiceInRuns | internal/service/webhook.go:340-347 | in every run only partial refunds are committed twice, under whatever keys they came |
| Guarantees.LedgerIsExactInRuns | internal/handler/payment.go:44-49 | in every reachable state with capped requests and at most 9,223,372 entries no balance has wrapped |
| Guarantees.PspCallsExclude | internal/service/payment.go:276-285 | no two requests are between their guards and their writes for one payment, where capture and refund ask the PSP, and meanwhile the committed row stays the one the guards have seen |
| Deadlock.WaitsClimb | internal/service/webhook.go:241-251 | along the wait-for edges the level of the wanted lock strictly rises: payment row, then the accounts in order |
| Deadlock.NoDeadlock | internal/service/webhook.go:195-248 | no reachable state has a cycle of waiting requests, as long as each generic posting lists its accounts in an order that extends PSP_SETTLEMENT, MERCHANT_PAY, REFUND_EXP |
| Deadlock.ApiAndHooksNeverDeadlock | internal/service/webhook.go:195-248 | API and webhook transactions cannot deadlock: no reachable state without generic postings in flight has a cycle of waiting requests |
| Deadlock.ApiOrHookSteps | internal/service/webhook.go:335-379 | in every such state with requests in flight one of them can execute its next statement |
| Deadlock.SomeRequestSteps | internal/service/webhook.go:335-379 | the same with generic postings that keep such an order: one of the requests in flight can execute its next statement |
| Progress.StatementsRunOut | internal/service/webhook.go:184-256 | every step of a request leaves it fewer statements, or ends it |
| Progress.CanAlwaysDrain | internal/service/payment.go:253-310 | from every reachable state whose generic postings keep such an order, executing next statements only, all requests in flight come to an end |
| Progress.ApiAndHooksDrain | internal/service/webhook.go:184-256 | from every reachable state without generic postings in flight, executing next statements only, all requests come to an end |
| Driving.RunTx | internal/service/webhook.go:184-256 | a request alone in the service runs a transaction whose guards pass and whose accounts exist to its commit, which has the effect of the serial step |
| Completion.ApiJobCompletes | internal/service/payment.go:412-442 | from every idle reachable state a capture, refund or cancellation that the serial step allows can be carried through by the request of the API, and has its effect |
| Completion.HookCompletes | internal/service/webhook.go:89-158 | from every idle reachable state a delivery with a new key that names a payment can have the effect its event type asks for whenever the serial step allows it, and is marked as processed |
| Completion.CreateCompletes | internal/service/payment.go:40-154 | from every idle reachable state a payment with a new id and an amount within the limits can be created, ending authorized under the id its PSP gives, or failed |
| Completion.FailureLeavesNothing | internal/service/payment.go:258-258 | a request may vanish at any statement, roll back or lose the acknowledgement of its commit; it frees its locks, and nothing but a commit changes the tables or the history |
| WaitCircles.EveryCircleIsCircular | internal/service/webhook.go:389-400 | in every reachable state a circle of waiting requests consists of generic postings and capture and refund webhooks, each wanting an account that the lines posted by the next have named, with no account named by two |
| CircleRuns.CircularCloses | internal/service/ledger.go:90-129 | any such mix of postings that pass validation and webhooks on possible amounts is driven into a circle of waiting requests by some run |
| CircleRuns.DeadlockIffCircular | internal/service/ledger.go:90-101 | a mix of postings and webhooks, of any number from two on, can deadlock in this order exactly when their lines are circular |
| PostingDeadlock.DeadlockIffCrossing | internal/service/ledger.go:90-101 | two generic postings that pass validation can reach a mutual wait exactly when each has a line whose account an earlier line of the other names, those earlier lines being postable and sharing no account |
| PostingDeadlock.OppositePostingsDeadlock | internal/service/ledger.go:90-101 | over any two seeded accounts, two balanced postings in opposite orders do deadlock in some run |
| PostingDeadlock.ThreePostingsDeadlock | internal/service/ledger.go:90-101 | over any three seeded accounts, three postings round the circle deadlock in some run although no two of them cross |
| PostingDeadlock.PostingAgainstCapture | internal/service/webhook.go:241-251 | a posting can deadlock with a capture webhook exactly when it names MERCHANT_PAY, and PSP_SETTLEMENT only after it |
| PostingDeadlock.PostingAgainstRefund | internal/service/webhook.go:372-382 | and with a refund webhook exactly when it names REFUND_EXP, and MERCHANT_PAY only after it |
| Deliveries.StepKeepsDeliveries | internal/service/webhook.go:86-130 | every step keeps: a request past its insert owns the event row of its key, and no key has two committed transactions |
| Deliveries.AtMostOncePerKey | migrations/000003_create_webhooks.up.sql:17-17 | however often and concurrently webhooks are delivered at most one transaction commits per idempotency key, for a recorded delivery and as its event asks |
| Deliveries.ProcessMeans | internal/service/webhook.go:132-143 | in the concurrent model too, the event type as received decides which transaction a recorded delivery runs on the payment it was matched to, and what is marked without one |
| Deliveries.HookIsMarked | internal/service/webhook.go:145-158 | in every run the event of a webhook whose transaction has ended can be marked next, as processed exactly when the commit was acknowledged or there was nothing to do |
| Matching.StepKeepsMatched | internal/service/webhook.go:106-110 | every step keeps: webhooks in flight and committed ones act on a payment that their delivery names, and no reference changes |
| Matching.CommitsActOnTheirPayment | internal/service/webhook.go:106-110 | in every run each transaction committed for a delivery is a webhook's, on a payment with the PSP and the reference of the delivery |
| Matching.ReferencesLast | internal/service/payment.go:213-224 | once a payment has a PSP reference it keeps it, and its PSP, in every continuation of the run, although two updates write it |
| EventAliases.SameKeyIff | internal/service/webhook.go:86-87 | for PSP names without a colon and digests of UUID length two deliveries share a key exactly when PSP, event type and digest agree |
| RepeatedHooks.RepeatIff | internal/service/webhook.go:202-209 | after every history a webhook transaction committed at any time before would commit once more, as it may under the other event type, exactly when it is a refund and the payment is now partially refunded |
| RepeatedHooks.CommittedTwice | internal/service/webhook.go:340-347 | only partial refunds occur twice in a history, whatever lies between |
| RepeatedHooks.SecondEffectIff | internal/service/webhook.go:202-209 | right after its own commit a webhook transaction would commit once more exactly when it is a partial refund |
| EventAliases.DeliverRefund | internal/service/webhook.go:89-160 | a refund with an unrecorded key for a refundable payment is processed by an idle service, with the effect of the serial step |
| EventAliases.AliasesBothCommit | internal/service/webhook.go:139-140 | from every idle state, one partial refund delivered under two keys commits twice |
| EventAliases.OneBodyRefundedTwice | internal/service/webhook.go:135-140 | for every payment and smaller refund some run commits one body twice, as refund.created and as refund.processed |
| CreateRace.StepKeepsRaceFree | internal/service/webhook.go:106-110 | every step keeps: a created payment has no PSP reference, and webhooks in flight hold payments that have left created |
| CreateRace.CreateNeverLosesTheRace | internal/service/payment.go:142-145 | in every reachable state the payment of a CreatePayment that awaits its PSP is still created, and its closing optimistic update succeeds |
| CreateRace.PendingIsUnreachable | internal/service/payment.go:213-224 | no payment is ever pending, and none that is still created has a PSP reference |
| Answers.AnswersAreRecorded | internal/service/payment.go:112-145 | in every run a committed closing update of CreatePayment records what the PSP has answered for this payment: authorized under the id it gave, failed only after an error |
| CircuitBreaker.Breaker.constructor | internal/pkg/circuitbreaker/circuitbreaker.go:45-51 | a new breaker is closed, with all counters 0 and the empty history |
| CircuitBreaker.Breaker.Allow | internal/pkg/circuitbreaker/circuitbreaker.go:54-78 | yes exactly unless the breaker is open and OpenTimeout has not passed since; an open breaker that says yes turns half-open with no success counted, any other stays; the state is what the history makes of it |
| CircuitBreaker.Breaker.RecordSuccess | internal/pkg/circuitbreaker/circuitbreaker.go:81-97 | no failure in a row is left and one more request is counted; the state is what the history makes of it |
| CircuitBreaker.Breaker.RecordFailure | internal/pkg/circuitbreaker/circuitbreaker.go:100-127 | one more failure in a row, no success in a row, one more request and failure in total; the state is what the history makes of it |
| CircuitBreaker.StateChanges | internal/pkg/circuitbreaker/circuitbreaker.go:54-127 | over every history, exactly which calls open the breaker, turn it half-open and close it, in terms of the counters, the thresholds and the clock, and when openedAt moves |
| CircuitBreaker.CounterChanges | internal/pkg/circuitbreaker/circuitbreaker.go:62-107 | over every history, what each call does to the failures and the successes in a row |
| CircuitBreaker.Counters | internal/pkg/circuitbreaker/circuitbreaker.go:104-126 | over every history consecutiveFails is the number of failures since the last success; closed means fewer than FailureThreshold of them, half-open fewer than SuccessThreshold successes |
| CircuitBreaker.OpensOnThreshold | internal/pkg/circuitbreaker/circuitbreaker.go:119-126 | a closed breaker opens exactly on the failure that completes FailureThreshold in a row |
| CircuitBreaker.SuffixIsLastAllFailed | internal/pkg/circuitbreaker/circuitbreaker.go:104-107 | the failure count is at least n exactly when the last n recorded outcomes are all failures |
| CircuitBreaker.HalfOpenRun | internal/pkg/circuitbreaker/circuitbreaker.go:62-69 | a half-open breaker was entered by a permitted probe of an open one, and consecutiveOK counts the outcomes since, all successes |
| CircuitBreaker.ClosesAfterSuccesses | internal/pkg/circuitbreaker/circuitbreaker.go:88-96 | closing takes SuccessThreshold uninterrupted successes while half-open |
| CircuitBreaker.LeavesHalfOpen | internal/pkg/circuitbreaker/circuitbreaker.go:88-118 | a half-open breaker closes exactly on the success that completes SuccessThreshold since the probe, and opens exactly on a failure, whose time becomes openedAt |
| CircuitBreaker.TurnsHalfOpen | internal/pkg/circuitbreaker/circuitbreaker.go:62-69 | the first request that comes OpenTimeout or more after an opening turns the breaker half-open with no success counted |
| CircuitBreaker.RefusedWhileOpen | internal/pkg/circuitbreaker/circuitbreaker.go:62-71 | every request asked less than OpenTimeout after an opening is refused, whatever is recorded meanwhile |
| CircuitBreaker.RefusalHasCause | internal/pkg/circuitbreaker/circuitbreaker.go:62-71 | a refusal is always explained by an opening failure less than OpenTimeout ago |
| CircuitBreaker.RefusedIff | internal/pkg/circuitbreaker/circuitbreaker.go:62-71 | while the clock does not run backwards a request is refused exactly when the breaker opened less than OpenTimeout before |
| Router.PaymentRouter.RegisterAdapter | internal/service/router.go:35-40 | a PSP gets a fresh closed breaker of its own, all others keep theirs |
| Router.PaymentRouter.RecordSuccess | internal/service/router.go:72-79 | the named PSP's breaker records a success and has no failure in a row left, no other breaker moves, an unknown PSP is ignored |
| Router.PaymentRouter.RecordFailure | internal/service/router.go:82-89 | the named PSP's breaker records a failure and has one more in a row, no other breaker moves, an unknown PSP is ignored |
| Router.PaymentRouter.IsAvailable | internal/service/router.go:186-193 | asks one breaker, which may turn half-open, and no other; a refusal changes nothing |
| Router.PaymentRouter.TryRule | internal/service/router.go:133-170 | a rule whose amount bounds and currency admit the request selects its primary if that is available, otherwise its fallback if there is one and it is; any other rule selects nothing |
| Router.PaymentRouter.Route | internal/service/router.go:104-184 | selects the merchant's choice if it is available, otherwise what the first rule in list order offers, otherwise any available PSP; fails exactly when no registered breaker allows; changes no breaker but the selected one |
| Router.ChoiceIsUnique | internal/service/router.go:104-184 | breakers, rules and request leave one decision, up to which PSP is the last resort |
| Retry.Do | internal/pkg/retry/retry.go:43-105 | calls fn between 1 and MaxAttempts times, never after a success, a non-retryable error or a cancelled wait, and returns what the last call left; not at all for MaxAttempts below 1 |
| Retry.RunIsUnique | internal/pkg/retry/retry.go:43-105 | outcomes and cancellations determine the number of calls and the result |
| Retry.SucceedsIff | internal/pkg/retry/retry.go:58-62 | it succeeds exactly when some call within the limit answers before a non-retryable error and before a cancelled wait |
| RateLimiter.Limiter.constructor | internal/middleware/ratelimit.go:31-52 | a new limiter has the empty history |
| RateLimiter.Limiter.Allow | internal/middleware/ratelimit.go:72-99 | the answer is the next decision of the history and the table what the history makes of it: the client's bucket follows the token-bucket rule, no other moves |
| RateLimiter.Limiter.Cleanup | internal/middleware/ratelimit.go:101-111 | keeps exactly the buckets last filled at most ten minutes ago, as the history says |
| RateLimiter.TokensInRange | internal/middleware/ratelimit.go:83-98 | over every run tokens stay between 0 and the burst |
| RateLimiter.BucketAfterRequest | internal/middleware/ratelimit.go:76-98 | after every run, the tokens and the fill time that a request leaves in its client's bucket; a fill moves the time to now and loses the part of an interval |
| RateLimiter.ServedExactly | internal/middleware/ratelimit.go:82-98 | after every run, with cleanups, a client's requests at one instant are served exactly up to min(burst, tokens + rate * floor(elapsed / interval)) of them and refused from there on |
| RateLimiter.DrainedThenServed | internal/middleware/ratelimit.go:76-98 | a new client is served one whole burst at once, and at any later instant exactly the first min(burst, rate * floor(elapsed / interval)) of its requests |
| RateLimiter.DeployedRate | cmd/server/main.go:198-198 | the deployed limiter serves a new client 200 requests at once, and one second later 100 of 101 |
| RateLimiter.SameDecisions | internal/middleware/ratelimit.go:101-111 | if a stale bucket always refills, a limiter with cleanups at any times gives the decisions of one without |
| RateLimiter.SweepShows | internal/middleware/ratelimit.go:105-110 | if it does not, a concrete run is decided differently because of a cleanup |
| RateLimiter.CleanupInvisibleIff | internal/middleware/ratelimit.go:101-111 | cleanups are unobservable exactly when rate * floor(first nanosecond past ten minutes / interval) is at least the burst |
| RateLimiter.DeployedLimiter | cmd/server/main.go:198-198 | the deployed limiter, 100 per second with burst 200, meets that condition |
| RateLimiter.ServedWithinRate | internal/middleware/ratelimit.go:82-98 | without cleanups a client is served, from its first request on, at most burst + rate * floor(elapsed / interval) requests |
| RateLimiter.AdmissionBound | internal/middleware/ratelimit.go:72-111 | the same bound with cleanups at any times, when these are unobservable |
| CachedResponse.ParseInvertsEncode | internal/middleware/idempotency.go:119-138 | parsing a cached value returns exactly the stored status and body, whatever the body contains, and no cached value is the processing marker |
| CachedResponse.StatusText | internal/middleware/idempotency.go:119-121 | a three-digit status is stored as its three digits and a colon before the body |
| CachedResponse.ParseFallsBack | internal/middleware/idempotency.go:133-136 | a value whose part before the first colon has a character no number has is replayed whole with status 200 |
| CachedResponse.ParseWithoutStatus | internal/middleware/idempotency.go:129-132 | and so is one without a colon or with nothing before it |
| CachedResponse.MerchantKeyParses | internal/middleware/auth.go:28-36 | a configured merchant:key is split at its first colon, with the white space around it taken away |
| CachedResponse.OtherKeyParses | internal/middleware/auth.go:28-43 | one without a colon, or with nothing before it, is an admin key as a whole, and a blank one is none |
| CachedResponse.ParseMerchantKeys | internal/middleware/auth.go:25-45 | every merchant id of the configured keys is non-empty and has no colon |
| CachedResponse.KeysAreInjective | internal/middleware/idempotency.go:54-59 | for merchant ids without a colon two requests share a Redis key exactly when they agree in namespace and idempotency key; no merchant and a merchant called _anonymous have the same namespace |
| CachedResponse.MerchantsAreApart | internal/middleware/auth.go:25-45 | for the merchant ids of the configured keys they do exactly when they agree in merchant and idempotency key |
| Idempotency.StepKeepsSound | internal/middleware/idempotency.go:61-114 | every Redis command of every request keeps: the log of the key is orderly, the stored value is what the log says, and at most one handler is active |
| Idempotency.FinishMeans | internal/middleware/idempotency.go:108-114 | a response with a status from 200 to 299 is stored and replayed to whoever reads next; any other frees the key, so the next claim starts a handler |
| Idempotency.OneHandlerAtATime | internal/middleware/idempotency.go:61-106 | if the key never expires while a handler runs, at most one handler runs at a time |
| Idempotency.SecondRunNeedsRelease | internal/middleware/idempotency.go:108-114 | in every run, also when a claim expires under a running handler, the key was released after a response outside 2xx or expired between any two runs of the handler |
| Idempotency.CachedUntilExpiry | internal/middleware/idempotency.go:74-97 | if no key expires while a handler runs, once a 2xx response is cached no handler starts until it expires and every request replays exactly that status and body |
| Idempotency.CacheLastsIff | internal/middleware/idempotency.go:106-114 | in any run, a cached 2xx response stays until it expires, in every continuation, exactly when no handler is running and none that has ended has another response to store |
| Idempotency.ServingReplays | internal/middleware/idempotency.go:74-97 | while it stays no handler starts and every request is sent exactly that status and body |
| Idempotency.ThreatDrops | internal/middleware/idempotency.go:108-114 | otherwise some continuation without any expiry removes or replaces it |
| Idempotency.CachedBesideHandler | internal/middleware/idempotency.go:61-62 | that case exists: a run caches a response beside a handler whose claim has expired |
| Idempotency.ExpiryAdmitsSecond | internal/middleware/idempotency.go:61-62 | the condition on expiry is needed: whenever a claim expires under a running handler, the next request starts a second one |
| Idempotency.LostClaimBlocks | internal/middleware/idempotency.go:61-62 | if no key expires while a handler runs, a lost reply to a claim, a vanished handler and a response that Redis does not take leave the key claimed with nobody to free it |
| Idempotency.BlockedUntilExpiry | internal/middleware/idempotency.go:74-89 | such a key starts no handler and replays nothing until it expires, whatever requests come |

## Left out

- HTTP handlers, configuration, logging, tracing, metrics, the dashboard, deployment files: plumbing. The handlers appear only as the source of the amount checks.
- PSP adapters: each call is an arbitrary success or failure with an arbitrary id.
- Signatures and webhook freshness: one boolean given by the caller. A retry from the dead letter queue passes it as true.
- JSON, UUIDs, SHA-1: the digest, the PSP reference and the refund amount of a payload are arbitrary fields of it. Generated payment ids are fresh.
- Pub/Sub and the dead letter queue: only as redelivery at any time.
- Reconciliation, `normalizePSPStatus`, account balance queries, breaker statistics, `IsValid`, `AllowedTransitions`: they read and report, and would add easy members.
- API key comparison and the authentication failure tracker: independent of the properties here.
- Backoff durations and jitter: waits either end or are cancelled.
- RoutingDecision's rule name and fallback field, and `Priority`: rules run in list order, the rest is reporting.
- Concurrent calls of one router, breaker or limiter: each method runs under the mutex of its object, so they are modelled as sequential classes; `Route` is stated at one instant.
- Foreign-key share locks: a ledger header refers to its payment row, and that lock is not modelled for generic postings.
- Statements inside one transaction that no other request can observe (an UPDATE and the INSERT after it) are one step.
- A webhook row left in processing by a crash stays there; nothing is claimed about a later success of a failed webhook, since its row makes every retry a skip.
- The two clock readings inside one call of the limiter are one.
- int overflow of the breaker's counters and the limiter's refill.
- Currencies: accounts have one currency while amounts are mixed, so nothing is claimed per currency.
- Guarantees.PspCallsExclude: does not cover CancelPayment, because the code calls the PSP there without a lock. The call itself is not a step of its own; it lies between the row lock and the writes.
- CappedRequests.CappedLedgerIsExact: requires the cap of refund webhooks and generic postings too, because the code does not enforce one there.
- Deadlock.NoDeadlock: requires generic postings to keep the lock order, because the code leaves the order to the caller.
- Serialisability.EveryRunIsSerial: covers payments, transitions and the ledger tables; `webhook_events` is written outside these transactions and is treated in Deliveries.
