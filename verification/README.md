# Verification of the Ayak'bine wallet backend

This project models four parts of the backend and proves what they promise over every run.

**The virtual ledger.** Wallets and `ledger_transactions` rows are changed by seven calls: declare, confirm and reject
a pay-in, reserve and settle a pay-out, transfer between users with a percentage fee, and credit by an administrator.
`LedgerModel` says what each call does when it runs alone, `WalletService` is the same calls as stepwise code on
mutable tables with rollback, `LedgerEffects` says in decimals and rows what each call answers and stores, and
`LedgerLaws` proves conservation, one credit per pay-in and unique proofs.
`LedgerMachine` splits every call into micro-steps (lock, read, write, commit); `LedgerRefinement`, `LedgerSafety` and
`LedgerSerial` prove that any interleaving is a run of the atomic calls and that the books stay right, `LedgerProgress`
that calls do not wait for each other in a circle. `LateCredit` says exactly which call can depart from its atomic step,
and `MirroredTransfers` exactly which two transfers can deadlock. `LedgerExamples` holds short runs on which a law fails
that the laws restrict. Amounts arrive as decimals of any precision and are stored in centimes (`Numeric`).

**The JEKO transfer saga.** A collection leg whose success starts a payout leg, driven by webhooks and reconciliation
passes. `SagaModel` holds the handlers, `SagaEffects` says what each event and pass leaves and reports, `SagaLaws` holds
the joint-state, single-credit and replay laws, `SagaAccounts` truth of outcomes and solvency, `SagaProgress` bounded
progress, `SagaService` the handlers on mutable rows, `FeeRules` the fee arithmetic.

**One-time codes.** Redis keys with expiry, the guess limit and the issue rate. `OtpModel` and `OtpLaws` take one call at
a time, at one instant. `OtpMachine` lets any number of calls overlap between any two Redis commands, `OtpOverlap` bounds
guesses and codes on every such schedule, and `OtpExtremes` reaches the bounds. `OtpService` is the two calls as code.

**The migration runner.** `Migrations`: exactly-once, in-order execution over any pattern of crashes.

Run `dafny verify dfyconfig.toml`.

## What the results say

- A user's rows explain the balance exactly if and only if no pay-out of theirs was reserved for an amount half way
  between two centimes. Each such pay-out leaves one centime too much (`BalanceExactIffNoTies`,
  `HalfCentimePayOutDrifts`); with two-decimal amounts there is none, but app/schemas.py:70 only asks for an amount
  above zero.
- An interleaving of calls is a run of the atomic calls in the order they take effect or are refused, with the atomic
  answers (`InterleavingsAreRuns`), and no call is lost or settled twice (`EveryCallIsSettledOnce`). There is one
  exception. Of the calls that would succeed if run alone, exactly those can stray from their atomic step that confirm a
  pay-in with a proof other than the one its row stores (`StraysExactlyWhen`): another row can take that proof between
  the EXISTS query and the commit, and the confirmation still goes through.
- Even then the calls that took effect can be put in an order in which each succeeds and together they make the committed
  ledger, as long as no wallet overflows (`EveryScheduleHasAnOrder`): a late credit goes back to where its EXISTS query
  was answered. Refused calls need not fit into that order. Money is conserved and stored proofs stay unique
  (`ConcurrentRunsKeepTheBooks`).
- Calls wait for each other in a circle only if they are transfers that have drawn each other's references
  (`DeadlockNeedsDraws`). Two transfers can come to that if and only if their references are mirrored and they share no
  wallet (`DeadlockExactlyWhen`); while the calls in flight have drawn different references, none does (`NoDeadlock`).
- A confirmation with another proof than the stored one needs no concurrency to be odd: `process_payin_credit` checks
  the proof it is given and then keeps the stored one. The given proof is spent if and only if it is not discarded in this way
  (`BroughtProofIsSpentExactlyWhen`); `OneProofConfirmsTwo` is a run in which one proof confirms two pay-ins.
- `process_payin_credit` and `admin_process_payout` do not look at a row's type. `PayInFunctionOnAnyRow` and
  `PayOutFunctionOnAnyRow` say exactly when that breaks the books, by the functions' guards. The pay-in route filters on
  the type (app/api_admin.py:583, 594), so no pay-out reaches its function. The pay-out route (app/api_admin.py:206-216)
  does not: `DeclaredThenRejectedAsPayOut` and `PayInRejectedAsPayOut` show a declared pay-in that is paid into the
  wallet by rejecting it there.
- A failed payout's re-credit is covered by what JEKO holds for the transfer if and only if JEKO kept no more than the
  fee rule says (`RecreditCoveredIffRuleHolds`).
- The re-credit of a larger total is smaller exactly when the totals differ by less than 1 XOF and the fee steps up
  between them (`CreditDropsExactlyWhen`); transfers of 277.99 and 278 XOF are such a pair (`CreditDropsOnTransfers`).
- A webhook that comes before its transaction is known is lost if and only if its dedup key is still there when it comes
  again (`EarlyWebhookIsLostIffKeyKept`).
- At most five wrong guesses meet a code, and it verifies once, if and only if a phone's verifications never overlap
  (`FiveAndOnceIffOneAtATime`). With up to k at once it is up to 4 + k wrong guesses and k successes, and those numbers
  are reached (`WrongGuessesExactly`, `RightGuessesExactly`). That supposes that a request runs alone from storing its
  code to its end. Otherwise its last command, and that of another request still in flight, can erase guesses already
  counted against the new code, which may then be guessed wrong as often again (`ClearingForgetsGuesses`,
  `OverlappingGuesses`). Overlapping requests multiply the codes issued: with up to k at once it is k for each minute
  begun, and no fewer (`CodesExactly`).
- The webhook and reconciliation read some raw statuses differently (`StatusMapsAgree`): "completed" is a failure for
  the one and a success for the other.
- The repository's README says that a webhook is ignored once its transaction is in a terminal status. The code tests
  the status of the leg instead, and the model follows the code.

## Premises

- PostgreSQL runs at READ COMMITTED: a locking read waits for the holder and then sees the latest committed row. A
  database error rolls its whole call back. Every user has a wallet, and users do not change during a run; they are
  numbered in the order of their user_id.
- Where it is stated (`Apart`), the calls in flight have drawn different references. Otherwise references may collide,
  with each other and with those in the table; PostgreSQL ends a deadlock by raising an error, the model leaves it.
- The fee percentage lies in 0..100 (app/schemas.py:169); the pay-in and pay-out functions are applied to rows of their
  type (`Proper`).
- References and proofs fit their columns, VARCHAR(50) and VARCHAR(100).
- One saga handler with its commit is one atomic step. `credit_wallet` adds to the balance; a new transfer is (PENDING,
  PENDING, none), and stays so when JEKO cannot be reached at its creation. JEKO reports only legs it was asked for,
  consistently, and gives accepted requests an id. What JEKO keeps of a collection is a parameter of the accounts; where
  it is exactly the fee rule's amount, the margin of a failed payout is exactly zero.
  `app/models/models.py`, `app/schemas/schemas.py` and `app/services/wallet_service.py` are not part of this model.
- One server instance runs migrations, and the file list is fixed.

## Model

| member | source | states |
|---|---|---|
| Numeric.RoundIsNearest | sql/migration_006_platform_fee.sql:46 | the rounding is the nearest integer with halves away from zero, and no other integer is |
| Numeric.StoredIsNearestCentime | sql/migration_004_repair_core_schema.sql:110 | a column holds the nearest centime, and up to thirteen digits of francs |
| Numeric.StoreSum | sql/migration_006_platform_fee.sql:78 | adding a decimal to a stored balance adds exactly the amount as it would be stored |
| Numeric.StoreDifference | sql/migration_004_repair_core_schema.sql:277-280 | subtracting one subtracts the stored amount, less a centime exactly for a half-centime tie |
| WalletService.Tables.Insert | sql/migration_010_fix_proof_constraint_and_operators.sql:27-29 | an insert succeeds exactly if the checks hold and neither the reference nor the provider and proof are taken; else nothing is inserted |
| WalletService.Tables.SetBalance | sql/migration_004_repair_core_schema.sql:107-111 | a balance update succeeds exactly if the wallet's check and width admit the new balance |
| WalletService.Tables.DeclarePayInPending | app/wallet_service.py:18-78 | the stepwise insert with ON CONFLICT is the declared call: a new PENDING row, a duplicate answered with the row that has the proof, or the other row found under the generated reference; errors change nothing |
| WalletService.Tables.ProcessPayInCredit | sql/migration_009_fix_payin_credit_provider.sql:10-80 | the guarded, stepwise confirmation is the atomic credit, with every early return and rollback |
| WalletService.Tables.RejectPayInRow | app/api_admin.py:578-591 | only a pending pay-in becomes FAILED; anything else is left alone |
| WalletService.Tables.ProcessPayOutDeduction | sql/migration_004_repair_core_schema.sql:253-297 | the stepwise reservation is the atomic one; a failed insert restores the balance |
| WalletService.Tables.AdminProcessPayOut | sql/migration_004_repair_core_schema.sql:299-355 | approving and rejecting stepwise is the atomic settlement |
| WalletService.Tables.ProcessInternalTransfer | sql/migration_006_platform_fee.sql:27-104 | the guards in their order, then the booking, are the atomic transfer |
| WalletService.Tables.Book | sql/migration_006_platform_fee.sql:76-91 | two balance updates and two inserts happen all together or not at all, and exactly when all four are admitted |
| WalletService.Tables.AdminManualCredit | app/wallet_service.py:248-290 | the stepwise manual credit is the atomic one |
| LedgerEffects.DeclareExactly | app/wallet_service.py:18-78 | for any amount, which declarations are stored, as which row, and which are answered as duplicates or raise |
| LedgerEffects.ConfirmExactly | sql/migration_009_fix_payin_credit_provider.sql:20-70 | which answer a confirmation gets by the row's status, the proofs stored and the amount; and the wallet and row it leaves |
| LedgerEffects.UnknownReference | sql/migration_009_fix_payin_credit_provider.sql:26-28 | a reference of no row is unknown |
| LedgerEffects.RejectExactly | app/api_admin.py:578-591 | a pending pay-in, and nothing else, becomes FAILED and changes in nothing else |
| LedgerEffects.ReserveExactly | sql/migration_004_repair_core_schema.sql:264-287 | which pay-outs are reserved, as which row, and what the wallet keeps |
| LedgerEffects.SettleExactly | sql/migration_004_repair_core_schema.sql:310-350 | an approval ends SUCCESS with the proof given or the stored one, a rejection CANCELLED with the amount paid back; and when each is refused |
| LedgerEffects.TransferExactly | sql/migration_006_platform_fee.sql:43-91 | for any amount and percentage, the answer in the order of the guards, both rows and both wallets |
| LedgerEffects.ManualExactly | app/wallet_service.py:248-290 | which manual credits are made, as which row, and what the wallet gains |
| LedgerLaws.CallKeeps | sql/migration_004_repair_core_schema.sql:253-355 | every call keeps balances holdable, references and proofs unique, rows well shaped, and each balance equal to its rows plus the tie count |
| LedgerLaws.RunKeeps | sql/migration_006_platform_fee.sql:76-91 | the same in every state of every run from empty wallets |
| LedgerLaws.BalanceExactIffNoTies | sql/migration_004_repair_core_schema.sql:273-287 | a balance equals the fold of its owner's rows if and only if no half-centime pay-out of theirs was reserved |
| LedgerExamples.HalfCentimePayOutDrifts | sql/migration_004_repair_core_schema.sql:277-287 | a run of two calls after which the rows of a user say a centime less than the wallet |
| LedgerLaws.DashboardAddsUp | app/api_admin.py:72-107 | over every run wallets + paid-out + awaiting pay-outs + fees equal pay-ins plus the tie count |
| LedgerLaws.CreditPaysStoredAmount | sql/migration_009_fix_payin_credit_provider.sql:54-70 | a credit moves exactly the stored amount into the owner's wallet only |
| LedgerLaws.CreditedOnce | sql/migration_009_fix_payin_credit_provider.sql:29-34 | over every run a pay-in is credited exactly once if it ends SUCCESS and never otherwise |
| LedgerLaws.AtomicRunsKeepTheBooks | app/api_admin.py:72-107 | over every run of atomic calls: conservation per wallet and over the platform, and one credit per pay-in |
| LedgerLaws.TransferMovesStoredAmounts | sql/migration_006_platform_fee.sql:46-91 | a committed transfer stores its amount and the percentage of it as fee, to the nearest centime, debits both, credits the amount, and touches no other wallet |
| LedgerLaws.PayOutTakesStoredAmount | sql/migration_004_repair_core_schema.sql:273-287 | a reservation stores the pay-out as asked for, with its provider, to the nearest centime, and debits that, one centime less exactly for a tie |
| LedgerLaws.RejectUndoesReserve | sql/migration_004_repair_core_schema.sql:334-344 | rejecting a reserved pay-out restores every balance, up to the tie centime, whenever the wallet can hold it |
| LedgerLaws.DeclareThenConfirm | app/api_admin.py:578-605 | a declared pay-in, also a rejected one, is confirmed with any proof unless another row of its provider has it; it pays exactly its stored amount and keeps its own proof, or else the one given |
| LedgerLaws.StoredProofIsRefused | sql/migration_010_fix_proof_constraint_and_operators.sql:27-29 | a stored proof cannot be declared, confirmed or approved for another row of its provider |
| LedgerLaws.BroughtProofIsSpentExactlyWhen | sql/migration_009_fix_payin_credit_provider.sql:36-68 | after a successful call that brings a proof, no call can bring it for another row, if and only if the call did not confirm a row that stores another proof |
| LedgerExamples.OneProofConfirmsTwo | sql/migration_009_fix_payin_credit_provider.sql:36-68 | two pay-ins confirmed one after the other with one proof, both paid |
| LedgerLaws.StoredProofStays | sql/migration_009_fix_payin_credit_provider.sql:68 | a proof stored at any point of a run is still stored at its end |
| LedgerLaws.RowsMoveForward | sql/migration_004_repair_core_schema.sql:310-344 | no step changes a row's identity or amounts, takes a status back or replaces a stored proof |
| LedgerLaws.PayOutFunctionOnAnyRow | sql/migration_004_repair_core_schema.sql:310-344 | applied to any row, the pay-out function keeps the books if and only if the row is not a pending pay-in that its guards let through |
| LedgerLaws.DeclaredThenRejectedAsPayOut | app/api_admin.py:206-216 | any declared pay-in, rejected as a pay-out, pays its amount into the wallet while the rows account for nothing, unless the wallet cannot hold it |
| LedgerExamples.PayInRejectedAsPayOut | app/api_admin.py:206-216 | such a run from an empty ledger |
| LedgerLaws.PayInFunctionOnAnyRow | sql/migration_009_fix_payin_credit_provider.sql:20-52 | applied to any row, the pay-in function keeps the books if and only if the row is a pay-in or its guards refuse it |
| LedgerRefinement.MicroStep | sql/migration_009_fix_payin_credit_provider.sql:20-70 | each micro-step keeps what the call has read under lock true of the committed ledger; the one that settles the answer settles the atomic call's answer, or overtakes the duplicate that it would be |
| LedgerRefinement.CommitAgrees | sql/migration_006_platform_fee.sql:57-58 | a commit changes nothing that another call holds a lock on or has checked under a lock |
| LedgerRefinement.EveryInterleavingRefines | sql/migration_004_repair_core_schema.sql:264-287 | after any schedule of any mix of calls: reads under lock are current, locks exclusive, indexes unique, and the committed ledger is the replay of the finished calls |
| LedgerSafety.CommitIsAtomicIffNotLate | sql/migration_009_fix_payin_credit_provider.sql:36-70 | a commit is the call's step on the ledger it finds, given the answer of its EXISTS query; only a credit that brings another proof than its row stores can find that answer out of date |
| LedgerSafety.InterleavingsAreRuns | sql/migration_009_fix_payin_credit_provider.sql:36-70 | every interleaving ends where the atomic calls end, in the order they take effect or are refused, with the atomic answers; only a credit that would be a duplicate can take effect late, against the stored proof, or raise |
| LedgerSafety.EveryCallIsSettledOnce | sql/migration_004_repair_core_schema.sql:253-355 | after every schedule the calls begun are those settled, once each and in order, and those in flight |
| LedgerSerial.CallCommutes | sql/migration_009_fix_payin_credit_provider.sql:56-70 | paying a pay-in that stores a proof and any call that leaves its row alone give the same ledger in either order, if the wallet has room |
| LedgerSerial.EveryScheduleHasAnOrder | sql/migration_009_fix_payin_credit_provider.sql:20-70 | after every schedule the calls that took effect can be run one at a time, in some order, all succeeding and making the committed ledger, if wallets have room |
| LedgerSafety.ConcurrentRunsKeepTheBooks | sql/migration_006_platform_fee.sql:57-91 | conservation, non-negative balances and unique proofs after every interleaving |
| LedgerSafety.ConcurrentRunsCreditOnce | sql/migration_009_fix_payin_credit_provider.sql:20-34 | concurrent confirmations credit a pay-in once if it ends SUCCESS and never otherwise |
| LateCredit.StraysExactlyWhen | sql/migration_009_fix_payin_credit_provider.sql:36-70 | from any ledger, some schedule makes a call take effect otherwise than the atomic call if and only if it is a credit that brings another proof than its row stores |
| LateCredit.RivalOvertakes | sql/migration_009_fix_payin_credit_provider.sql:36-68 | for every such credit a schedule on which a declaration takes the proof and both take effect, where the atomic credit is refused; the atomic calls leave the same ledger in the other order |
| LedgerProgress.LocksInOrder | sql/migration_006_platform_fee.sql:57-91 | a call asks only for keys above those it holds: row, then wallets by user_id, then proof, then reference; except a transfer for its second reference |
| LedgerProgress.NoDeadlock | sql/migration_004_repair_core_schema.sql:310-338 | after any schedule the wait-for graph has no circle while the calls in flight have drawn different references |
| LedgerProgress.DeadlockNeedsDraws | sql/migration_006_platform_fee.sql:83-91 | any circle in the wait-for graph is one of transfers, each drawing second what the next draws first |
| MirroredTransfers.DeadlockExactlyWhen | sql/migration_006_platform_fee.sql:57-91 | two transfers that would each succeed alone can wait for each other if and only if they have drawn each other's references and share no wallet |
| LedgerProgress.SomeoneCanStep | sql/migration_006_platform_fee.sql:57-58 | while a call is unfinished, some call can step, references in flight being different |
| LedgerProgress.EveryScheduleEnds | sql/migration_009_fix_payin_credit_provider.sql:20-70 | however calls are scheduled, those in flight take at most five steps each, and a schedule that keeps moving calls while it can ends them all |
| LedgerProgress.EveryCallCanEnd | sql/migration_009_fix_payin_credit_provider.sql:20-70 | and there is such a schedule |
| FeeRules.FailureCreditCoversAmount | app/services/fee_rules.py:50-64 | the failure credit of the collected total is at least the amount, for every decimal amount and operator |
| FeeRules.TotalAddsEightPercent | app/services/fee_rules.py:45-52 | the total is the amount and 8 percent of it to the nearest XOF |
| FeeRules.CreditTakesOffDepositFee | app/services/fee_rules.py:55-64 | the failure credit is the total less 1.5 percent for Wave, 1 percent for the others, to the nearest XOF |
| FeeRules.MarginCoversPayOutFee | app/services/fee_rules.py:37-64 | from 250 XOF on it exceeds the amount plus 1.5 percent rounded up |
| FeeRules.TotalIncreases | app/services/fee_rules.py:50-52 | the total to collect is strictly increasing |
| FeeRules.CreditNeverDrops | app/services/fee_rules.py:55-64 | the failure credit is non-decreasing on whole totals |
| FeeRules.CreditDropsExactlyWhen | app/services/fee_rules.py:55-64 | on decimal totals the credit drops if and only if the totals differ by less than 1 XOF and the fee steps up between them |
| FeeRules.CreditDropsOnTransfers | app/services/fee_rules.py:50-64 | two transfers above the minimum amount for which it drops |
| SagaService.TransactionRow.HandlePayInWebhook | app/services/webhook_service.py:84-129 | the in-place handler has the specified effect and credit |
| SagaService.TransactionRow.HandlePayOutWebhook | app/services/webhook_service.py:132-158 | the in-place handler has the specified effect and credit |
| SagaEffects.CollectionExactly | app/services/webhook_service.py:84-129 | what the first report on a collection makes of the transaction and pays its owner, by kind and JEKO's answer; later ones change nothing |
| SagaEffects.PayoutExactly | app/services/webhook_service.py:132-158 | the same for a payout: a failed one pays a transfer back by the fee rule and any other its amount |
| SagaEffects.EventDecidesLeg | app/services/webhook_service.py:92-141 | whatever the kind, an event leaves a pending leg SUCCESS exactly if it reports success, else FAILED |
| SagaService.Session.CreateTransfer | app/api/v1/transfers.py:46-82 | a new row per unused reference, PENDING with its id, FAILED when JEKO refuses at once |
| SagaEffects.CreateExactly | app/api/v1/transfers.py:46-82 | the row as asked for: owner, amount, operator, total with the fee, the id JEKO gave, and FAILED exactly when JEKO refuses at once |
| SagaService.Session.ProcessJekoWebhook | app/services/webhook_service.py:56-81 | dedup key, missing reference, unknown transaction and delivery, in that order |
| SagaEffects.WebhookExactly | app/services/webhook_service.py:43-81 | by dedup id, suffix and transaction, what a webhook is answered and delivers; success exactly for "success" in any case |
| SagaEffects.WebhookWithoutReference | app/services/webhook_service.py:63-69 | without a reference it only marks its id |
| SagaService.Session.ReconcileTransaction | app/services/reconciliation.py:26-101 | report (mode, state before, actions, status after) and effect of a pass, dry or applied, with its early returns |
| SagaEffects.PassOverCollection | app/services/reconciliation.py:51-80 | what a pass over a pending collection reports and applies, where it stops and where it goes on to the payout |
| SagaEffects.PassOverPayout | app/services/reconciliation.py:82-101 | what any other pass reports and applies |
| SagaEffects.PassLeavesWhatJekoSays | app/services/reconciliation.py:11-19 | an applied pass leaves a pending leg SUCCESS exactly for the three words of success, FAILED for the five of failure, and pending otherwise |
| SagaService.Session.AutoReconcile | app/services/auto_reconcile.py:66-85 | the loop over the delays, with what other calls do in them, stops and passes as specified; a round that raises is retried at the next delay |
| SagaProgress.LoopFinishes | app/services/auto_reconcile.py:51-85 | it ends with a terminal transaction if it has as many rounds as legs are left, besides those that raise or get no definitive answer, and it uses no more; whatever happens in the delays |
| SagaEffects.LoopIsRun | app/services/auto_reconcile.py:66-85 | the loop is a run: what happens in its delays and at most one delivery after each, so all laws of runs hold of it |
| SagaLaws.TerminalIffNoLegPending | app/services/auto_reconcile.py:41-45 | the loop's terminal statuses are reached exactly when no leg is pending |
| SagaLaws.HandlerKeepsJointIffStarted | app/services/webhook_service.py:84-158 | a handler keeps status and legs in step if and only if its leg had been started |
| SagaLaws.RunKeeps | app/services/webhook_service.py:112-158 | over every run legs and status agree, each transaction has paid exactly what its state says, and wallets received exactly those payments |
| SagaLaws.SingleRecredit | app/services/webhook_service.py:122-158 | a transfer re-credits once, by the fee rule, exactly when it ends FAILED_PAYOUT |
| SagaAccounts.OutcomesAreTrue | app/services/webhook_service.py:84-158 | over every run and for every kind, the status and the payments of a finished transaction are what its legs came to at JEKO: a withdrawal is paid back exactly if its payout did not come through, a deposit paid exactly if its collection did |
| SagaLaws.ReplaysAreAbsorbed | app/services/webhook_service.py:52-95 | duplicates, replays, reconciliations and expiring dedup keys leave what the first event of each leg leaves |
| SagaLaws.EarlyWebhookIsLostIffKeyKept | app/services/webhook_service.py:52-74 | a webhook that first came before its transaction was known is swallowed when it comes again if and only if every expiry of its dedup key was followed by another webhook under its id |
| SagaLaws.LostWebhookLeavesLegPending | app/services/webhook_service.py:63-74 | so lost, it leaves the leg pending that it would have settled had it come once, after the transaction |
| SagaAccounts.TransferAccount | app/services/fee_rules.py:55-64 | in every reachable state JEKO's holding for a transfer is its re-credit plus a margin given by its status and the fee JEKO really kept; where that is no more than the rule's, the margin is not negative, and above the payout fee after SUCCESS from 250 XOF |
| SagaAccounts.RecreditCoveredIffRuleHolds | app/services/fee_rules.py:55-64 | a re-credit is covered by what JEKO holds for its transfer if and only if JEKO kept no more than the rule says |
| SagaAccounts.RecreditsAreCovered | app/services/webhook_service.py:112-158 | summed over any transfers, holdings equal re-credits plus margins, and cover the re-credits where JEKO keeps no more than the rule |
| SagaProgress.SplitUndoesSuffix | app/services/webhook_service.py:43-49 | splitting a reference undoes adding its leg's suffix |
| SagaProgress.WebhookIsDelivery | app/services/webhook_service.py:56-81 | a webhook for a requested leg is one delivery to that leg under its dedup id |
| SagaProgress.ReconcileIsDelivery | app/services/reconciliation.py:51-101 | a pass changes nothing or is one delivery to a pending leg; a dry run finds the same and changes nothing |
| SagaProgress.StatusMapsAgree | app/services/reconciliation.py:11-19 | the two readings of a raw status agree exactly on six words |
| SagaProgress.PassMakesProgress | app/services/reconciliation.py:67-96 | a pass with definitive answers lowers the legs left of an unfinished transaction and touches no other |
| SagaProgress.TwoPassesFinish | app/services/auto_reconcile.py:51-80 | two definitive passes finish any transaction, whatever happens before, between and after |
| OtpService.GenerateAndSendOtp | app/services/otp_service.py:45-64 | the awaited SMS and commands, with whatever others do in between, carry the request out as specified |
| OtpService.VerifyOtp | app/services/otp_service.py:67-84 | the awaited commands, with whatever others do in between, carry the verification out as specified |
| OtpMachine.VerifyAloneIsAtomic | app/services/otp_service.py:67-84 | a verification that nothing disturbs is the one at one instant |
| OtpMachine.RequestAloneIsAtomic | app/services/otp_service.py:45-64 | a request that nothing disturbs is the one at one instant |
| OtpLaws.KeysApart | app/services/otp_service.py:33-42 | keys of different kinds or phones never coincide |
| OtpLaws.GuessLimit | app/services/otp_service.py:67-84 | over every run of calls one at a time, at most five wrong guesses meet one issued code, which verifies at most once |
| OtpOverlap.OverlappingGuesses | app/services/otp_service.py:45-84 | however calls overlap, successes and wrong guesses between two losses of the count are bounded by the verifications in flight at once, and the losses by the calls |
| OtpOverlap.QuietGuesses | app/services/otp_service.py:60-84 | with requests undisturbed from storing the code to their end, at most 4 wrong guesses and one for each verification in flight at once |
| OtpExtremes.WrongGuessesExactly | app/services/otp_service.py:69-79 | that bound is reached for every number of verifications at once |
| OtpExtremes.RightGuessesExactly | app/services/otp_service.py:73-83 | a code verifies at most k times on every schedule with up to k verifications at once, and no smaller number does |
| OtpExtremes.FiveAndOnceIffOneAtATime | app/services/otp_service.py:67-84 | five wrong guesses and one success hold on all such schedules if and only if verifications never overlap |
| OtpExtremes.ClearingForgetsGuesses | app/services/otp_service.py:60-62 | a schedule with one request and one verification at a time on which ten wrong guesses meet a code |
| OtpLaws.IssueRate | app/services/otp_service.py:45-62 | with calls one at a time, by time T at most T div 60 s + 1 codes are issued, and five times as many wrong guesses compared |
| OtpOverlap.OverlappingIssues | app/services/otp_service.py:45-62 | however calls overlap, at most so many codes for each request in flight at once |
| OtpExtremes.CodesExactly | app/services/otp_service.py:45-62 | and that bound is reached for every number of requests at once and every T |
| OtpLaws.RightCodeExactlyWhen | app/services/otp_service.py:67-84 | with calls one at a time, a guess succeeds if and only if it is the last code issued, under five minutes old, unused, with fewer than five wrong guesses |
| OtpLaws.GuessAnsweredExactly | app/services/otp_service.py:67-84 | with calls one at a time, in every reachable state: the answer to any guess, by the streak of wrong guesses, the age and use of the code, and the code |
| OtpLaws.RequestAnsweredExactly | app/services/otp_service.py:45-58 | and to any request: refused exactly within a minute of the last code |
| OtpLaws.FailedDeliveryCostsNothing | app/services/otp_service.py:51-58 | an undelivered request changes nothing and can be repeated at once |
| Migrations.FilesAreSorted | app/db_migrate.py:28-29 | the files are the listed ones, and each comes before the next at their first difference: by the lower character, or by ending there |
| Migrations.FirstDifferenceDecides | app/db_migrate.py:29 | the comparison of names goes by the first different character, the lower first, whatever comes after |
| Migrations.PrefixComesFirst | app/db_migrate.py:29 | and a name comes before any longer one that begins with it |
| Migrations.Server.RunMigrations | app/db_migrate.py:28-93 | the loop over the sorted files, cut by a crash after any commit, has the specified effect |
| Migrations.ExactlyOnceInOrder | app/db_migrate.py:28-93 | over any crashes and restarts, tracked names are a prefix of the ascending files, and executed scripts are that prefix in order, once each, without a skipped first one |
| Migrations.CleanStartCompletes | app/db_migrate.py:80-93 | a start without crash completes the list and the next executes nothing |

## Left out

- WalletService.Tables.Insert: does not model the error for a reference over 50 or a proof over 100 characters; the
  same goes for a proof that an approval or a confirmation stores.
- SagaService.Session.CreateTransfer: does not model the user lock around it, and presumes that a request JEKO never
  answered leaves the new row PENDING.
- Registration of users: users, phones and wallets are fixed during a run.
- Foreign-key locks, timestamps, metadata other than a transfer's role, the audit log, and messages of answers.
- Waiting for the index entry of a proof that an approval replaces: with pay-out functions applied to pay-outs only, no
  stored proof is ever replaced (`RowsMoveForward`).
- NUMERIC division is exact here; PostgreSQL limits the digits of `p_amount * p_fee_percent / 100.0` for amounts with
  very many decimals, which can only move the fee, not the equality of what is stored and what is moved.
- Handlers of one transaction that overlap, their reads taking no row lock.
- Liveness of approvals with the default manual proof, which all approvals of one administrator share.
- JEKO, Kkiapay, SMS and push clients and their retries, the Kkiapay webhook and app/api/v1/agent.py, HTTP routes,
  authentication, KYC, devices and settings.
- Which files match migration_*.sql, effects of migration scripts other than creating the users table; new files between starts; several instances.
- Superseded procedures of migrations 001 to 003, and of 004 where 009 replaces it.
