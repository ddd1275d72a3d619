# Durable execution of wallet requests

A Dafny model of `crates/nwc-mobile`: a wallet that may be killed at any instruction runs each
authenticated wallet request exactly as far as its durable state allows. The model proves what every
step, every interleaving of processes and every run keeps. Check it with `dafny verify dfyconfig.toml`.

## What is modelled

| file | subject |
|---|---|
| `Types.dfy` | identifiers, results, integer limits |
| `Budget.dfy` | policies and budget-period arithmetic, with the overflow checks of its three users |
| `Accounting.dfy`, `AccountingOutcomes.dfy` | payment attempts, their unique indices and debited periods; the class `PaymentTables`; what each transaction does in columns |
| `Payments.dfy`, `PaymentSafety.dfy` | the payment protocol with engines, reconcilers and a nondeterministic wallet as a state machine; its invariant and main result |
| `PaymentOwners.dfy`, `PaymentExactness.dfy`, `PaymentResults.dfy` | conditions under which the main result applies, its exact condition, and consequences |
| `PaymentLegacy.dfy`, `PaymentAuthorization.dfy`, `PaymentRecords.dfy` | debits of an older schema; the authorization of each wallet call; what is recorded is what the wallet reported |
| `PaymentEngine.dfy` | the engine's payment methods and the reconciler in program form, proved to be runs of that machine |
| `Rotation.dfy`, `RotationLimits.dfy`, `RotationQueue.dfy` | the rotating queue of unresolved attempts, where its numbers end, and its transactions |
| `Ledger.dfy`, `LedgerSafety.dfy`, `LedgerOutcomes.dfy` | the wake-event ledger, its methods on rows, fencing and revocation; its transactions in columns and the end of an abandoned claim |
| `Execution.dfy`, `ExecutionSafety.dfy`, `ExecutionResults.dfy`, `ExecutionOutcomes.dfy` | claim, freshness gate, host calls, commit and publication over the ledger, with one device clock; its steps in columns |
| `Publication.dfy`, `Freshness.dfy` | the authorization of each publication; the clock reading behind each host call |
| `ExecutionEngine.dfy` | the engine's request path in program form, proved to be runs of that machine |
| `Outbox.dfy`, `OutboxOutcomes.dfy`, `OutboxSafety.dfy`, `OutboxFairness.dfy`, `OutboxWorker.dfy` | the notification outbox, its transactions in columns, its interleavings, the rotating queue, and the worker |
| `Registry.dfy`, `RegistrySafety.dfy`, `RegistryOutcomes.dfy` | connections, tombstones, the wake-registration outbox, column encodings; its transactions in columns |
| `Migration.dfy`, `ConnectionService.dfy`, `Nwa.dfy` | legacy migration, the registry object and manager, approval of authorization requests |
| `Foreground.dfy`, `Pager.dfy` | foreground retries; the transaction pager |

Each state machine has actions, a predicate saying when an action is enabled, a function giving its
effect, and runs as sequences of enabled actions. One committed transaction, one wallet call or one
publication is one action. A crash is an action of its own, so a process may die between any two
others. The classes carry a ghost run: each method takes its steps as actions, lets other processes act
in between, and is proved to extend the run, so results about runs hold of the methods. The `Outcomes` files
state every transaction in the raw columns of its rows, without the functions it is built from.

## Assumptions

- The wallet obeys the documentation of `start_payment` (crates/nwc-mobile/src/host.rs:969-983):
  `Rejected` and `NotFound` are returned only for a key under which nothing was submitted so far, a
  reported failure means the payment cannot settle, a repeated call resumes the same payment. A failed
  status by hash is read the same way for every key of that hash. Every other answer is unconstrained.
  In the machine a later call may nevertheless accept a key that was rejected or failed before. The
  documentation rules that out; `PaymentSafety.LivePaymentsStayDebited` asks only that no process has
  recorded, or is about to record, the failure of such a key, and the results about owner runs do not
  need it. `PaymentExactness.CoverageHoldsExactly` is stated for wallets that do not do it.
- `PaymentExactness.CoverageHoldsExactly` also assumes that an event's invoice is always quoted with the
  one payment hash it names.
- One process per event, in the results about owner runs, is an assumption. Claim leases provide it until
  the claim's deadline (`ExecutionResults.HostCallsAreExclusive`); a suspended process may resume later
  and still write the payment tables. The other payment results do not assume it.
- A claim token is never drawn twice. Event identifiers determine the event's content and creation time.
- `ExecutionResults.HostCallsAreExclusive` is about a wall clock that does not go back and advances with
  the monotonic clock of the deadline. All other ledger and execution results allow any clock values.

## Findings

- The initiation marker is written under the payment hash, not the event. A reconciler may release an
  unmarked reservation between another process's status check and its marker; if a second event then
  reserves the same hash, the marker lands on the second event's row and the first event's payment runs
  without an attempt of its own. `PaymentResults.UnquietReleaseUncoversPayment` is such a run.
  `PaymentExactness.CoverageHoldsExactly` gives the exact condition over whole runs, one that a caller
  can check before it marks: the attempt found under the hash belongs to the caller's own event. Runs in
  which no release falls into that window meet it (`PaymentExactness.QuietRunsMeetTheCondition`), and so
  do runs with one process per event (`PaymentOwners.OwnerRunIsGuarded`).
- A stored response may be published after its authorization was revoked: activity is checked once,
  before the relay call. `Publication.PublicationMayFollowRevocation` is such a run;
  `Publication.PublicationIsAuthorizedExactly` says when it happens: a publication goes out under a live
  authorization if and only if no revocation of its connection committed since its own check. The same
  holds of the wallet call and its recheck (`PaymentAuthorization.CallIsAuthorizedExactly`,
  `PaymentAuthorization.CallMayFollowRevocation`).
- The sequence numbers of the reconciliation queue end after 2^63 loads. A restart of the numbers orders
  the open attempts by event id alone, and a settled attempt that kept a number near the end makes every
  new reservation cause a restart, so an attempt may be skipped by every pass
  (`RotationLimits.RestartsCanStarve`); `Rotation.PassesAdvanceExactly` says which
  runs bring it nearer. Reservations are refused forever once a settled attempt holds the largest number
  (`RotationLimits.RefusedForever`), and `RotationLimits.LoadFreesNumbersExactly` says when they are not.
- A completed invoice stays fully acknowledged only if it is never recorded again with a longer relay
  list (`Outbox.RerecordingKeepsCompletionExactly`). The engine records with the authorization's fixed
  relays, for which the property holds in every run.
- The rotation of pending invoices stops at the largest storable time: the update then overflows into a
  value the column refuses, so a record with that last-check time stays in front
  (`OutboxFairness.TouchMakesProgressExactly`).
- The claim lease is as short as possible except for budgets that end one nanosecond into a second
  (`ExecutionResults.LeaseIsTight`).

## Model

| member | source | states |
|---|---|---|
| `Budget.PeriodStartsAgree` | crates/nwc-mobile/src/connection_registry.rs:937-956 | Import, payment reservation and usage reading compute the same period start for every pair of u64 times, it covers `now`, and none of their overflow branches is taken; before creation all refuse. |
| `Budget.PeriodIsUnique` | crates/nwc-mobile/src/payment_accounting.rs:790-806 | Only one whole multiple of the interval after creation covers a given time. |
| `Budget.PeriodBoundary` | crates/nwc-mobile/src/application_metadata.rs:194-226 | Two readings share a period start exactly while the later one lies inside the first one's period; starts never go back. |
| `Accounting.ReserveIsSound` | crates/nwc-mobile/src/payment_accounting.rs:288-412 | A reservation, granted or refused, keeps every period counter equal to its imported usage plus what its attempts debit. |
| `Accounting.MarkFailedIsSound` | crates/nwc-mobile/src/payment_accounting.rs:486-524 | Recording a failure refunds exactly the attempt's debit; the counter can never underflow, so the error for corrupt data is unreachable. |
| `Accounting.MarkSucceededIsSound` | crates/nwc-mobile/src/payment_accounting.rs:526-605 | Recording a settlement replaces the reserved debit by the charged amount, also after an earlier refund, and keeps the books balanced. |
| `Accounting.ReleaseIsSound` | crates/nwc-mobile/src/payment_accounting.rs:447-475 | Releasing an unmarked reservation refunds and deletes it without unbalancing any period. |
| `Accounting.ReleaseUndoesReserve` | crates/nwc-mobile/src/payment_accounting.rs:447-475 | Release is the inverse of a new reservation: attempts and indices are as before, counters too, up to one opened empty period. |
| `Accounting.ReservationRepeats` | crates/nwc-mobile/src/payment_accounting.rs:304-324 | Repeating a granted reservation later returns the same attempt, another event with its hash learns it is tracked, and neither debits again. |
| `Accounting.BudgetDecides` | crates/nwc-mobile/src/payment_accounting.rs:341-373 | For a new event and hash, under a row of this revision that is active, unexpired and may pay, a reservation is granted if and only if principal, fee reserve and the period's use fit the limit together; otherwise it is refused as over budget and nothing changes. |
| `Accounting.SettlementChargesActual` | crates/nwc-mobile/src/payment_accounting.rs:526-605 | A settlement charges the actual amounts, each rounded up by less than a satoshi, and flags exactly the payments that exceeded what was reserved. |
| `Accounting.DebitIsCovered` | crates/nwc-mobile/src/payment_accounting.rs:808-840 | What an attempt debits never exceeds its period's counter. |
| `Accounting.PaymentTables.ReservePayment` | crates/nwc-mobile/src/payment_accounting.rs:288-412 | The method performs the reservation function on its tables, nothing written on any refusal; what that function decides and writes is stated in columns in `AccountingOutcomes`. |
| `Accounting.PaymentTables.MarkPaymentInitiated` | crates/nwc-mobile/src/payment_accounting.rs:415-445 | The marker is written once, under the row found by payment hash, and only on a reserved attempt. |
| `Accounting.PaymentTables.ReleaseUninitiatedPayment` | crates/nwc-mobile/src/payment_accounting.rs:447-475 | Takes effect only without a marker, and then refunds and deletes. |
| `Accounting.PaymentTables.MarkPaymentPending` | crates/nwc-mobile/src/payment_accounting.rs:477-485 | Moves a marked reservation to pending and leaves the debit. |
| `Accounting.PaymentTables.MarkPaymentFailed` | crates/nwc-mobile/src/payment_accounting.rs:486-524 | Refunds the debit once; a second call changes nothing; a settled attempt refuses. |
| `Accounting.PaymentTables.MarkPaymentSucceeded` | crates/nwc-mobile/src/payment_accounting.rs:526-605 | Charges the actual amounts; a repeated settlement must be identical. |
| `Accounting.PaymentTables.AdjustPeriodUsed` | crates/nwc-mobile/src/payment_accounting.rs:808-840 | Replaces one contribution of a period counter, or reports the error and writes nothing. |
| `AccountingOutcomes.ReservationAuthorizedExactly` | crates/nwc-mobile/src/payment_accounting.rs:733-788 | With storable arguments a reservation is refused as unavailable if and only if the connection is missing, has another revision, is inactive, has an expiry that is not after now, or may not pay. |
| `AccountingOutcomes.KnownReservation` | crates/nwc-mobile/src/payment_accounting.rs:304-324 | A repeated event gets its own attempt only for the same hash, connection, revision and principal; another event's hash is already tracked; neither changes anything. |
| `AccountingOutcomes.NewReservationColumns` | crates/nwc-mobile/src/payment_accounting.rs:332-409 | Every column of a new attempt, and the one period row it debits: the period that covers now, by principal and fee reserve. |
| `AccountingOutcomes.InitiationExactly` | crates/nwc-mobile/src/payment_accounting.rs:415-445 | When the marker is accepted, what it writes, and its error. |
| `AccountingOutcomes.PendingExactly` | crates/nwc-mobile/src/payment_accounting.rs:477-485 | When an attempt becomes or stays pending, what is written, and the two errors. |
| `AccountingOutcomes.ReleaseExactly` | crates/nwc-mobile/src/payment_accounting.rs:447-475 | A release takes effect if and only if the attempt is an unmarked reservation at a legal time; it removes both rows and gives principal and fee reserve back to one counter. |
| `AccountingOutcomes.FailureExactly` | crates/nwc-mobile/src/payment_accounting.rs:486-524 | A failure is recorded if and only if the attempt is marked and not settled at a legal time, and gives principal and fee reserve back once. |
| `AccountingOutcomes.SettlementExactly` | crates/nwc-mobile/src/payment_accounting.rs:526-605 | When a settlement is recorded, both amounts rounded up, the charge by fee policy, the overrun flag, and the exact move of the period's counter, also after a failure. |
| `AccountingOutcomes.SettlementRepeats` | crates/nwc-mobile/src/payment_accounting.rs:560-575 | Recording a settlement again never changes anything, and is accepted only for amounts that round to the recorded ones. |
| `PaymentSafety.BudgetIsConserved` | crates/nwc-mobile/src/payment_accounting.rs:288-605 | In every run, with any number of engines and reconcilers, crashes and wallet answers, each period's counter is its imported usage plus the sum of its attempts' debits. |
| `PaymentSafety.StepKeepsInv` | crates/nwc-mobile/src/engine.rs:560-733 | Every step of engine, reconciler, wallet and registry keeps the payment invariant, unless it arms a process by a marker on another event's row, or the wallet revives a key whose failure was recorded or is about to be. |
| `PaymentSafety.LivePaymentsStayDebited` | crates/nwc-mobile/src/engine.rs:572-733 | In every run of guarded steps, while the wallet may settle or has settled a payment under an event's key, that event's own attempt is durably marked, not failed, and its debit is inside its period's counter. |
| `PaymentSafety.RefundsAreCertified` | crates/nwc-mobile/src/host.rs:217-224 | In every guarded run, each step that gives a debit back does so only when the wallet certified the key dead, or was never called for it. |
| `PaymentOwners.OwnerRunIsGuarded` | crates/nwc-mobile/src/engine.rs:151-181 | If each event has at most one process at a time, engine or reconciler, every run is guarded, however many events are in flight and even if the wallet accepts a payment it rejected before. |
| `PaymentOwners.OwnedPaymentsStayDebited` | crates/nwc-mobile/src/engine.rs:572-733 | The coverage of live payments for any number of processes, one per event, killed at any step, with any wallet that honours reported failures but may accept a payment it rejected before. |
| `PaymentOwners.OwnedStartsAreUnresolved` | crates/nwc-mobile/src/engine.rs:669-691 | With one process per event, every wallet call follows its own durable reservation and marker and never a durable failure or success. |
| `PaymentResults.OneEventPerHash` | crates/nwc-mobile/src/engine.rs:525-543 | At most one event ever calls the wallet for a payment hash. |
| `PaymentResults.CallsAgree` | crates/nwc-mobile/src/engine.rs:663-691 | All wallet calls of one event are identical: key, invoice, amount, and the fee cap its reservation holds; the marker is durable. |
| `PaymentResults.SuccessIsOwnPayment` | crates/nwc-mobile/src/engine.rs:757-812 | A success answer is prepared only for an event whose own key was called and whose attempt is recorded as settled. |
| `PaymentRecords.SettlementIsRecordedAsReported` | crates/nwc-mobile/src/engine.rs:757-812 | In every run, whenever a reported settlement leads to a success answer, the row under its hash is settled with exactly the reported amount and fee, each rounded up by less than a satoshi, charges the amount, or amount and fee where the policy counts fees, and is the same in every later state. |
| `PaymentRecords.SettledRowsAreFinal` | crates/nwc-mobile/src/payment_accounting.rs:477-605 | A settled attempt keeps every column in every later state of every run. |
| `PaymentRecords.StartIsReportedExactly` | crates/nwc-mobile/src/engine.rs:693-732 | After a wallet call its own status is what is recorded; an error is recorded as a failure if and only if it is `Rejected` or `NotFound`, and as undecided otherwise. |
| `PaymentRecords.InquiryIsReportedExactly` | crates/nwc-mobile/src/engine.rs:612-662 | A status by hash is recorded as the wallet gave it only for an attempt marked before; one never marked is given back; an unknown payment goes on to the authorization check. |
| `PaymentRecords.FailureStep` | crates/nwc-mobile/src/engine.rs:813-842 | A reported failure leaves a failed row and its answer, or changes nothing. |
| `PaymentRecords.UndecidedStep` | crates/nwc-mobile/src/engine.rs:707-717 | An undecided answer makes a marked reservation pending and changes nothing else. |
| `PaymentRecords.OutcomeLasts` | crates/nwc-mobile/src/engine.rs:737-842 | A recorded outcome is still recorded at every later point of the run. |
| `PaymentLegacy.LegacyDebitIsFrozen` | crates/nwc-mobile/src/ledger.rs:229-247 | In every run, guarded or not, an unresolved debit of an older schema stays exactly as it was, and the wallet is never called for its event. |
| `PaymentAuthorization.CallIsAuthorizedExactly` | crates/nwc-mobile/src/engine.rs:663-691 | In every run each wallet call comes after the same process rechecked the attempt's exact authorization and then wrote its marker, in this order; the authorization is still active at the call if and only if no revocation of it committed since the recheck. |
| `PaymentAuthorization.CallMayFollowRevocation` | crates/nwc-mobile/src/engine.rs:663-691 | A concrete run from an empty ledger in which a revocation commits between the recheck and the wallet call. |
| `PaymentExactness.CoverageHoldsExactly` | crates/nwc-mobile/src/payment_accounting.rs:415-445 | For a documented wallet and any run from an initial ledger: all live payments are covered in every state and after every wallet call possible next, if and only if each effective marker of the run was found under its hash on the row of the marking process's own event. |
| `PaymentExactness.ForeignMarkUncovers` | crates/nwc-mobile/src/payment_accounting.rs:415-445 | After a marker on another event's row the process can call the wallet, and then a live payment has no attempt at all. |
| `PaymentExactness.QuietRunsMeetTheCondition` | crates/nwc-mobile/src/payment_reconciliation.rs:189-194 | If no reservation is released while another process stands between reading it and marking it, every marker is on its own row. |
| `PaymentResults.UnquietReleaseUncoversPayment` | crates/nwc-mobile/src/payment_reconciliation.rs:189-194 | A concrete nine-step run from an empty ledger in which a reconciler's release and a second event's reservation leave a submitted payment without an attempt. |
| `PaymentEngine.PaymentProcess.ExecutePayment` | crates/nwc-mobile/src/engine.rs:358-558 | Performs a run with at most one wallet call and one reservation, none for an event that already owns an attempt; each way to end has its own answer; a paid answer only when a settlement with the reported amounts is recorded. |
| `PaymentEngine.PaymentProcess.QuoteAndReserve` | crates/nwc-mobile/src/engine.rs:404-556 | An invoice is unusable exactly when it is empty or above 16384 bytes. What is reserved is the quoted hash and the quoted principal rounded up, once; a wallet call only after that reservation. |
| `PaymentEngine.PaymentProcess.ReserveAndContinue` | crates/nwc-mobile/src/engine.rs:434-556 | The one reservation asked for is this event's with this hash and principal; a refused one ends with the error of that transaction. |
| `PaymentEngine.PaymentProcess.ContinuePayment` | crates/nwc-mobile/src/engine.rs:560-733 | At most one wallet call and no reservation, no call for a legacy or failed attempt; an external status releases the reservation, and only an unmarked one; every other end recorded what the wallet said; a paid answer only when the settlement is recorded as reported. |
| `PaymentEngine.PaymentProcess.AskAndContinue` | crates/nwc-mobile/src/engine.rs:612-662 | Without an unknown status there is no wallet call, and the status recorded is the one the wallet gave. |
| `PaymentEngine.PaymentProcess.AuthorizeAndStart` | crates/nwc-mobile/src/engine.rs:663-733 | At most one wallet call, only if the attempt's revision was active at the recheck, and none for an attempt read as settled; rejected before a call only for an inactive revision; a paid answer only when the settlement is recorded as reported. |
| `PaymentEngine.PaymentProcess.StartAndFinish` | crates/nwc-mobile/src/engine.rs:688-733 | One wallet call; its own status is recorded, a refusal before submission as a failure, and any other error as undecided. |
| `PaymentEngine.PaymentProcess.FinishPaymentStatus` | crates/nwc-mobile/src/engine.rs:737-842 | No wallet call; the reported status is recorded, a settlement with its own rounded amounts and policy charge; a paid answer is returned exactly when it was prepared, and only if the authorization is active at that point. |
| `PaymentEngine.PaymentProcess.RefuseInactive` | crates/nwc-mobile/src/engine.rs:1165-1175 | Goes on only if the event's exact revision is active; rejects only if it is not. |
| `PaymentEngine.PaymentProcess.ReconcileOne` | crates/nwc-mobile/src/payment_reconciliation.rs:168-219 | One reviewed attempt is counted under the heading its own answer demands; a settled or failed one is recorded with the reported amounts, a discarded one released. |
| `PaymentEngine.PaymentProcess.Reconcile` | crates/nwc-mobile/src/payment_reconciliation.rs:142-231 | Refuses exactly the batch sizes outside 1 to 100, without a step. The report of a pass counts exactly the batch without its marked reservations, or a first part of it when interrupted, each under the heading of its answer; it asks for another pass unless every attempt was resolved and no others wait; no payment is started. |
| `PaymentEngine.PaymentProcess.LoadBatch` | crates/nwc-mobile/src/payment_reconciliation.rs:160-162 | All snapshots of a pass are read from the same tables, without changing them. |
| `Rotation.NumbersStayStorable` | crates/nwc-mobile/src/payment_accounting.rs:638-680 | In every run all sequence numbers fit their column, so numbering a batch never overflows. |
| `Rotation.LoadMovesSkippedExactly` | crates/nwc-mobile/src/payment_accounting.rs:631-683 | One pass that skips an open attempt: its exact new place, nearer by the whole limit if and only if the numbers were not restarted or as many open attempts precede it by event id alone as did in the queue. |
| `Rotation.PassesAdvanceExactly` | crates/nwc-mobile/src/payment_accounting.rs:631-683 | Over every run that skips an open attempt, all passes bring it nearer by their limits if and only if each meets that condition. |
| `Rotation.NoAttemptStarves` | crates/nwc-mobile/src/payment_accounting.rs:617-684 | Under that condition all passes that skip an open attempt have together no more room than there are attempts in front of it, whatever is reserved, resolved or released meanwhile. |
| `Rotation.PlaceIsKeptWithRoom` | crates/nwc-mobile/src/payment_accounting.rs:638-646 | The condition holds as long as the numbers in use leave room for every load and reservation of the run. |
| `RotationLimits.RestartsCanStarve` | crates/nwc-mobile/src/payment_accounting.rs:638-646 | A concrete run from an empty table, then as many passes as wanted, none of which loads the same open attempt. |
| `RotationLimits.ReservationRefusedExactly` | crates/nwc-mobile/src/payment_accounting.rs:332-339 | A reservation finds no number if and only if some attempt, settled or not, holds the largest one. |
| `RotationLimits.LoadFreesNumbersExactly` | crates/nwc-mobile/src/payment_accounting.rs:638-646 | The next pass frees the largest number if and only if no settled attempt holds it. |
| `RotationLimits.RefusedForever` | crates/nwc-mobile/src/payment_accounting.rs:332-339 | Once a settled attempt holds the largest number, every later reservation in every run is refused. |
| `RotationLimits.NumbersCanRunOut` | crates/nwc-mobile/src/payment_accounting.rs:332-339 | A run from an empty table that ends there. |
| `RotationQueue.AttemptQueue.LoadUnresolved` | crates/nwc-mobile/src/payment_accounting.rs:617-684 | The transaction takes the first open attempts of the queue and gives them the next numbers in their order, or the numbers from one after all open attempts were set to zero when a number would leave the column; every other row keeps its number; an unstorable limit changes nothing. |
| `RotationQueue.AttemptQueue.ReserveAttempt` | crates/nwc-mobile/src/payment_accounting.rs:332-339 | A new attempt goes behind every other, or is refused without a change. |
| `Ledger.WakeLedger.ClaimEvent` | crates/nwc-mobile/src/ledger.rs:515-609 | The method performs the claim function on its rows; what that function writes is stated in columns in `LedgerOutcomes`. |
| `Ledger.WakeLedger.AcceptEventFreshness` | crates/nwc-mobile/src/ledger.rs:612-630 | Sets the flag for the live owner; everyone else gets a lost lease and no change. |
| `Ledger.WakeLedger.RenewLeaseRow` | crates/nwc-mobile/src/ledger.rs:633-660 | Moves the not-before time for the live owner only. |
| `Ledger.WakeLedger.RetryEventLater` | crates/nwc-mobile/src/ledger.rs:663-692 | Releases a live claim into a delayed retry. |
| `Ledger.WakeLedger.CompleteClaim` | crates/nwc-mobile/src/ledger.rs:695-722 | Makes a live claim terminal with the given kind and response. |
| `Ledger.WakeLedger.CompleteEventForActiveConnection` | crates/nwc-mobile/src/ledger.rs:768-833 | Authorization check and completion are one transaction; the two failures are told apart. |
| `Ledger.WakeLedger.PruneTerminal` | crates/nwc-mobile/src/ledger.rs:861-884 | Deletes only terminal rows before the cutoff, oldest first, as many as exist up to the bound, and reports their number. |
| `LedgerOutcomes.AcquiredRow` | crates/nwc-mobile/src/ledger.rs:533-600 | Every column of the row an acquired claim leaves, fresh or resumed; it ends exactly at now plus the whole seconds of the lease. |
| `LedgerOutcomes.UnacquiredClaim` | crates/nwc-mobile/src/ledger.rs:547-576 | The other answers change nothing and name the remaining wait or the stored terminal columns. |
| `LedgerOutcomes.AcceptanceExactly` | crates/nwc-mobile/src/ledger.rs:612-630 | Acceptance takes effect if and only if the claim is live, and sets the flag. |
| `LedgerOutcomes.RenewalExactly` | crates/nwc-mobile/src/ledger.rs:633-660 | Renewal takes effect if and only if the claim is live, and ends the lease at now plus the whole seconds. |
| `LedgerOutcomes.ReleaseExactly` | crates/nwc-mobile/src/ledger.rs:663-692 | A release takes effect if and only if the claim is live, and makes the event claimable after the whole seconds of the delay. |
| `LedgerOutcomes.CompletionExactly` | crates/nwc-mobile/src/ledger.rs:695-722 | Completion takes effect if and only if the claim is live, and writes kind, response and time. |
| `LedgerOutcomes.AuthorizedCompletionExactly` | crates/nwc-mobile/src/ledger.rs:768-833 | Authorized completion needs the live claim of this connection revision and the active row of exactly this revision; a live claim without the latter is told that the connection is unavailable. |
| `LedgerOutcomes.PruneBatchExactly` | crates/nwc-mobile/src/ledger.rs:861-884 | A prune takes terminal rows before the cutoff, none newer than one it leaves, and stops early only when none is left. |
| `LedgerOutcomes.AbandonedClaimEnds` | crates/nwc-mobile/src/ledger.rs:566-600 | In every run: if nobody presents the token of an acquired claim or acquires its event, the row waits exactly the whole seconds of its lease; a claim of the same revision is told the remaining seconds before that, and takes the event over with its freshness flag at every time from it on. |
| `LedgerSafety.RunKeepsInv` | crates/nwc-mobile/src/ledger.rs:20-42 | In every interleaving, whatever the clocks say, rows satisfy the table checks and no token serves two rows. |
| `LedgerSafety.ClaimAcquiresExactly` | crates/nwc-mobile/src/ledger.rs:533-606 | Which outcome a claim has, as an equivalence on the row, its metadata and the caller's clock. |
| `LedgerSafety.ClaimNeverCorrupt` | crates/nwc-mobile/src/ledger.rs:992-1025 | A claim never reports corrupt data in a reachable state. |
| `LedgerSafety.AcceptedExactlyForOwner` | crates/nwc-mobile/src/ledger.rs:612-723 | Renew, accept, retry and complete succeed if and only if the caller owns the live claim (and, for authorized completion, matches an active connection revision); a failure changes nothing. |
| `LedgerSafety.OneWorkingToken` | crates/nwc-mobile/src/ledger.rs:1053-1059 | In no state do two tokens both work on one row. |
| `LedgerSafety.ClaimEndsExactly` | crates/nwc-mobile/src/ledger.rs:566-600 | A held claim ends exactly by replacement, release or completion; pruning never ends one. |
| `LedgerSafety.LostLeaseStaysLost` | crates/nwc-mobile/src/ledger.rs:612-723 | After a claim ended, every operation with its lease fails with a lost lease in every later state and changes nothing. |
| `LedgerSafety.ReleasedEventWaits` | crates/nwc-mobile/src/ledger.rs:566-600 | A released event is handed to no process before its whole delay passed, whatever happens meanwhile; then a matching claim takes it over with its freshness flag. |
| `LedgerSafety.RowsMoveForward` | crates/nwc-mobile/src/ledger.rs:578-630 | Until its row is pruned an event keeps its connection and revision, never loses the freshness flag, and a terminal row keeps every column. |
| `LedgerSafety.RevocationFencesCompletion` | crates/nwc-mobile/src/ledger.rs:783-833 | After a revocation commits, no later completion for that id and revision takes effect in any interleaving; the caller learns the connection is unavailable exactly when it still owns the live matching lease. |
| `LedgerSafety.CompletionIsAuthorized` | crates/nwc-mobile/src/ledger.rs:783-812 | A completed row's own connection revision was active at that instant. |
| `ExecutionSafety.StepKeepsInv` | crates/nwc-mobile/src/engine.rs:151-346 | Every step of claiming, freshness check, host call, commit, publication, crash, prune and revocation keeps the execution invariant. |
| `ExecutionResults.PublishesAreTheStoredResponse` | crates/nwc-mobile/src/engine.rs:1065-1155 | Every publication for an event until its row is pruned, across processes, retries and crashes, is the one response stored before it, and equals what the terminal row holds. |
| `Publication.PublicationIsAuthorizedExactly` | crates/nwc-mobile/src/engine.rs:1139-1154 | In every run each publication follows a check by the same process, for the same request and response and with no own step in between, that found the exact authorization active; it is still active at the publication if and only if no revocation of that connection committed since the check. |
| `Publication.PublicationMayFollowRevocation` | crates/nwc-mobile/src/engine.rs:1139-1154 | A concrete eight-step run from a new ledger that publishes after the revocation. |
| `ExecutionResults.HostCallsAreAdmitted` | crates/nwc-mobile/src/engine.rs:182-218 | Every secret load or wallet call follows an admission in the same round, at a checked second that is at most the maximum age after, and at most the maximum skew before, the event's creation. |
| `Freshness.FreshnessDecides` | crates/nwc-mobile/src/policy.rs:222-229 | The check leads to a rejection if and only if the event is more than the maximum skew ahead of, or more than the maximum age behind, the whole second the clock shows; otherwise it goes on with that second. |
| `Freshness.HostCallsAreTimely` | crates/nwc-mobile/src/engine.rs:182-218 | Every secret load and wallet call of every run goes back to an earlier step that read the device clock while the event was within the window. |
| `ExecutionResults.StaleRejectedNeverExecutes` | crates/nwc-mobile/src/engine.rs:182-190 | An event found stale and durably rejected has no wallet call and no publication until it is pruned. |
| `ExecutionResults.AcceptedEventResumes` | crates/nwc-mobile/src/ledger.rs:592-600 | Once accepted, an event may be resumed at any later time without the window check. |
| `ExecutionResults.UnprunedRowsMoveForward` | crates/nwc-mobile/src/ledger.rs:861-884 | Without a prune of its row an event keeps its round and its row moves only forward. |
| `ExecutionResults.LeaseCoversDeadline` | crates/nwc-mobile/src/engine.rs:1490-1498 | The claim lease outlasts the deadline for every sub-second clock value. |
| `ExecutionResults.LeaseIsTight` | crates/nwc-mobile/src/engine.rs:1490-1498 | A lease one second shorter would fail for some clock value, if and only if the budget does not end one nanosecond into a second. |
| `ExecutionResults.HostCallsAreExclusive` | crates/nwc-mobile/src/engine.rs:151-181 | While the clock does not go back, a process that may cross the host boundary holds its row, no other process may cross it for that event, and none can claim it. |
| `ExecutionOutcomes.PreparedLease` | crates/nwc-mobile/src/engine.rs:1490-1498 | The lease asked for is the remaining budget rounded up to whole seconds and one second more. |
| `ExecutionOutcomes.ClaimedRow` | crates/nwc-mobile/src/engine.rs:151-181 | A claim writes the request's own connection and revision, the clock's second and the end of its lease, and keeps the freshness flag. |
| `ExecutionOutcomes.ReleasedRow` | crates/nwc-mobile/src/engine.rs:1187-1216 | Giving back a live claim makes the event claimable five seconds later; without one nothing changes. |
| `ExecutionOutcomes.RejectedRow` | crates/nwc-mobile/src/engine.rs:1177-1185 | Rejecting a live claim makes the row terminal without a response; without one nothing changes. |
| `ExecutionOutcomes.CommittedRow` | crates/nwc-mobile/src/engine.rs:1095-1125 | A commit that takes effect held the live claim and the active authorization, and stores exactly the text and method handed in. |
| `ExecutionOutcomes.AcceptedRow` | crates/nwc-mobile/src/engine.rs:191-199 | The gate opens if and only if the claim is live, and sets only its flag and time. |
| `ExecutionEngine.WakeEngine.Execute` | crates/nwc-mobile/src/engine.rs:76-356 | The method performs a run. It is refused as unauthorized exactly when the authorization is not active; each cause rejects or releases the claim once as it must and has its own answers; nothing is disclosed, or a stored response is replayed, or the one text of the host's outcome is stored and at most then published; completed only for an answered request or a replay. |
| `ExecutionEngine.WakeEngine.ExecuteClaim` | crates/nwc-mobile/src/engine.rs:160-356 | A stored response is only replayed; an owner that has not passed the gate is rejected as stale exactly outside the window; otherwise the claim is executed. |
| `ExecutionEngine.WakeEngine.ClaimEvent` | crates/nwc-mobile/src/engine.rs:151-181 | Ends with a claim of this request, a stored response to replay, or an early answer, with no other step of the process. |
| `ExecutionEngine.WakeEngine.TakeClaim` | crates/nwc-mobile/src/engine.rs:151-181 | Which row leads to a claim, a replay, an answer that the event is processed, or a queued request, in columns; the claim starts working only with an accepted row. |
| `ExecutionEngine.WakeEngine.PassFreshness` | crates/nwc-mobile/src/engine.rs:182-199 | Goes on only if the event was within the window at the clock's second; ends as stale, with the claim rejected, exactly when it was not. |
| `ExecutionEngine.WakeEngine.ExecuteClaimed` | crates/nwc-mobile/src/engine.rs:201-356 | Nothing is disclosed, or exactly the text of the host's outcome is stored for the event and published at most after that; completed only for an answered request with one publication; each cause ends the claim as it must. |
| `ExecutionEngine.WakeEngine.WorkAndAnswer` | crates/nwc-mobile/src/engine.rs:869-1019 | A retryable host error releases the claim for a retry, a cancelled one queues it; an answered request is completed only under an active authorization, with its own text. |
| `ExecutionEngine.WakeEngine.EnsureClaimConnectionActive` | crates/nwc-mobile/src/engine.rs:1165-1175 | The request goes on only if its exact revision is active; the claim is rejected only if it is not, and released if that cannot be read. |
| `ExecutionEngine.WakeEngine.CommitAndPublish` | crates/nwc-mobile/src/engine.rs:1065-1125 | At most the given text is stored, and published at most after that as this text for this event and round; completed only with that publication, queued or rejected without one. |
| `ExecutionEngine.WakeEngine.StoreAndPublish` | crates/nwc-mobile/src/engine.rs:1095-1125 | Asks once to store the given text; a publication follows it with exactly this text; each failed completion publishes nothing and gets its own answer: rejected for a lost authorization, retry for a lost lease, queued for an oversized response, and otherwise the claim is given back. |
| `ExecutionEngine.WakeEngine.RepublishTerminal` | crates/nwc-mobile/src/engine.rs:1127-1155 | Publishes at most once, and then exactly the stored text of its round; completed only if it published and the authorization was active when it looked, rejected only if it was not. |
| `ExecutionEngine.WakeEngine.RespondWithError` | crates/nwc-mobile/src/engine.rs:1021-1063 | The given error text is stored and published like any other, then reported as a rejection; never completed. |
| `ExecutionEngine.WakeEngine.RejectClaim` | crates/nwc-mobile/src/engine.rs:1177-1185 | Rejects the claim once; reported as rejected only for the live owner, and as queued only without one or with an unstorable clock. |
| `ExecutionEngine.WakeEngine.GiveBack` | crates/nwc-mobile/src/engine.rs:1187-1216 | Releases the claim once; told to retry only for a transient cause and the live owner. |
| `Outbox.RerecordingKeepsCompletionExactly` | crates/nwc-mobile/src/invoice_notifications.rs:1214-1232 | Recording a completed invoice again keeps all relays acknowledged if and only if the new relay list is no longer than the stored one, or is refused. |
| `Outbox.LongerListReopensCompletion` | crates/nwc-mobile/src/invoice_notifications.rs:1214-1232 | A concrete completed invoice that has an unacknowledged relay after it is recorded again. |
| `OutboxOutcomes.RecordingSucceedsExactly` | crates/nwc-mobile/src/invoice_notifications.rs:1161-1235 | Which drafts are recorded, in their columns. |
| `OutboxOutcomes.RecordedRow` | crates/nwc-mobile/src/invoice_notifications.rs:1161-1235 | A new record starts at its creation time without an event; an old one keeps every column; both get the relays they lack. |
| `OutboxOutcomes.TouchExactly` | crates/nwc-mobile/src/invoice_notifications.rs:1365-1379 | A pending record moves to the time of the check, or one second on if the clock did not advance. |
| `OutboxOutcomes.StoreEventExactly` | crates/nwc-mobile/src/invoice_notifications.rs:1381-1418 | The first event stored for a pending record stays and everybody gets it back; each refusal has its error. |
| `OutboxOutcomes.AcknowledgementExactly` | crates/nwc-mobile/src/invoice_notifications.rs:1443-1458 | An acknowledgement marks that relay's unacknowledged rows with its time and nothing else. |
| `OutboxOutcomes.CompletionExactly` | crates/nwc-mobile/src/invoice_notifications.rs:1460-1479 | A record completes if and only if it is open, has its event and every relay is acknowledged, with the time of the call. |
| `OutboxSafety.PublicationsAreCanonical` | crates/nwc-mobile/src/invoice_notifications.rs:672-705 | All publications for an invoice, by any worker to any relay, are its record's one canonical event. |
| `OutboxSafety.CanonicalEventIsForever` | crates/nwc-mobile/src/invoice_notifications.rs:1381-1418 | A stored canonical event never changes and expiry never removes its record. |
| `OutboxSafety.CompletionMeansDelivered` | crates/nwc-mobile/src/invoice_notifications.rs:1460-1479 | A completed invoice's canonical event was accepted by every relay of its authorization. |
| `OutboxSafety.RerecordingChangesNothing` | crates/nwc-mobile/src/invoice_notifications.rs:1161-1235 | Recording the same request again is idempotent when relays come from the authorization. |
| `OutboxSafety.SentEventIsStable` | crates/nwc-mobile/src/invoice_notifications.rs:1065-1159 | In every run, until it is discarded, a sent payment keeps its event and completes only with every relay acknowledged. |
| `OutboxFairness.SkippingPassMakesProgress` | crates/nwc-mobile/src/invoice_notifications.rs:548-561 | Each pass that skips a pending invoice strictly lowers its waiting measure, whatever storable time the clock shows, whatever others do, and even if the pass aborts after its first record. |
| `OutboxFairness.NoInvoiceStarves` | crates/nwc-mobile/src/invoice_notifications.rs:1289-1312 | With storable clock values a pending invoice is skipped at most as often as the measure says, absent earlier-keyed arrivals. |
| `OutboxFairness.WorkersReadingsAreBounded` | crates/nwc-mobile/src/invoice_notifications.rs:548-561 | For any number of workers whose passes overlap in one run: a record that waits at its place is skipped by at most as many readings as workers times its measure. |
| `OutboxFairness.TouchMakesProgressExactly` | crates/nwc-mobile/src/invoice_notifications.rs:1365-1379 | Touching the first record makes progress if and only if the clock value is storable and its last check is below the largest storable time; otherwise the update fails and the record stays in front. |
| `OutboxFairness.SaturatedRecordStaysFirst` | crates/nwc-mobile/src/invoice_notifications.rs:1365-1379 | A concrete queue whose first record can never be moved back. |
| `OutboxWorker.NotificationWorker.RunScoped` | crates/nwc-mobile/src/invoice_notifications.rs:462-563 | A pass that returns normally reports exactly one heading for each record it inspected, at most forty. Unless cancelled, a pass with a nonempty batch touched the first record of its batch after the point of the run at which it read it, also when it fails later; if the clock value is storable it is a skipping pass for every record of its scope that waited outside the batch. |
| `OutboxWorker.NotificationWorker.RunInvoices` | crates/nwc-mobile/src/invoice_notifications.rs:548-562 | The loop over the rows as they were read reports one heading for each; unless cancelled at once, it touches the first record in the actions it adds. |
| `OutboxWorker.NotificationWorker.RunInvoice` | crates/nwc-mobile/src/invoice_notifications.rs:570-587 | One exact invoice: one heading if and only if it is pending; delivered only when durably completed. |
| `OutboxWorker.NotificationWorker.ProcessInvoice` | crates/nwc-mobile/src/invoice_notifications.rs:589-717 | The touch is the first new action; on success the record gets one heading: delivered only when durably completed, retryable whenever a relay refused, and one of these two once it has an event. |
| `OutboxWorker.NotificationWorker.ObtainEvent` | crates/nwc-mobile/src/invoice_notifications.rs:601-665 | Counts the record by what was learnt, without a publication: expired for a revoked authorization and exactly a day after the end of an unsettled invoice; or ends holding the canonical event of a settled one under an active authorization. |
| `OutboxWorker.NotificationWorker.DeliverInvoice` | crates/nwc-mobile/src/invoice_notifications.rs:666-717 | Publishes what is missing; retryable if and only if a relay refused or the time ran out, else completed and delivered. |
| `OutboxWorker.NotificationWorker.DeferOrExpireInvoice` | crates/nwc-mobile/src/invoice_notifications.rs:719-737 | Expired, with its deletion tried, exactly when the clock reading reached one day after the invoice's end, saturating; before that pending and nothing changes. |
| `OutboxWorker.NotificationWorker.ProcessSent` | crates/nwc-mobile/src/invoice_notifications.rs:479-546 | One sent payment gets one heading: expired if and only if its authorization is not active; delivered only when every undelivered relay took it, and retryable, without ending the loop, only when one did not. |
| `OutboxWorker.NotificationWorker.DeliverSent` | crates/nwc-mobile/src/invoice_notifications.rs:516-546 | Delivered if and only if every relay that was undelivered when read took the event in time. |
| `OutboxWorker.NotificationWorker.RunSent` | crates/nwc-mobile/src/invoice_notifications.rs:475-547 | The payment loop reports one heading for each payment it inspected, through both breaks. |
| `OutboxWorker.NotificationWorker.PendingInvoices` | crates/nwc-mobile/src/invoice_notifications.rs:1289-1343 | At most twenty pending records of the scope, ordered by last check, creation and id; a pending record is left out only when the batch is full, and then comes after all of it. |
| `Registry.ColumnsRoundTrip` | crates/nwc-mobile/src/connection_registry.rs:974-1039 | Decoding each encoded column gives back the value, for every encryption, interval, storable fee policy and method set. |
| `RegistrySafety.RunKeepsInv` | crates/nwc-mobile/src/connection_registry.rs:434-532 | In every run active rows have methods and one to eight distinct relays, revoked rows have none, key pairs are unique, and wake rows match their connection. |
| `RegistrySafety.LoadNeverCorrupt` | crates/nwc-mobile/src/connection_registry.rs:827-890 | Loading never reports corrupt data in a reachable state. |
| `RegistrySafety.RowsAreMonotone` | crates/nwc-mobile/src/connection_registry.rs:713-775 | Revisions only increase, keys and limits never change, and a tombstone is final. |
| `RegistrySafety.IdsAndKeysInsertedOnce` | crates/nwc-mobile/src/connection_registry.rs:434-462 | An identifier or key pair that was ever inserted is refused in every later state, revoked or not. |
| `RegistrySafety.StoreThenLoad` | crates/nwc-mobile/src/connection_registry.rs:407-545 | A stored authorization is loaded unchanged in every field until its revision is revoked, and then as its tombstone. |
| `RegistrySafety.TombstoneLeavesDisabledWake` | crates/nwc-mobile/src/connection_registry.rs:756-799 | A revocation leaves a disabled wake registration at the new revision with the old relay list. |
| `RegistrySafety.TombstoneSucceedsExactly` | crates/nwc-mobile/src/connection_registry.rs:713-760 | Revocation succeeds if and only if that exact revision is active and the time is storable and not before creation; a failure changes nothing. |
| `RegistrySafety.RevokedStaysDisabled` | crates/nwc-mobile/src/wake_registration.rs:181-238 | After a revocation no requeue, retry, acknowledgement or insertion enables the connection again. |
| `RegistrySafety.RegistryRefinesAuthority` | crates/nwc-mobile/src/ledger.rs:783-812 | Every registry step is at most one registration or revocation of what event completion reads, so the ledger's fence applies to the registry. |
| `RegistrySafety.ImportedUsageReadsBack` | crates/nwc-mobile/src/application_metadata.rs:194-226 | With no payments an imported usage is reported unchanged exactly within the import's own period and as zero in every later one. |
| `RegistryOutcomes.ValidExactly` | crates/nwc-mobile/src/connection_registry.rs:107-143 | A connection is valid if and only if it has two different curve keys, one to eight different relays and some method. |
| `RegistryOutcomes.InsertionSucceedsExactly` | crates/nwc-mobile/src/connection_registry.rs:407-545 | An insertion succeeds if and only if its values are storable and its identifier and key pair are free. |
| `RegistryOutcomes.ImportSucceedsExactly` | crates/nwc-mobile/src/connection_registry.rs:390-405 | An import also needs a creation time that is not in the future and a use within the limit and the granted methods. |
| `RegistryOutcomes.InsertedColumns` | crates/nwc-mobile/src/connection_registry.rs:434-532 | Every column of the connection row and of the enabled wake registration a new connection gets; nothing else changes. |
| `RegistryOutcomes.InsertedPeriod` | crates/nwc-mobile/src/connection_registry.rs:480-510 | An imported use opens exactly the period that covers the import, with that use. |
| `RegistryOutcomes.RevocationExactly` | crates/nwc-mobile/src/connection_registry.rs:713-805 | Success exactly on the active row of the expected revision at a time not before its creation, and the columns of the tombstone; a failure changes nothing. |
| `RegistryOutcomes.RevocationErrors` | crates/nwc-mobile/src/connection_registry.rs:724-760 | Not found, already revoked and stale revision, each exactly in its case. |
| `RegistryOutcomes.MergedRelaysExactly` | crates/nwc-mobile/src/connection_registry.rs:763-799 | The disabled registration keeps its relays and gets every later relay of the row, once, and no other. |
| `RegistryOutcomes.RequeuedRow` | crates/nwc-mobile/src/wake_registration.rs:181-238 | A requeue gives every active connection a fresh registration of the wanted kind and leaves the others. |
| `RegistryOutcomes.RetryExactly` | crates/nwc-mobile/src/wake_registration.rs:323-380 | A retry counts one more attempt and waits the delay if and only if the delivered change is still the stored one and attempts can be counted. |
| `RegistryOutcomes.LoadsExactly` | crates/nwc-mobile/src/connection_registry.rs:827-929 | A row is loaded if and only if its columns are readable; any other row is reported as corrupt. |
| `ConnectionService.ConnectionManager.InsertConnectionState` | crates/nwc-mobile/src/connection_registry.rs:407-545 | Connection, imported period and wake registration commit together, or nothing does. |
| `ConnectionService.ConnectionManager.Import` | crates/nwc-mobile/src/connection_registry.rs:390-405 | Import with its three preconditions. |
| `ConnectionService.ConnectionManager.TombstoneConnection` | crates/nwc-mobile/src/connection_registry.rs:713-805 | The revocation transaction, error by error. |
| `ConnectionService.ConnectionManager.MigrateLegacyBatch` | crates/nwc-mobile/src/connection_service.rs:234-261 | The batch loop computes the migration function, including what stays imported after an error. |
| `ConnectionService.ConnectionManager.RevokeHostConnection` | crates/nwc-mobile/src/connection_service.rs:288-300 | A missing connection is not found, a revoked one is left as it is, an active one gets the tombstone of its own revision; a failure changes nothing. |
| `Migration.MigrationResumes` | crates/nwc-mobile/src/connection_service.rs:234-261 | If a batch would succeed, stopping after any prefix and running it again at any legal times reports the same and leaves the same authorizations as one uninterrupted run. |
| `Migration.SecondRunChangesNothing` | crates/nwc-mobile/src/connection_service.rs:234-261 | A second successful run changes nothing and reports the same. |
| `Migration.ReportsAreTombstones` | crates/nwc-mobile/src/connection_service.rs:250-257 | The result names exactly the records tombstoned before the run, in batch order. |
| `Migration.MigrateKeepsRows` | crates/nwc-mobile/src/connection_service.rs:239-258 | Migration, successful or not, never touches a row that was there before, so nothing is resurrected. |
| `Migration.MigratedRecord` | crates/nwc-mobile/src/connection_service.rs:234-261 | What one record does: a new one is imported, an active one must agree in every authorization column, a revoked one is reported and stays revoked. |
| `Nwa.MobileFeeIsMonotone` | crates/nwc-mobile/src/application.rs:826-833 | The fee reserve grows with the limit and never exceeds the limit or a thousand satoshi. |
| `Nwa.MobileFeeLeavesRoom` | crates/nwc-mobile/src/application.rs:826-833 | A limit exceeds its fee reserve if and only if it is above ten satoshi. |
| `Nwa.MobileFeeIsFivePercent` | crates/nwc-mobile/src/application.rs:826-833 | Five percent between ten and a thousand satoshi; a limit below ten is reserved whole. |
| `Nwa.SubsetExactly` | crates/nwc-mobile/src/connection_service.rs:335-409 | Exactly which reviewed connections are accepted for a request, column by column. |
| `Nwa.ApprovalExactly` | crates/nwc-mobile/src/connection_service.rs:303-333 | An accepted connection is inserted as it is once its callback could be built; every failure changes nothing. |
| `Nwa.ApprovalStaysWithinRequest` | crates/nwc-mobile/src/connection_service.rs:335-409 | What an approval persists, and what is loaded of it in every later state, is contained in the request; a failure leaves the registry unchanged. |
| `Nwa.ApprovedPaymentsAreUsable` | crates/nwc-mobile/src/connection_service.rs:394-395 | An approved payment grant leaves room beside its fee reserve. |
| `Nwa.NwaSession.OpenRequest` | crates/nwc-mobile/src/mobile_service.rs:492-509 | Retains a parsed request exactly when none is under review. |
| `Nwa.NwaSession.ApprovePending` | crates/nwc-mobile/src/mobile_service.rs:521-545 | Approves exactly the retained request of the expected identifier; success empties the slot and persists authority within the request; any failure leaves slot and registry unchanged. |
| `Foreground.RetriesAreBounded` | crates/nwc-mobile/src/foreground.rs:170-227 | Over any sequence of calls: each terminal disposition finishes with its own outcome, retries between two clearings are bounded, the k-th queued wait, exhaustion that clears all state, and no effect on other identifiers. |
| `Foreground.CounterCountsRetries` | crates/nwc-mobile/src/foreground.rs:213-221 | The counter is the number of retry decisions since the last clearing. |
| `Foreground.BackoffDoubles` | crates/nwc-mobile/src/foreground.rs:229-233 | Queued waits double until the thirty-second doubling or the longest duration, and never shrink. |
| `Foreground.ForegroundWakeCoordinator.HandleWake` | crates/nwc-mobile/src/foreground.rs:170-199 | The method performs the decision function on its own set and map. |
| `Foreground.ForegroundWakeCoordinator.NextAttempt` | crates/nwc-mobile/src/foreground.rs:213-221 | Counts one more retry unless the allowance is used up. |
| `Pager.PrepareTransactionPage` | crates/nwc-mobile/src/host.rs:815-830 | The page is the requested window of the one stable newest-first order of the matching transactions. |
| `Pager.MatchingExactly` | crates/nwc-mobile/src/host.rs:794-811 | Exactly which transactions are shown: between the bounds, in the wanted direction, and paid unless all are wanted. |
| `Pager.StableSortIsUnique` | crates/nwc-mobile/src/host.rs:823-823 | Newest-first order and stability determine the order completely. |
| `Pager.PagesCoverEverythingOnce` | crates/nwc-mobile/src/host.rs:824-829 | Consecutive pages show every matching transaction exactly once, in order. |

## Left out

- Cryptography, event validation and signing, relay transport, JSON, invoice and URL parsing: their results are nondeterministic or opaque values.
- SQL text, schema migration and connection handling: each transaction is one atomic step, and a failed database access is a step that does not happen.
- Response length is counted in characters of the model's strings, which stand for bytes.
- PaymentEngine.PaymentProcess.ExecutePayment: ends where the response is prepared; storing and publishing it is the subject of `ExecutionEngine`. Whether the sent-payment record made before a success answer succeeded is a nondeterministic outcome.
- PaymentRecords.SettlementIsRecordedAsReported: assumes that rows settled before the run charge by their connection's fee policy, which no later step changes.
- PaymentEngine.PaymentProcess.AuthorizeAndStart: that authorization, marker and call come in this order is not in its contract but proved of every run in `PaymentAuthorization.CallIsAuthorizedExactly`.
- PaymentEngine.PaymentProcess.Reconcile: takes the loaded batch as an argument; which attempts a pass loads is the subject of `Rotation`.
- PaymentEngine.PaymentProcess.LoadBatch: the sequence numbers it advances are the subject of `Rotation`.
- Accounting.BudgetDecides: leaves out the one other refusal, a reservation without a free sequence number, which is stated in `RotationLimits.ReservationRefusedExactly`.
- PaymentOwners.OwnedPaymentsStayDebited: assumes one process per event; the leases give this only until the claim's deadline.
- PaymentSafety.LivePaymentsStayDebited: starts from a ledger whose attempts are settled or unresolved debits of an older schema; new reservations are made in the run.
- ExecutionEngine.WakeEngine.WorkAndAnswer: which of the host's errors are retried, cancelled or answered is part of the outcome handed in, as is the text of each answer.
- ExecutionEngine.WakeEngine.Execute: relay approval, event fetching, validation and request parsing before and after the claim are nondeterministic outcomes; the wallet work of one request is any number of host calls.
- ExecutionResults.HostCallsAreExclusive: a call counts when it starts; that it also ends by its deadline is the host's timeout.
- OutboxSafety.SentEventIsStable: publications of sent payments are not logged, and discarding a record while another worker publishes it is not followed further.
- OutboxWorker.NotificationWorker.RunScoped: takes the batch of sent payments as an argument; its order by creation time is not modelled.
- Relay rows of a wake registration are part of its outbox row, as the cascade rule makes them.
- Loading due wake registrations, the info-event outbox, connection metadata and last-use times.
- The registration and callback coordinators, the application manager and host-input normalization: one-branch bookkeeping.
- Encryption chosen by an approval is not compared with the request, as in the source.
