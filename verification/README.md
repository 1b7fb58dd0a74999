# Escrow path of hire-flow: a Dafny model

hire-flow pays freelancers through an escrow. A client's money is *held* in the payments service when a contract is
created, *transferred* to the freelancer when the contract is completed, or *released* when it is declined. Two services
with a database each take part, joined by HTTP calls, a transactional outbox and an event stream. This project models
that path and proves what it promises over every run.

## What is modelled

- **Payments ledger** (`PaymentsDb`, `PaymentHandler`): wallets, holds, the append-only transaction table and the outbox,
  changed by `HoldFunds`, `ReleaseFunds`, `TransferFunds` and `Seed`. The available balance is not stored: it is the
  balance minus the sum of active holds, recomputed at every read. `PaymentHandler.Handler` runs the handlers statement by
  statement, with early answers and rollback; each is proved equal to a function from one committed state to the next,
  and the promises are proved about those functions (`LedgerInvariants`, `LedgerTheorems`, `LedgerEvents`).
- **Row locks** (`LedgerLocks`): the same three handlers interleaved statement by statement, each keeping its row locks to
  the end. Every interleaving is shown to be a run of the atomic functions.
- **Contract saga** (`ContractsDb`, `Saga`): nine statuses moved only by compare-and-set, events written in the same
  transactions. `Saga.SagaOrchestrator` has the methods with their local transactions in sequence.
- **Consumer** (`Consumer`, `SagaOrchestrator.ConsumeBatch`): decode, dispatch, ack, nak or term.
- **Outbox** (`Outbox`, `OutboxRelay`, `OutboxDrain`): the publish-then-mark loop over a table, any number of publishers
  with locked batches, and the drain of a table by one publisher. Both services have such a publisher; the generic class
  stands for both.
- **The whole system** (`Escrow` and the `Escrow*` modules): both databases, every call in progress with its program
  counter and its HTTP request, the publishers of the payments outbox, and the bags of unacknowledged and of handled
  messages, under a step relation. `EscrowInvariant` holds the one inductive invariant; the main results are in
  `EscrowTheorems`, `EscrowBalances`, `EscrowRecords`, `EscrowRetry`, `EscrowWakeUp`, `EscrowTrap` and `EscrowStream`;
  `EscrowExample` walks through one reachable run.

Rows of all tables are never deleted and get fresh keys, so a table is a sequence and a key is a position; a key at or
past the end names no row, and `None` stands for a nil UUID. Amounts are integers; where the code computes in int64 the
wrap-around is written out, and a wrapped balance is negative and refused by the table's check, as in the source.

## Assumptions

- A committed database transaction is one atomic step, and nobody sees its writes before it commits. Inside a
  transaction a statement fails only by a compare-and-set that matches no row or by a table check; other faults abort the
  whole transaction.
- The active-hold sum read with a locked wallet row is current once the lock is granted. `AcceptedHoldCoverage` shows
  that coverage needs exactly this, and `StaleSumOverdraws` what happens without it.
- Contract ids and hold ids are fresh; only the saga asks payments to hold, release or transfer for a contract.
- An HTTP request is executed at most once. It may be executed late, or never, and its caller may see an error whatever
  became of it. A process may stop between any two steps.
- The broker keeps what it accepted until it is acknowledged; it may deliver a message again at any time and in any order.
- Clock values, broker answers and commit failures are parameters.

## Where code and documentation disagree

- `saga.go` (lines 27-28, 236 and 291) calls retries from COMPLETING and DECLINING idempotent. Once the hold is settled
  payments answers 409, which the client reports as an error, so a lost answer strands the contract. And `CreateContract`
  asks of the freelancer wallet id only that there is one: if it is the client's own wallet every transfer is answered 400,
  if it names no wallet 404, and the hold stays active for good. `RetryFinishesIff` gives the exact condition;
  `RetryIsNotIdempotent` is a reachable contract that is paid and can never be COMPLETED, `SelfPaidContractExists` and
  `MissingPayeeContractExists` are reachable ones that are COMPLETING with an active hold and can never be settled.
- `HandlePaymentFailed` is meant to cancel a contract whose hold failed. In the code that contract has been cancelled by its
  own creation, or is still PENDING; the handler never succeeds, and `FailedEventNeverLeaves` shows that its event is
  delivered again for good. `MessageLeavesIff` says exactly which messages can leave the stream.
- `CreateContract` cancels the contract when the hold request fails, and nothing releases a hold whose answer was lost; a
  process that stops before the hold is recorded leaves a PENDING contract nobody moves. `ActiveHoldSettlesIff` says
  exactly which holds can still be settled, `TrappedHoldExists` is a cancelled contract with money held for good.
- The diagram in `contract.go` lets accept and cancel start at HOLD_PENDING and a payment.failed event cancel from there.
  In the code both calls start at AWAITING_ACCEPT, and `OnlyDiagramEdges` shows that the edge from HOLD_PENDING to
  CANCELLED is never taken. The model follows the code.

## Model

| member | source | states |
|---|---|---|
| EscrowTheorems.PayoutExclusive | services/contracts/cmd/server/saga.go:237-343 | In every reachable state a settled hold is its contract's recorded hold, transferred only under COMPLETING or COMPLETED and released only under DECLINING or DECLINED; wallet and amount are the contract's; no contract has two holds |
| EscrowTheorems.SettlementIsFinal | services/payments/cmd/server/handler.go:194-204 | Over any run a hold keeps wallet, amount and contract, and once released or transferred never changes again |
| EscrowTheorems.CompletedIsPaidOnce | services/payments/cmd/server/handler.go:333-355 | COMPLETED implies the ledger rows of the contract's hold are exactly: the hold, one debit of the amount on the client wallet, one credit of it on the freelancer wallet |
| EscrowTheorems.DeclinedIsReleasedOnce | services/payments/cmd/server/handler.go:199-211 | DECLINED implies those rows are exactly the hold and one release, and no transfer |
| EscrowTheorems.OnlyDiagramEdges | services/contracts/cmd/server/saga.go:168-177 | Every step of the system moves a contract along an edge of the state diagram or not at all, and never from HOLD_PENDING to CANCELLED |
| EscrowTheorems.ContractOnlyAdvances | services/contracts/cmd/server/contract_store.go:44-60 | Over any run a contract's parties, amount and recorded hold id stay, and its status never goes back |
| EscrowTheorems.AtMostFiveMoves | services/contracts/cmd/server/saga.go:100-323 | However many calls, retries and events a run holds, a contract's status changes at most five times |
| EscrowTheorems.EventsFollowStatus | services/contracts/cmd/server/saga.go:94-343 | In every reachable state the exact sequence of events in a contract's outbox is a function of its status, with no type twice |
| EscrowTheorems.HoldIdExact | services/contracts/cmd/server/saga.go:130-135 | A hold id is recorded exactly when the contract is neither PENDING nor CANCELLED, and names the hold of that contract, wallet and amount |
| EscrowTheorems.HoldIdNeverMissing | services/contracts/cmd/server/saga.go:254-256 | A call about to settle always has a hold id, so the "no hold_id" errors of both calls are unreachable |
| EscrowTheorems.CompensationNeverConflicts | services/contracts/cmd/server/saga.go:96-102 | The compensation's compare-and-set, whose failure is only logged, always succeeds, since PENDING is left only by its own call |
| EscrowTheorems.NoLostWakeUp | services/contracts/cmd/server/main.go:181-217 | While a committed hold's contract is PENDING or HOLD_PENDING, its payment.held event is unmarked in the outbox or unacknowledged in the stream |
| EscrowTheorems.DeliveryMovesExactlyWhenWaiting | services/contracts/cmd/server/saga.go:160-164 | A held event moves its contract exactly when it is HOLD_PENDING; otherwise nothing changes and the message stays unacknowledged |
| EscrowTheorems.StaleEventsChangeNothing | services/contracts/cmd/server/main.go:200-216 | Once a contract has left HOLD_PENDING, no payment event about it in any later state changes the contracts database |
| EscrowTheorems.EscrowCovered | services/payments/cmd/server/handler.go:73-117 | For every client wallet the amounts of all contracts whose recorded hold is unsettled add up to at most its active holds, and those to at most its balance |
| EscrowTheorems.MoneyIsConserved | services/payments/cmd/server/handler.go:285-325 | In every reachable state balances add up to the first seeds and no balance or active-hold sum exceeds them; while they fit in an int64 no credit of an active hold overflows |
| EscrowTheorems.HeldContractIsPayable | services/contracts/cmd/server/saga.go:201-260 | In HOLD_PENDING, AWAITING_ACCEPT and ACTIVE a transfer of the recorded hold to the freelancer succeeds exactly when that wallet exists, is not the client's and has room in its int64 |
| EscrowBalances.BalancesFollowContracts | services/payments/cmd/server/handler.go:315-331 | In every reachable state each balance is the first seed, plus the amounts of paid contracts where the wallet is the freelancer's, minus those where it is the client's |
| EscrowRecords.PartiesAreTheCreators | services/contracts/cmd/server/saga.go:57-92 | A contract keeps over any run the client wallet, freelancer wallet and amount its creation was called with; once COMPLETED exactly that client was debited and that freelancer credited that amount, once DECLINED that client got it back |
| EscrowRecords.HoldEventsFollowStatus | services/payments/cmd/server/handler.go:136-376 | In every reachable state the events of a hold are exactly one payment.held, then nothing while active, one payment.released when released, one payment.transferred from client to freelancer when transferred |
| EscrowRecords.FailureIsAnnounced | services/payments/cmd/server/handler.go:73-115 | In every reachable state a contract has exactly one payment.failed event, with its client and amount, if and only if its hold request was refused for lack of funds, and none otherwise |
| EscrowRecords.OneWalletPerUser | services/payments/cmd/server/wallet_store.go:66-79 | In no reachable state do two wallets belong to one user |
| EscrowRetry.RetryFinishesIff | services/contracts/cmd/server/saga.go:235-343 | A COMPLETING or DECLINING contract can still reach COMPLETED or DECLINED if and only if some call has the successful answer, or its hold is active and, for a transfer, the freelancer's wallet exists and is not the client's; over all continuations that do not give a missing wallet id to a new wallet, and over all whatsoever when none is missing; while the seeded total or the credit fits in an int64 |
| EscrowRetry.NoPayeeNeverFinishes | services/payments/cmd/server/handler.go:285-308 | After any run an ACTIVE or COMPLETING contract whose freelancer wallet is the client's own or does not exist is still one of the two with its hold active: never completed, never declined, never released |
| EscrowRetry.SelfPaidContractExists | services/contracts/cmd/server/handler.go:43-46 | A concrete reachable contract towards the client's own wallet, COMPLETING with an active hold, that no run completes or declines |
| EscrowRetry.MissingPayeeContractExists | services/contracts/cmd/server/handler.go:43-46 | One towards an id that names no wallet |
| EscrowRetry.OpenContractFinishesIff | services/contracts/cmd/server/saga.go:235-343 | Every reachable AWAITING_ACCEPT contract can be released and declined; an ACTIVE one can be paid and completed if and only if the freelancer's wallet exists and is not the client's; over the same continuations |
| EscrowRetry.OpenContractCanBeStranded | services/contracts/cmd/server/payments_client.go:107-131 | From every open contract that can finish some continuation settles the hold, loses the answer and leaves a contract that no further run can finish |
| EscrowRetry.RetryIsNotIdempotent | services/payments/cmd/server/handler.go:280-283 | A concrete reachable system with a paid contract that is COMPLETING and can never be COMPLETED |
| EscrowWakeUp.HeldContractCanWake | pkg/outbox/publisher.go:59-90 | From every reachable HOLD_PENDING contract some continuation without new wallets publishes and delivers its event and moves it to AWAITING_ACCEPT, whatever other batches are open or queued before it |
| EscrowWakeUp.EscrowCanBeReturned | services/contracts/cmd/server/saga.go:290-343 | From every reachable HOLD_PENDING or AWAITING_ACCEPT contract some continuation declines it |
| EscrowTrap.ActiveHoldSettlesIff | services/contracts/cmd/server/saga.go:57-343 | In every reachable state an active hold can still be released or transferred if and only if its contract is not CANCELLED, not PENDING with a creation that saw an error or ended, and not ACTIVE or COMPLETING without an existing freelancer wallet other than the client's; over the same continuations |
| EscrowTrap.AbandonedHoldIsTrapped | services/contracts/cmd/server/saga.go:93-121 | The hold of a contract that is CANCELLED, or PENDING after its creation gave up, is active and never changes again over any run |
| EscrowTrap.UnrecordedHoldCanBeTrapped | services/contracts/cmd/server/saga.go:87-153 | From every reachable state with a placed hold and a PENDING contract some continuation, one stop of the process, leaves the hold unsettled for good |
| EscrowTrap.TrappedHoldExists | services/contracts/cmd/server/saga.go:93-121 | A concrete reachable cancelled contract whose hold was placed, whose answer was lost and whose money is never freed |
| EscrowStream.FailedEventNeverLeaves | services/contracts/cmd/server/saga.go:168-199 | Over any run no payment.failed message is ever handled or taken out of the stream, and delivering it changes nothing |
| EscrowStream.MessageLeavesIff | services/contracts/cmd/server/main.go:181-217 | In every reachable state a payment.held message can still leave the stream if and only if it was handled and awaits its acknowledgement, or its contract is HOLD_PENDING, or PENDING with a creation that has not given up; a payment.failed one never can, any other always |
| EscrowStream.DroppedAckExists | services/contracts/cmd/server/main.go:210-216 | A concrete reachable AWAITING_ACCEPT contract whose held message, its acknowledgement lost, never leaves the stream |
| EscrowMessageSteps.ReachableInv | services/contracts/cmd/server/saga.go:57-343 | The system invariant holds in every reachable state |
| EscrowMessageSteps.StepKeepsInv | services/contracts/cmd/server/saga.go:57-343 | Every one of the 23 kinds of step keeps the system invariant |
| LedgerLocks.CommitIsAtomic | services/payments/cmd/server/handler.go:269-385 | A commit computed from values read earlier under locks equals the whole handler run atomically at commit, answer included, a hold being checked against a sum that can only be too large |
| LedgerLocks.RefusalIsAtomic | services/payments/cmd/server/handler.go:269-312 | A transaction that ends in an error at any of its reads changes nothing and answers what the whole handler would answer at that moment |
| LedgerLocks.InterleavingIsAtomic | services/payments/cmd/server/handler.go:34-394 | Every statement-level interleaving of any number of hold, release and transfer transactions leaves the tables, and answers its callers in the same order, as some run of atomic transactions |
| LedgerLocks.InterleavingIsValid | services/payments/cmd/server/wallet_store.go:33-53 | After every interleaving active holds are within balances, money is conserved, tables reconcile and journals are exact |
| LedgerLocks.CommitTouchesOnlyItsLocks | services/payments/cmd/server/handler.go:183-204 | A commit changes no wallet or hold row it has not locked, and can only lower the active-hold sum of other wallets |
| LedgerInvariants.StepKeepsValid | services/payments/cmd/server/handler.go:34-394 | Every committed transaction keeps coverage, reconciliation, exact hold journals and conservation |
| LedgerTheorems.RunConservesAndCovers | services/payments/cmd/server/handler.go:73-331 | After any run from the empty database balances add up to the first seeds and each wallet has 0 <= active holds <= balance |
| LedgerTheorems.RunReconciles | services/payments/cmd/server/handler.go:124-350 | After any run balance, available balance and active holds of each wallet are the first seed plus sums of the transaction table by type, hold_failed rows in none |
| LedgerTheorems.RunKeepsUsers | services/payments/migrations/001_create_wallets.sql:4 | Over any run of the ledger no user gets a second wallet |
| LedgerEvents.RunAnnounces | services/payments/cmd/server/handler.go:136-376 | After any run of the ledger every hold has exactly the outbox events of its status, a transfer's naming the wallet that was credited |
| LedgerTheorems.SettledForGood | services/payments/cmd/server/handler.go:280-283 | Over any run of the ledger a settled hold never changes again |
| LedgerTheorems.BalancesFit | services/payments/migrations/001_create_wallets.sql:5 | Every wallet's active holds and balance lie between 0 and the seeded total |
| LedgerTheorems.NothingOverflows | services/payments/cmd/server/handler.go:321-325 | While the seeded total fits in an int64, the credit of any active hold to another wallet stays within it and does not wrap |
| LedgerTheorems.TransferSucceedsIff | services/payments/cmd/server/handler.go:269-331 | A transfer succeeds exactly for an active hold, an existing other wallet and a credit that fits; the source-balance check never fails in a solvent ledger |
| LedgerTheorems.TransferNeverFaults | services/payments/cmd/server/handler.go:297-302 | Over any run whose seeded total fits in an int64 no transfer answers "internal error", so the "balance invariant violation" branch is unreachable |
| LedgerTheorems.TransferMovesOnly | services/payments/cmd/server/handler.go:315-331 | A transfer takes exactly the held amount from one wallet, gives it to one other, changes no third, keeps the total and frees exactly that hold |
| LedgerTheorems.ReleaseUndoesHold | services/payments/cmd/server/handler.go:163-243 | Releasing a hold restores balances and active holds of every wallet to what they were before it |
| LedgerTheorems.SecondSettlementConflicts | services/payments/cmd/server/handler.go:194-197 | After a successful release or transfer of a hold, whatever transactions run in between, any further one is refused and changes nothing |
| LedgerTheorems.AcceptedHoldCoverage | services/payments/cmd/server/wallet_store.go:33-53 | An accepted hold keeps active holds within the balance if and only if it fits in what is available at commit |
| PaymentHandler.Handler.HoldFunds | services/payments/cmd/server/handler.go:34-161 | When each answer is given; an accepted hold writes its row, its hold transaction and payment.held, a refusal for lack of funds one hold_failed row and one payment.failed, any other nothing; no money moves and the ledger stays solvent |
| PaymentHandler.Handler.ReleaseFunds | services/payments/cmd/server/handler.go:163-243 | When each answer is given; a release frees exactly that hold, writes its release transaction and payment.released, and lowers only its own wallet's active sum; anything else changes nothing |
| PaymentHandler.Handler.TransferFunds | services/payments/cmd/server/handler.go:245-394 | When each answer is given, and every row a successful transfer writes; any answer but success, a refused balance update included, leaves every table as it was |
| PaymentHandler.TransferMeets | services/payments/cmd/server/handler.go:245-394 | The atomic transfer gives these answers and writes these rows |
| PaymentHandler.Handler.Seed | services/payments/cmd/server/wallet_store.go:66-79 | A user who has a wallet is answered that wallet and nothing changes; a new user gets exactly one new wallet with that balance |
| PaymentHandler.Handler.GetWallet | services/payments/cmd/server/wallet_store.go:33-53 | The row with its derived available balance, which lies between 0 and the balance in a solvent ledger |
| PaymentHandler.Handler.SumActiveByWallet | services/payments/cmd/server/hold_store.go:51-61 | The sum of the wallet's active holds |
| ContractsDb.CompensationNeedsPending | services/contracts/cmd/server/saga.go:93-121 | The compensation keeps events in step with statuses if and only if the contract is PENDING |
| ContractsDb.FinishKeepsConsistent | services/contracts/cmd/server/saga.go:262-287 | The finishing transaction of a complete or cancel leaves every contract's events equal to what its row says |
| ContractsDb.RecordHoldKeepsConsistent | services/contracts/cmd/server/saga.go:123-153 | So does recording the hold with the created event |
| Saga.SagaOrchestrator.CreateContract | services/contracts/cmd/server/saga.go:57-158 | One new row with the caller's client, freelancer and amount, HOLD_PENDING with the answered hold id or CANCELLED without, exactly the one event that says so, and the contract's milestones; a second transaction that does not commit leaves it PENDING, without hold id and event; a first one that does not leaves nothing |
| Saga.SagaOrchestrator.Settle | services/contracts/cmd/server/saga.go:237-343 | The outcome of a completing or cancelling call, if and only if, for every starting status, hold id, answer and commit, and the whole new state; events stay in step |
| Saga.SagaOrchestrator.CompleteContract | services/contracts/cmd/server/saga.go:237-288 | COMPLETED with its event exactly from ACTIVE or COMPLETING with a hold id, a successful transfer and a commit; otherwise no event, and ACTIVE has become COMPLETING |
| Saga.SagaOrchestrator.CancelContract | services/contracts/cmd/server/saga.go:292-343 | DECLINED with its event exactly from AWAITING_ACCEPT or DECLINING with a hold id, a successful release and a commit; otherwise no event, and AWAITING_ACCEPT has become DECLINING |
| Saga.SagaOrchestrator.AcceptContract | services/contracts/cmd/server/saga.go:202-233 | ACTIVE with its event exactly from AWAITING_ACCEPT and a commit; otherwise a conflict or an error, and no change |
| Saga.SagaOrchestrator.UpdateStatus | services/contracts/cmd/server/contract_store.go:44-60 | The compare-and-set: succeeds exactly when the row exists with the expected status, and changes that status only |
| Saga.SagaOrchestrator.ConsumeBatch | services/contracts/cmd/server/main.go:181-217 | Undecodable messages are nak'd, ones without a contract termed, ones of other subjects acked; a held or failed one is acked exactly when its transaction commits and its contract is HOLD_PENDING at its turn, else nak'd; exactly the acked ones moved their contract and announced a cancellation; events stay in step with statuses |
| Consumer.BatchIsServed | services/contracts/cmd/server/main.go:181-217 | In-order dispatch of any batch does just that |
| Consumer.FirstMessageDecides | services/contracts/cmd/server/main.go:200-216 | After any batch, duplicates and stale messages included, a HOLD_PENDING contract is where the first message about it sends it and every other row is unchanged |
| Consumer.OneAckPerMove | services/contracts/cmd/server/main.go:210-216 | Of the messages that could move a contract exactly one is acknowledged if it was HOLD_PENDING, none otherwise |
| Consumer.ReplayChangesNothing | services/contracts/cmd/server/main.go:181-217 | Handing a batch over a second time changes nothing |
| Outbox.OutboxTable.PublishBatch | pkg/outbox/publisher.go:59-90 | One tick: at most 100 of the oldest free rows; the broker stores exactly those it does not refuse, once each, oldest first; exactly the acknowledged rows are marked if it commits and none if not; what is newly marked was stored |
| Outbox.StoredInOrder | pkg/outbox/publisher.go:74-81 | What the broker stores of a batch is part of it, each entry once and oldest first |
| Outbox.OutboxTable.PublishEach | services/contracts/cmd/server/outbox_publisher.go:61-68 | The loop goes on after failures and collects exactly the acknowledged entries |
| Outbox.OutboxTable.FetchUnpublished | pkg/outbox/store.go:26-44 | Unpublished rows nobody has locked, each once, oldest first, as many as exist up to the limit, nothing older left out |
| Outbox.OutboxTable.MarkPublished | services/contracts/cmd/server/outbox.go:71-91 | Sets the published flag of exactly the given rows |
| Outbox.AcknowledgedIsStored | pkg/outbox/publisher.go:74-81 | Only entries the broker stored are collected for marking |
| OutboxRelay.AtLeastOnce | pkg/outbox/publisher.go:59-90 | Over any run of any number of publishers with failures, lost acknowledgements, rollbacks and stops: marked implies stored, whatever is not marked can still be stored and marked by some continuation, batches are disjoint, and an entry is stored twice only if an acknowledgement or commit was lost after storing it |
| OutboxRelay.NothingIsDropped | pkg/outbox/store.go:14-54 | Over any run rows stay, keep event and time, and stay marked once marked |
| OutboxRelay.FaultlessIsExactlyOnce | pkg/outbox/publisher.go:74-89 | Without lost acknowledgements and rollbacks every marked entry was stored exactly once |
| OutboxRelay.TickIsRun | pkg/outbox/publisher.go:59-90 | A tick of PublishBatch, committed or rolled back, is a run of the concurrent machine with the same marks and the same stored entries |
| OutboxDrain.DrainBound | pkg/outbox/publisher.go:39-89 | With n unpublished rows and no failures, k batches leave max(0, n - 100k), so exactly the rounded-up n/100 batches drain the table |
| OutboxDrain.RunWithoutFaults | pkg/outbox/publisher.go:43-90 | Firings of one publisher's ticker without failures: the broker stores unpublished rows once each in order of creation time, exactly these are marked, and nothing is left from the rounded-up n/100-th firing on and not before |
| OutboxDrain.DrainOrder | pkg/outbox/store.go:26-33 | The batches of such a drain, one after the other, are distinct unpublished rows in order of creation time |
| OutboxDrain.DrainComplete | pkg/outbox/store.go:26-54 | And they are exactly the rows that are no longer unpublished |

## Left out

- Saga.SagaOrchestrator.Settle: runs alone, without other callers between its local transactions; interleaving is in the `Escrow` step relation, whose steps are the same transactions.
- Saga.SagaOrchestrator.CreateContract: runs alone as well.
- Outbox.OutboxTable.FetchUnpublished: selects rows by a scan where the source asks the database; rows with equal creation times may come in any order.
- EscrowTheorems.NoLostWakeUp: says the event is never lost, not that delivery eventually happens; `HeldContractCanWake` adds that it always can.
- EscrowRetry.RetryFinishesIff: speaks of what some continuation can do; for a transfer with a seeded total beyond an int64 it asks that the credit fits now.
- EscrowRetry.OpenContractFinishesIff: the same.
- EscrowTrap.ActiveHoldSettlesIff: the same, for ACTIVE and COMPLETING contracts.
- The publisher of the contracts outbox inside the system: it only sets flags on rows that nothing in the system reads; the `Outbox` and `OutboxRelay` results cover it.
- Deadlock freedom of the payments handlers: opposing transfers lock wallets in opposite orders.
- Isolation internals of the two databases, beyond the assumptions above.
- HTTP routing, JSON, drivers, migrations, telemetry, process startup, and the wallet and contract listing queries.
- Hold expiry, the 48-hour acceptance timeout and background retry: not implemented in the source.
- jobs-api, the BFFs, authentication, rate limiting, ai-matching and the frontends.
