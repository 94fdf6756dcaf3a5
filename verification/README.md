# Settlements: a verified model of the settlement engine

The settlement service collects transfers into batches, groups batches into settlement matrices, and settles
matrices. This project models that engine and proves what it keeps: over one call, over one command, and over
every run of commands with the messages between matrices delivered in any order.

The model has two layers.

* **Specification.** `World` is everything that is stored (batches, transfers, ledger, matrices, settlement
  models) and the messages on their way. Every command is a function from one `World` to the next
  (`Commands.dfy`, `Recalculation.dfy`), with its error paths; a run is any sequence of steps (`IsRun`). The
  properties are lemmas about these functions and runs.
* **Objects.** `Stores.dfy`, `Objects.dfy`, `Refresh.dfy`, `Aggregate.dfy` and `Handler.dfy` hold the classes of the
  service with their fields, loops and early exits. Each method is proved to take the stored state where the
  function of its command takes it, so `Handler.SettlementsCommandHandler.Consume` carries every result about runs
  over to the objects.

| files | subject |
|---|---|
| `Common`, `Digits` | options, finite sums over maps, positional notation |
| `Converters`, `Uuid`, `Allocation` | amounts as decimal strings, UUIDs as integers, batch windows and names |
| `Model`, `Tables`, `Totals`, `Accumulation`, `Conservation` | records; the three balance tables, what they mean, and that they add up |
| `Repositories`, `Ledger`, `Recalculation` | stores, the double-entry ledger, and the recalculation of a matrix |
| `BookKeeping`, `Exactness`, `Completion`, `Reconciliation`, `Idempotence`, `LedgerAgreement` | what a recalculation keeps, what it computes, when it completes, how it adds up, repeating it, ledger and transfers |
| `Commands`, `Effects`, `BatchSequences` | every command and its effect in closed form |
| `Protocol`, `Safety`, `Settlement`, `Events`, `MatrixSafety`, `SettledOnce`, `Balances`, `MovedTables`, `Accounts`, `Membership`, `LedgerRuns` | the invariant of all reachable states and what follows for commands and runs |
| `Intake`, `Naming`, `Selections`, `Requests`, `StateChanges`, `Payouts` | what a caller of each command gets, with states, texts, constants and fields written out |
| `Examples`, `Repeats` | runs from the empty world at whose end what one might expect does not hold |
| `Stores`, `Objects`, `Refresh`, `Aggregate`, `Handler`, `BatchCache` | the classes |

Assumptions that appear as premises: configured currency codes are not empty and contain no dot (`CurrenciesOk`);
random ids are fresh (`nextId` is the supply they are drawn from). Results about single transfers need that no
(journalled) transfer id is sent again (`NoReplays`, `NoJournalledReplays`); those about single batches do not.

Where the code departs from what its comments say, the code is followed:

* A comment at `packages/domain-lib/src/aggregate.ts:1045` says that settling only settles batches the matrix owns.
  That holds for the amounts of the event. The batches turned SETTLED (`:827-842`) are chosen by state alone
  (`Events.SettledAreTargets`, `Events.ForeignBatchNeverPaid`).
* Comments at `packages/domain-lib/src/aggregate.ts:594`, `:652` and `:710` say that no new batches get in. A DYNAMIC
  matrix selects anew in each of these commands (`:911-922`), so it may also lose the batches it has locked
  (`MatrixSafety.UnlockReleasesAll`, `MatrixSafety.LostLocksStay`).
* The two sides of a transfer whose payer is its payee are both booked twice
  (`packages/domain-lib/src/types/matrix.ts:100-104`), so its amount counts double in the tables
  (`Conservation.TotalIsSumOfAmounts`). Whether a recalculation near the bound completes then depends on the order of
  the stores, which journalling changes (`Completion.RecalculateCompletesExactly`, `Repeats.RepeatExample`).
* A lock, unlock, dispute or close recalculates before it moves its batches
  (`packages/domain-lib/src/aggregate.ts:592-610`), so the balances by state and by participant it stores keep the
  states from before the move, while the list shows the new ones, until the next recalculation
  (`MovedTables.TablesLagBehind`).
* The name of a window has minutes as its smallest part (`packages/domain-lib/src/aggregate.ts:1112-1124`), so the
  windows of settlement models with intervals below 60 seconds share names and with them batches
  (`Allocation.WindowsNamedApartExactly`).

## Model

| member | source | states |
|---|---|---|
| `Protocol.ExecuteKeeps` | packages/domain-lib/src/aggregate.ts:204-902 | every command, whether it completes or fails part-way, keeps the protocol invariant: consistent books, batch numbering, owners, locks, and idle matrices in sync or told |
| `Protocol.RunOk` | packages/command-handler-svc/src/handler.ts:88-190 | every state reachable by any commands, with the mark messages delivered in any order, satisfies that invariant |
| `Safety.StaleReadsAreTold` | packages/domain-lib/src/aggregate.ts:192-202 | in every reachable state, when an IDLE matrix shows a batch in a state other than the stored one, a mark message from another matrix naming that batch is still pending |
| `Safety.DeliveredMeansInSync` | packages/domain-lib/src/aggregate.ts:884-902 | whenever no mark message is pending, every IDLE matrix shows the stored state of each batch it lists |
| `Safety.LocksHaveOwners` | packages/domain-lib/src/aggregate.ts:657-672 | in every reachable state a batch has an owner iff it is AWAITING_SETTLEMENT or SETTLED; the owner of a locked batch exists and, unless its status filter leaves out AWAITING_SETTLEMENT, is LOCKED (or stuck BUSY) and lists the batch |
| `Safety.BatchesNumbered` | packages/domain-lib/src/aggregate.ts:1141-1213 | in every reachable state the batches of a name carry the numbers 1..n without gaps, each once, and only the highest may be OPEN |
| `Safety.StepTransitions` | packages/domain-lib/src/aggregate.ts:574-848 | one step moves a batch only along the documented transitions, a lock is only given up by an unlock of its owner, SETTLED batches keep state and owner, nothing renames or renumbers a batch |
| `Safety.BatchStays` | packages/domain-lib/src/aggregate.ts:574-848 | over every run batches never disappear, a SETTLED batch stays as it is, and a batch that has left OPEN never becomes OPEN again |
| `Safety.DisputedIsClosedBeforeSettled` | packages/domain-lib/src/aggregate.ts:574-848 | over every run a DISPUTED batch that is later SETTLED was CLOSED and after that AWAITING_SETTLEMENT in between |
| `MatrixSafety.StepOnMatrices` | packages/domain-lib/src/aggregate.ts:291-902 | one step moves every matrix only along the transitions of its state machine and keeps its type; FINALIZED matrices, and those left BUSY by a failed recalculation, do not change at all |
| `MatrixSafety.MatrixStays` | packages/domain-lib/src/aggregate.ts:844-845 | over every run a FINALIZED matrix never changes again, balances and batch list included |
| `MatrixSafety.UnlockReleasesAll` | packages/domain-lib/src/aggregate.ts:690-728 | after an unlock that completes, no batch is left locked by the matrix iff its selection includes AWAITING_SETTLEMENT batches, or it had locked none |
| `MatrixSafety.LockTakes` | packages/domain-lib/src/aggregate.ts:631-675 | a lock that completes makes the matrix the owner of every selected OPEN or CLOSED batch |
| `MatrixSafety.UnlockForgets` | packages/domain-lib/src/aggregate.ts:690-728 | an unlock of a dynamic matrix whose statuses leave out AWAITING_SETTLEMENT makes the matrix IDLE but leaves its batches locked |
| `MatrixSafety.LostLocksStay` | packages/domain-lib/src/aggregate.ts:690-848 | over every run such a batch is never CLOSED again and its amounts enter no settled event; only another matrix can still turn it SETTLED |
| `Events.SettleExact` | packages/domain-lib/src/aggregate.ts:803-869 | a settlement that completes sends one event with exactly one item per participant and currency, whose amounts are the sums over the transfers of the batches it has locked, with total debits = total credits per currency |
| `Events.SettledAreTargets` | packages/domain-lib/src/aggregate.ts:823-845 | the batches turned SETTLED are the selected ones awaiting settlement; they are the batches paid out iff none of them is locked by another matrix |
| `Events.BatchesPaidOnce` | packages/domain-lib/src/aggregate.ts:803-882 | over every run the amounts of a batch enter at most one settled event, however settle commands are repeated |
| `Events.TransfersPaidOnce` | packages/domain-lib/src/aggregate.ts:803-882 | over every run without replayed transfer ids the amount of a transfer enters at most one settled event |
| `Events.ForeignBatchNeverPaid` | packages/domain-lib/src/aggregate.ts:827-842 | a batch settled by a matrix that did not lock it becomes SETTLED, and its amounts enter no event of the run, before or after |
| `SettledOnce.StepFinalizes` | packages/domain-lib/src/aggregate.ts:803-882 | a step makes a matrix FINALIZED iff it is a settlement of that matrix that completes |
| `SettledOnce.OneEventPerMatrix` | packages/domain-lib/src/aggregate.ts:803-882 | over every run a matrix sends at most one settled event, and in every state it has sent one iff it is FINALIZED |
| `Settlement.StepOnTransfers` | packages/domain-lib/src/aggregate.ts:253-265 | in one step transfers change only by being journalled, unless the step is a transfer command that completes |
| `Settlement.StoringChangesFrozen` | packages/domain-lib/src/aggregate.ts:249-270 | a transfer command changes the contents of some batch that is not OPEN iff its id was already stored in such a batch |
| `Settlement.FrozenBatches` | packages/domain-lib/src/aggregate.ts:249-270 | over every run without replayed ids a batch that has left OPEN keeps its set of transfers and its total |
| `Settlement.FrozenRows` | packages/domain-lib/src/aggregate.ts:947-1082 | take two completed recalculations, of any matrices that list the batch, not settling, on the stored state of any two moments after it has left OPEN: their rows for the batch show one and the same amount on all four sides |
| `Membership.AddBatchesMembers` | packages/domain-lib/src/aggregate.ts:500-507 | after adding batches the matrix lists exactly what it listed and the stored ones among the ids sent |
| `Membership.RemoveBatchesMembers` | packages/domain-lib/src/aggregate.ts:551-558 | after removing batches the matrix lists exactly what it listed without the ids sent |
| `Membership.RemovingUndoesAdding` | packages/domain-lib/src/aggregate.ts:472-558 | adding and then removing the same ids restores the list iff none of them was listed before |
| `Membership.CreateStaticMembers` | packages/domain-lib/src/aggregate.ts:386-409 | a new static matrix has an unused id and lists exactly the stored batches among the ids sent |
| `Membership.CreateDynamicMembers` | packages/domain-lib/src/aggregate.ts:424-456 | a new dynamic matrix has an unused id and lists exactly the stored batches that meet its criteria |
| `Intake.TransferAccepted` | packages/domain-lib/src/aggregate.ts:225-246 | a transfer command completes iff its timestamp is from 1 to 8640000000000000, its ids and model are not empty, its currency and model are configured and its amount reads as a positive number; otherwise nothing is stored and the error names a fault it has |
| `Intake.TransferStored` | packages/domain-lib/src/aggregate.ts:246-270 | a transfer command that completes stores the transfer as it was sent, field by field and not journalled, in an OPEN batch of its model and currency named after the window of the configured width its timestamp falls in: the open one, or a new one under the next number; nothing else changes |
| `Intake.TransfersShareNames` | packages/domain-lib/src/types/settlement_config.ts:73-82 | two accepted transfers of a model and currency join batches of one name when their timestamps fall in one window and, from windows of a minute on, only then |
| `Intake.ModelAdded` | packages/domain-lib/src/aggregate.ts:329-375 | a settlement model is added with the interval that was sent iff its name is not empty and not known and the interval is positive; otherwise the error names the first fault and nothing changes |
| `Selections.SelectionExact` | packages/shared-mocks-lib/src/repo/settlement_batch_repo_mock.ts:108-140 | a static matrix selects the stored batches it lists; a dynamic one those between its dates and, where not empty, of its model, of one of its currencies and in one of the states whose names it was given, the five names written out |
| `Selections.DynamicCreated` | packages/domain-lib/src/aggregate.ts:424-456 | a new dynamic matrix keeps the criteria that were sent and lists exactly the stored batches they want |
| `Requests.RecalculateRequested` | packages/domain-lib/src/aggregate.ts:291-314 | a recalculation is carried out iff the matrix is stored, IDLE or OUT_OF_SYNC and each amount fits, and leaves it IDLE and fresh; unknown, BUSY, LOCKED and FINALIZED ones are refused and nothing changes; when an amount does not fit the matrix stays BUSY as stored |
| `Requests.AddRequested` | packages/domain-lib/src/aggregate.ts:472-508 | adding is carried out iff the matrix is stored, static and IDLE and each amount of the longer list fits, with the error of each refusal and what a failure leaves |
| `Requests.RemoveRequested` | packages/domain-lib/src/aggregate.ts:523-559 | the same for removing |
| `Requests.CreateStaticRequested` | packages/domain-lib/src/aggregate.ts:386-409 | a static matrix is created iff its id is not in use and each amount fits; a failure leaves it BUSY over the batches sent, without balances |
| `Requests.CreateDynamicRequested` | packages/domain-lib/src/aggregate.ts:424-456 | the same for a dynamic matrix over the wanted batches |
| `Requests.MoveRequested` | packages/domain-lib/src/aggregate.ts:574-823 | a dispute, lock or close is carried out iff the matrix is stored and IDLE, an unlock or settlement iff it is LOCKED, and each amount of the batches it counts fits; with the error of each refusal |
| `Requests.MarkRequested` | packages/domain-lib/src/aggregate.ts:884-902 | a mark message turns OUT_OF_SYNC exactly the IDLE matrices other than its sender that list a batch it names, and touches nothing else; delivering it takes it off the way |
| `StateChanges.Closed` | packages/domain-lib/src/aggregate.ts:746-790 | a close that completes turns the selected OPEN and DISPUTED batches CLOSED, leaves states and owners of all others, leaves the matrix IDLE and names exactly the changed batches in one mark message |
| `StateChanges.Disputed` | packages/domain-lib/src/aggregate.ts:574-622 | a dispute that completes turns the selected OPEN and CLOSED batches DISPUTED, with the same frame |
| `StateChanges.Locked` | packages/domain-lib/src/aggregate.ts:631-680 | a lock that completes turns the selected OPEN and CLOSED batches AWAITING_SETTLEMENT and makes the matrix their owner and LOCKED, with the same frame |
| `StateChanges.Unlocked` | packages/domain-lib/src/aggregate.ts:690-738 | an unlock that completes turns the selected AWAITING_SETTLEMENT batches of this owner CLOSED without owner and the matrix IDLE, with the same frame |
| `StateChanges.Settled` | packages/domain-lib/src/aggregate.ts:803-860 | a settlement that completes turns the selected AWAITING_SETTLEMENT batches SETTLED and the matrix FINALIZED, with the same frame |
| `Payouts.EventPays` | packages/domain-lib/src/aggregate.ts:847-869 | the event of a settlement shows per participant and currency the sums of the amounts paid and received by the stored transfers of the selected batches that await settlement and belong to the matrix, for exactly those with something paid or received |
| `Payouts.CommandPays` | packages/domain-lib/src/aggregate.ts:291-570 | after a creating, recalculating or editing command that completes, the stored tables show the sums of the stored amounts paid and received, the stored list shows the batches with their totals |
| `Payouts.MovePays` | packages/domain-lib/src/aggregate.ts:574-882 | after a move that completes the tables show those sums under the states from before the move, after a settlement those of the paid batches under SETTLED |
| `Payouts.TablesPay` | packages/domain-lib/src/aggregate.ts:931-1082 | after a recalculation every row of the three tables shows the sums of the stored amounts of the counted transfers paid and received under its participant, state and currency; participant rows exist exactly for those with some |
| `Payouts.ListPays` | packages/domain-lib/src/aggregate.ts:1049-1078 | every row of the list shows id, name, currency and state of its stored batch, and on both sides the sum of the amounts of its transfers, or zero when the batch does not count |
| `Payouts.ListInOrder` | packages/domain-lib/src/aggregate.ts:907-948 | the list holds the selected batches in the order of the stores |
| `Accounts.OneAccountEach` | packages/domain-lib/src/aggregate.ts:957-991 | in every reachable state a batch has at most one account for a participant, and each is an account of that participant in the ledger in the currency of the batch |
| `Accounts.AccountsKeepPlaces` | packages/domain-lib/src/aggregate.ts:957-1042 | journalling a transfer keeps the accounts of the batch in their places and appends those it opens, the one of the payer before that of the payee |
| `Accounts.PartiesHaveAccounts` | packages/domain-lib/src/aggregate.ts:957-1060 | after a recalculation that completes the stored batch of every transfer it journalled and counted has an account for its payer and one for its payee |
| `LedgerAgreement.JournalTransferAgrees` | packages/domain-lib/src/aggregate.ts:957-1041 | journalling one transfer keeps ledger and transfers in agreement: postings per participant and currency, and one fitting journal entry per journalled transfer |
| `LedgerAgreement.RecalculateAgrees` | packages/domain-lib/src/aggregate.ts:904-1086 | every recalculation, also one that fails part-way, keeps that agreement |
| `LedgerRuns.StepAgrees` | packages/domain-lib/src/aggregate.ts:204-902 | a step keeps ledger and transfers in agreement iff it does not replay a journalled transfer id |
| `LedgerRuns.RunAgrees` | packages/domain-lib/src/aggregate.ts:957-1042 | over every run that replays no journalled id they agree in every state |
| `LedgerRuns.JournalledAtMostOnce` | packages/domain-lib/src/aggregate.ts:957-1031 | over such runs a transfer has one journal entry when it is marked as journalled and none otherwise |
| `LedgerRuns.JournalledExactlyOnce` | packages/domain-lib/src/aggregate.ts:947-1031 | after a completed recalculation every transfer of a selected batch has exactly one journal entry |
| `LedgerRuns.PostedIsPaid` | packages/shared-mocks-lib/src/adapter/accounts_balances_adapter_mock.ts:148-179 | over such runs the posted debits (credits) of a participant in a currency are the sums of the journalled amounts it paid (received) |
| `LedgerRuns.DebitsEqualCredits` | packages/shared-mocks-lib/src/adapter/accounts_balances_adapter_mock.ts:166-175 | over such runs total posted debits equal total posted credits of a currency iff no journalled transfer in it has one participant on both sides |
| `Exactness.RecalculateExact` | packages/domain-lib/src/aggregate.ts:904-1086 | a completed recalculation fills the three tables with exactly the sums over the transfers of the counted batches and writes one row per selected batch |
| `Completion.RecalculateCompletesExactly` | packages/domain-lib/src/aggregate.ts:947-1082 | a recalculation completes iff, taking the counted transfers in the order of the stores, the currency total so far plus each amount is below 10^(18+decimals); final totals below the bound suffice and, nobody paying themselves, are necessary |
| `Completion.RecalculateAndStoreCompletes` | packages/domain-lib/src/aggregate.ts:291-570 | creating, recalculating and editing a matrix completes, past the checks, iff each amount fits in that sense |
| `Reconciliation.RecalculationConserves` | packages/domain-lib/src/aggregate.ts:931-1082 | read back from the stored strings, per currency the debits and credits of all three tables are one number, the listed batches add up to the transfer amounts, and both numbers are equal iff nobody pays themselves; at most one row per key |
| `Balances.StoredMatricesAddUp` | packages/domain-lib/src/aggregate.ts:204-902 | in every reachable state every stored matrix, whatever its state, adds up as it is stored: per currency either its balance is out of bounds and cannot be read, or the debits and credits of all three tables are one number and those of its list another one between half of it and all of it |
| `MovedTables.TablesLagBehind` | packages/domain-lib/src/aggregate.ts:574-848 | after a dispute, lock, unlock or close that completes the tables show the transfers under the states from before it; they agree with the new states of the list iff no batch that moved has a transfer, after a settlement always |
| `BookKeeping.RecalculateKeeps` | packages/domain-lib/src/aggregate.ts:904-1086 | a recalculation changes only batch accounts, journal marks and the ledger; when it completes the matrix lists exactly the selected batches, once, with their stored states, and all their transfers are journalled |
| `BookKeeping.JournalOk` | packages/domain-lib/src/aggregate.ts:957-1041 | a stored transfer can always be journalled, which updates only that transfer, the ledger and the accounts of its batch |
| `BookKeeping.TallyTransfersKeep` | packages/domain-lib/src/aggregate.ts:950-1076 | the loop over the transfers keeps the books consistent and leaves every transfer journalled when it completes |
| `Idempotence.RecalculationIsIdempotent` | packages/domain-lib/src/aggregate.ts:904-1086 | repeating a completed recalculation changes nothing that is stored; it completes again iff each amount fits in the order the first one left, in particular whenever the totals are in bounds or nobody pays themselves, and then gives the same rows and tables |
| `Idempotence.QuietRecalculation` | packages/domain-lib/src/aggregate.ts:957-1060 | when all selected transfers are journalled a recalculation opens no account, posts no entry and stores nothing |
| `Idempotence.StaticKeepsItsBatches` | packages/domain-lib/src/aggregate.ts:907-910 | a completed recalculation of a STATIC matrix lists exactly the batches it listed before |
| `Idempotence.RepeatedCommand` | packages/domain-lib/src/aggregate.ts:291-327 | the same for the recalculate command sent twice in a row, with the same exact condition |
| `Repeats.RepeatExample` | packages/domain-lib/src/aggregate.ts:291-327 | a run from the empty world after which a matrix was recalculated, and recalculating it again with nothing in between throws and leaves it BUSY: its totals were out of bounds, and journalling had changed the order of the batches |
| `Accumulation.AccumulationExact` | packages/domain-lib/src/types/matrix.ts:88-170 | folding addBalance over any list of readable positive transfers throws nowhere iff at each turn the currency total so far plus the amount is below 10^(18+decimals), and then gives exactly the integer sums; final totals below the bound suffice and, nobody paying themselves, are necessary |
| `Accumulation.OrderDoesNotMatter` | packages/domain-lib/src/types/matrix.ts:88-170 | any two orders of the same transfers give the same tables |
| `Totals.AddAmountExact` | packages/domain-lib/src/types/matrix.ts:88-170 | addBalance adds one transfer to all three tables and throws iff the total of its currency would reach 10^(18+decimals) |
| `MatrixTables.AddToRowsShows` | packages/domain-lib/src/types/matrix.ts:107-126 | adding to the string rows of one table is adding to the integer totals, and fails iff the old balance is out of bounds |
| `MatrixTables.RowsKeepPlaces` | packages/domain-lib/src/types/matrix.ts:107-126 | the row with the key is changed where it is, or a new one is appended; the others keep place and content |
| `Conservation.TablesConserve` | packages/domain-lib/src/types/matrix.ts:128-167 | per currency the participant rows, the state rows and the currency row have the same debit and credit sum |
| `Conservation.TotalIsSumOfAmounts` | packages/domain-lib/src/types/matrix.ts:100-104 | that sum is the sum of the transfer amounts iff no transfer of the currency has one participant on both sides, and otherwise larger |
| `Conservation.TablesDependOnFactsOnly` | packages/domain-lib/src/types/matrix.ts:88-170 | tables that show the same transfers have the same rows |
| `Conservation.ReadBack` | packages/domain-lib/src/types/matrix.ts:107-167 | below the bound every stored balance can be read back and is the sum it stands for |
| `Effects.MoveMatrixEffect` | packages/domain-lib/src/aggregate.ts:574-848 | a dispute, lock, unlock, close or settle that completes moves exactly the selected batches its rule allows, lists them with their new states and names them in one mark message; one that fails moves nothing and at most leaves the matrix BUSY |
| `Effects.SweepExact` | packages/domain-lib/src/aggregate.ts:598-610 | the loop over the listed batches stores exactly the moved batches and reports exactly their ids |
| `Effects.DropLeavesAwaiting` | packages/domain-lib/src/aggregate.ts:825-829 | removing by id while walking the list leaves exactly the batches awaiting settlement |
| `Effects.RecalculateAndStoreEffect` | packages/domain-lib/src/aggregate.ts:305-314 | storing BUSY, recalculating and storing the result leaves the matrix IDLE and fresh, or BUSY as it was stored when the recalculation throws |
| `Effects.MarkOutOfSyncExact` | packages/domain-lib/src/aggregate.ts:884-902 | the nested loops turn OUT_OF_SYNC exactly the IDLE matrices other than the origin that list any of the ids, and change nothing else |
| `Completion.MoveCompletes` | packages/domain-lib/src/aggregate.ts:574-882 | such a command completes iff the matrix is stored in the right state and each amount fits in the sense of `Completion.RecalculateCompletesExactly` |
| `Examples.LostLockExample` | packages/domain-lib/src/aggregate.ts:913-919 | a run from the empty world after which a DYNAMIC matrix selecting OPEN batches has locked and unlocked a batch that stays locked |
| `Examples.ForeignSettlementExample` | packages/domain-lib/src/aggregate.ts:827-842 | a run from the empty world after which a matrix has settled, before the mark message reached it, a batch another one has locked, with an event without amounts |
| `Examples.ReplayExample` | packages/domain-lib/src/aggregate.ts:253-265 | a run from the empty world in which ledger and transfers agree until the last step replays a journalled transfer |
| `BatchSequences.AllocationExact` | packages/domain-lib/src/aggregate.ts:1141-1213 | allocation returns the open batch of the name with the highest number, or a new one numbered one above it |
| `BatchSequences.AddTransferExact` | packages/domain-lib/src/aggregate.ts:225-289 | a valid transfer joins an OPEN batch of its model, currency and window, and no other batch or transfer changes |
| `BatchSequences.OneOpenBatchPerName` | packages/domain-lib/src/aggregate.ts:1166-1187 | numbering means one batch per number, all lower numbers taken, at most the highest open |
| `Commands.Highest` | packages/domain-lib/src/aggregate.ts:1166-1168 | the head of the list sorted by decreasing sequence has the highest sequence |
| `Allocation.StartIsWindow` | packages/domain-lib/src/types/settlement_config.ts:73-82 | the window start s is a multiple of the interval with s <= t < s + 1000*interval |
| `Allocation.AllocationDeterministic` | packages/domain-lib/src/types/settlement_config.ts:73-82 | the start is idempotent, monotone, and the same for two times iff they fall in one window |
| `Allocation.BatchNameInjective` | packages/domain-lib/src/aggregate.ts:1112-1124 | for currency codes without dots two batch names are equal iff model, currency and UTC minute are |
| `Allocation.WindowsNamedApart` | packages/domain-lib/src/aggregate.ts:1112-1124 | two windows of a model and currency have one name iff their starts share a minute; from intervals of 60 seconds on, iff they are one window |
| `Allocation.WindowsNamedApartExactly` | packages/domain-lib/src/aggregate.ts:1112-1124 | different windows have different names, for all times, iff the interval is at least 60 seconds |
| `Allocation.ShortWindowsCollide` | packages/domain-lib/src/aggregate.ts:1112-1124 | for every shorter interval the first two windows of infinitely many minutes share a name: at every time that is a multiple of a minute and of the interval |
| `Allocation.IdentifierInjective` | packages/domain-lib/src/aggregate.ts:1126-1131 | name and padded number can be told from the identifier, also past 999 |
| `Naming.NameText` | packages/domain-lib/src/aggregate.ts:1112-1124 | the name is model, currency, year, month, day, hour and minute of the calendar minute in UTC in which the window begins, joined by dots, all but the year with two digits; leap years and month lengths written out |
| `Naming.IdentifierText` | packages/domain-lib/src/aggregate.ts:1126-1131 | the identifier is the name, a dot and the decimal number, with zeros in front up to three digits |
| `Naming.AmountRead` | packages/domain-lib/src/converters.ts:35-58 | an amount is read iff it has 1 to 18 digits without a leading zero (or 0) and at most 4 decimals without a trailing zero, no more than the currency has; its value is that number in the smallest unit; with the error otherwise |
| `Naming.OnlyAmountsRead` | packages/domain-lib/src/converters.ts:35-58 | nothing else is read, apart from such an amount behind a minus sign, whose value is negated |
| `Converters.PrintThenRead` | packages/domain-lib/src/converters.ts:35-87 | for v >= 0 reading what was printed gives v back iff v < 10^(18+d), and for d > 4 v is a multiple of 10^(d-4); otherwise the grammar refuses it |
| `Converters.PrintedApart` | packages/domain-lib/src/converters.ts:60-87 | different non-negative amounts are printed differently, also those that cannot be read back |
| `Converters.ReadThenPrint` | packages/domain-lib/src/converters.ts:35-87 | for every accepted non-negative string printing what was read gives the string back |
| `Converters.PrintThenReadNegative` | packages/domain-lib/src/converters.ts:60-87 | for negative values the round trip holds iff moreover the magnitude is at least 10^d |
| `Converters.SmallNegativeFails` | packages/domain-lib/src/converters.ts:66-74 | -5 with two decimals is a value that does not survive |
| `Converters.BigintToString` | packages/domain-lib/src/converters.ts:60-87 | the printer, with its padding and its loop over trailing zeros, computes the text for which the round trips above hold |
| `Uuid.BigIntToUuid` | packages/infrastructure-lib/src/acc_balances_bc/tigerbeetle_acc_bal_adapter.ts:392-402 | the padding loop computes the text for which the round trips below hold |
| `Uuid.BigintRoundTrip` | packages/infrastructure-lib/src/acc_balances_bc/tigerbeetle_acc_bal_adapter.ts:366-402 | every non-negative integer survives the way to text and back |
| `Uuid.UuidRoundTrip` | packages/infrastructure-lib/src/acc_balances_bc/tigerbeetle_acc_bal_adapter.ts:366-402 | every lower-case 8-4-4-4-12 UUID (section 4 of RFC 9562) survives the way to an integer below 2^128 and back, leading zeros included |
| `Uuid.UuidInjective` | packages/infrastructure-lib/src/acc_balances_bc/tigerbeetle_acc_bal_adapter.ts:366-372 | two UUIDs have the same integer iff they are equal |
| `BatchCache.StepKeepsAgreement` | packages/infrastructure-lib/src/mongo_settlement_batch_repo.ts:145-192 | one operation keeps every id entry of the cache equal to the stored document iff it is not an update of a batch that is not stored |
| `BatchCache.CacheIsInvisible` | packages/infrastructure-lib/src/mongo_settlement_batch_repo.ts:145-192 | any sequence of operations and expiries that updates only stored batches answers as a plain map would |
| `BatchCache.CacheFilled` | packages/infrastructure-lib/src/mongo_settlement_batch_repo.ts:145-192 | storing, updating and a read that misses leave the batch in the cache under its id and its name; a read that hits, a duplicate and a read of nothing leave the cache alone |
| `BatchCache.MissedUpdateShows` | packages/infrastructure-lib/src/mongo_settlement_batch_repo.ts:172-175 | after an update of a batch that is not stored, reading it returns the cached batch until the entry expires |
| `BatchCache.MongoSettlementBatchRepo.StoreNewBatch` | packages/infrastructure-lib/src/mongo_settlement_batch_repo.ts:167-170 | inserts and caches, or fails on a duplicate id without touching the cache |
| `BatchCache.MongoSettlementBatchRepo.UpdateBatch` | packages/infrastructure-lib/src/mongo_settlement_batch_repo.ts:172-175 | changes the document if there is one, caches in any case, and so keeps agreement iff the batch exists |
| `BatchCache.MongoSettlementBatchRepo.GetBatch` | packages/infrastructure-lib/src/mongo_settlement_batch_repo.ts:178-192 | returns what a lookup in the collection returns, and leaves cache and collection in agreement |
| `Repositories.SelectExact` | packages/shared-mocks-lib/src/repo/settlement_batch_repo_mock.ts:102-106 | a selection lists every wanted record once |
| `Repositories.PutValid` | packages/shared-mocks-lib/src/repo/settlement_batch_repo_mock.ts:54-62 | storing keeps one record per id |
| `KeyedLists.StoreRefinesPut` | packages/shared-mocks-lib/src/repo/settlement_batch_repo_mock.ts:54-62 | filtering out the id and pushing is replacing the record in the keyed collection |
| `KeyedLists.FilterRefinesSelect` | packages/shared-mocks-lib/src/repo/settlement_batch_repo_mock.ts:108-140 | filtering the list is selecting from the keyed collection |
| `Stores.SettlementBatchRepo.UpdateBatch` | packages/shared-mocks-lib/src/repo/settlement_batch_repo_mock.ts:54-62 | replaces or adds the batch at the end |
| `Stores.SettlementBatchRepo.StoreNewBatch` | packages/shared-mocks-lib/src/repo/settlement_batch_repo_mock.ts:50-52 | stores like an update, also when the batch is stored already |
| `Stores.SettlementBatchRepo.GetBatch` | packages/shared-mocks-lib/src/repo/settlement_batch_repo_mock.ts:64-67 | the batch with the id, if any |
| `Stores.SettlementBatchRepo.GetBatchesByName` | packages/shared-mocks-lib/src/repo/settlement_batch_repo_mock.ts:74-100 | exactly the batches of the name |
| `Stores.SettlementBatchRepo.GetBatchesByIds` | packages/shared-mocks-lib/src/repo/settlement_batch_repo_mock.ts:102-106 | exactly the batches whose ids are listed |
| `Stores.SettlementBatchRepo.GetBatchesByCriteria` | packages/shared-mocks-lib/src/repo/settlement_batch_repo_mock.ts:108-156 | exactly the batches that meet all criteria, empty criteria meeting everything |
| `Stores.SettlementBatchTransferRepo.StoreBatchTransfer` | packages/shared-mocks-lib/src/repo/settlement_batch_transfer_repo_mock.ts:47-55 | replaces or adds the transfer at the end |
| `Stores.SettlementBatchTransferRepo.GetAllTransfersByBatchId` | packages/shared-mocks-lib/src/repo/settlement_batch_transfer_repo_mock.ts:122-124 | exactly the transfers of the batch |
| `Stores.SettlementMatrixRequestRepo.StoreMatrix` | packages/shared-mocks-lib/src/repo/settlement_matrix_request_repo_mock.ts:47-54 | replaces or adds the matrix at the end |
| `Stores.SettlementMatrixRequestRepo.GetMatrixById` | packages/shared-mocks-lib/src/repo/settlement_matrix_request_repo_mock.ts:56-65 | the matrix with the id, if any |
| `Stores.SettlementMatrixRequestRepo.GetIdleMatricesWithBatchId` | packages/shared-mocks-lib/src/repo/settlement_matrix_request_repo_mock.ts:107-120 | exactly the IDLE matrices that list the batch, once each |
| `MatrixObjects.SettlementMatrix.AddBalance` | packages/domain-lib/src/types/matrix.ts:88-170 | the loop over payer and payee makes of the three tables what `Totals.AddAmountExact` describes, throws exactly where that does, and changes nothing else of the matrix |
| `MatrixObjects.SettlementMatrix.constructor` | packages/domain-lib/src/types/matrix.ts:240-262 | takes over every field of the stored matrix |
| `MatrixObjects.SettlementMatrix.AddBatch` | packages/domain-lib/src/types/matrix.ts:188-203 | appends one row |
| `MatrixObjects.SettlementMatrix.RemoveBatchById` | packages/domain-lib/src/types/matrix.ts:205-207 | removes the rows with the id |
| `MatrixObjects.SettlementMatrix.RemoveBatch` | packages/domain-lib/src/types/matrix.ts:209-211 | removes the rows of the batch |
| `MatrixObjects.SettlementMatrix.Clear` | packages/domain-lib/src/types/matrix.ts:213-218 | empties the list and the three tables and nothing else |
| `LedgerObjects.AccountsBalancesAdapter.CreateAccount` | packages/shared-mocks-lib/src/adapter/accounts_balances_adapter_mock.ts:113-116 | appends an account without postings |
| `LedgerObjects.AccountsBalancesAdapter.GetAccount` | packages/shared-mocks-lib/src/adapter/accounts_balances_adapter_mock.ts:117-125 | the first account with the id, its balances printed |
| `LedgerObjects.AccountsBalancesAdapter.GetAccounts` | packages/shared-mocks-lib/src/adapter/accounts_balances_adapter_mock.ts:127-136 | the accounts found, in the order asked for |
| `LedgerObjects.AccountsBalancesAdapter.CreateJournalEntries` | packages/shared-mocks-lib/src/adapter/accounts_balances_adapter_mock.ts:148-179 | posts the entries in order, up to the first amount that cannot be read |
| `BatchObjects.SettlementBatch.AddAccount` | packages/domain-lib/src/types/batch.ts:77-85 | appends an account with zero balances |
| `BatchObjects.SettlementBatch.GetAccount` | packages/domain-lib/src/types/batch.ts:87-92 | the first account of the participant and currency |
| `Refreshing.RefreshPointwise` | packages/domain-lib/src/aggregate.ts:1098-1108 | refreshing succeeds iff every account of the batch is in the ledger, and then each shows the posted debit and credit of its own ledger account, in order |
| `Refreshing.JournalledShowsPosted` | packages/domain-lib/src/aggregate.ts:1031-1042 | after a transfer was journalled every account of its batch shows as debit and credit what is posted on the ledger account under its id |
| `Refreshing.UpdateBatchAccountBalances` | packages/domain-lib/src/aggregate.ts:1088-1110 | one fetch, then each account of each batch gets its own balances; fails iff an account is missing |
| `Aggregates.SettlementsAggregate.OpenAccount` | packages/domain-lib/src/aggregate.ts:959-991 | finds the account of the participant in the batch, or opens exactly one in the ledger and in the batch under the same fresh id |
| `Aggregates.SettlementsAggregate.JournalTransfer` | packages/domain-lib/src/aggregate.ts:957-1042 | both accounts, one entry, the transfer stored with its journal mark and the refreshed balances; where the amount cannot be read or an account is missing, exactly what was stored until then |
| `Aggregates.SettlementsAggregate.RecalculateMatrix` | packages/domain-lib/src/aggregate.ts:904-1086 | the nested loops leave the books and the matrix of `Recalculate`, about which the rows above speak, and throw exactly where it does |
| `Aggregates.SettlementsAggregate.GetOrCreateBatch` | packages/domain-lib/src/aggregate.ts:1141-1214 | finds or creates the batch that `BatchSequences.AllocationExact` describes, drawing a fresh id only for a new one |
| `Aggregates.SettlementsAggregate.HandleTransfer` | packages/domain-lib/src/aggregate.ts:225-289 | refuses in the order of the checks without storing anything; otherwise the effect of `BatchSequences.AddTransferExact` |
| `Aggregates.SettlementsAggregate.CreateSettlementConfig` | packages/domain-lib/src/aggregate.ts:329-383 | refuses missing names, zero intervals and existing models; otherwise adds the model and changes nothing else |
| `Aggregates.SettlementsAggregate.CreateStaticSettlementMatrix` | packages/domain-lib/src/aggregate.ts:386-422 | refuses an id in use; otherwise the new matrix lists exactly the batches found, or stays BUSY when the recalculation throws |
| `Aggregates.SettlementsAggregate.CreateDynamicSettlementMatrix` | packages/domain-lib/src/aggregate.ts:424-469 | refuses an id in use; otherwise the new matrix lists exactly the batches that meet its criteria, or stays BUSY |
| `Aggregates.SettlementsAggregate.RecalculateSettlementMatrix` | packages/domain-lib/src/aggregate.ts:291-327 | only from IDLE or OUT_OF_SYNC; the matrix becomes IDLE and fresh (`Effects.RecalculateAndStoreEffect`) or stays BUSY |
| `Aggregates.SettlementsAggregate.AddBatchesToStaticSettlementMatrix` | packages/domain-lib/src/aggregate.ts:472-520 | only for an IDLE static matrix; adds each batch found that is not listed yet, then recalculates |
| `Aggregates.SettlementsAggregate.RemoveBatchesFromStaticSettlementMatrix` | packages/domain-lib/src/aggregate.ts:523-570 | only for an IDLE static matrix; removes each batch found that is listed, then recalculates |
| `Aggregates.SettlementsAggregate.BeginMove` | packages/domain-lib/src/aggregate.ts:574-595 | the five commands below refuse an unknown matrix or a wrong state without storing anything, and otherwise continue from the stored BUSY matrix and its completed recalculation |
| `Aggregates.SettlementsAggregate.DisputeSettlementMatrix` | packages/domain-lib/src/aggregate.ts:574-629 | only for an IDLE matrix; its selected OPEN and CLOSED batches become DISPUTED (`Effects.MoveMatrixEffect`) |
| `Aggregates.SettlementsAggregate.LockSettlementMatrixForAwaitingSettlement` | packages/domain-lib/src/aggregate.ts:631-688 | only for an IDLE matrix, which becomes LOCKED; its selected OPEN and CLOSED batches become AWAITING_SETTLEMENT and its own |
| `Aggregates.SettlementsAggregate.UnLockSettlementMatrixFromAwaitingSettlement` | packages/domain-lib/src/aggregate.ts:690-744 | only for a LOCKED matrix, which becomes IDLE; the selected batches it owns become CLOSED and lose their owner |
| `Aggregates.SettlementsAggregate.CloseSettlementMatrix` | packages/domain-lib/src/aggregate.ts:746-801 | only for an IDLE matrix; its selected OPEN and DISPUTED batches become CLOSED |
| `Aggregates.SettlementsAggregate.SettleSettlementMatrix` | packages/domain-lib/src/aggregate.ts:803-882 | only for a LOCKED matrix, which becomes FINALIZED; its selected AWAITING_SETTLEMENT batches become SETTLED and the event of `Events.SettleExact` is sent after the mark message |
| `Aggregates.SettlementsAggregate.RemoveNotAwaiting` | packages/domain-lib/src/aggregate.ts:827-829 | removing by id from the list that is being walked leaves exactly what `Effects.DropLeavesAwaiting` says |
| `Aggregates.SettlementsAggregate.MarkMatrixOutOfSyncWhereBatch` | packages/domain-lib/src/aggregate.ts:884-902 | the nested loops have the effect of `Effects.MarkOutOfSyncExact` |
| `Handler.SettlementsCommandHandler.MsgHandler` | packages/command-handler-svc/src/handler.ts:88-190 | dispatches every message to its method and swallows errors, keeping what was stored before the error; the invariant of the protocol survives every message |
| `Handler.SettlementsCommandHandler.Deliver` | packages/command-handler-svc/src/handler.ts:171-178 | delivering a pending mark message is the corresponding step |
| `Handler.SettlementsCommandHandler.Consume` | packages/command-handler-svc/src/handler.ts:81-190 | whatever messages arrive, what the objects hold is the end of a run of the state machine and satisfies its invariant |

## Left out

- Transport and storage: Express routes, start-up, Kafka, Mongo, Redis and gRPC clients, logging, metrics, auditing and the generated durations and timestamps of matrices are I/O or do not influence the state.
- Clocks and random ids: `Date.now` and `randomUUID` are inputs; a random id that the code draws and then replaces by a given one is not drawn.
- TigerBeetle: its write buffer and its journal results are not part of this model; the ledger behaves as the in-memory and gRPC adapters do, one result per entry.
- LedgerObjects.AccountsBalancesAdapter.GetAccount: prints with the decimals of the currency, as the service configures them; the in-memory adapter cited always uses two.
- LedgerObjects.AccountsBalancesAdapter.GetAccounts: the same.
- LedgerObjects.AccountsBalancesAdapter.CreateJournalEntries: reads amounts with the decimals of the currency; the in-memory adapter always uses two.
- Crashes and interleavings: a command runs to its end or to the error it throws; several commands at once, and a process that stops between two writes, are not modelled.
- BatchCache.CacheIsInvisible: entries expire one by one at any time, but a document that was changed by another process while it is cached is not modelled; nothing reads the entries under batch names, so no claim is made about them.
- BatchCache.MongoSettlementBatchRepo.StoreNewBatch: the unique index on the id, created together with the collection, is taken as given.
- Stores.SettlementBatchRepo.StoreNewBatch: stores a batch again without an error, as the in-memory store does; the second insertion of the same new batch (`packages/domain-lib/src/aggregate.ts:1201` and `:269`) would be refused by the Mongo store after everything has been stored.
- Paging: selections without a page size return all records, as the Mongo stores do for internal calls; the page limit of the in-memory stores is not modelled.
- Order of a selection: records come in the order they were last written, as in the in-memory stores; the tables and totals of a completed recalculation do not depend on it.
- Value semantics: stores hand out copies. The one alias the code relies on, the account list shared by the two objects of a batch during a recalculation, is one object here.
- BatchObjects.SettlementBatch.GetAccount: the error for an empty participant id is left out; transfers with an empty payer or payee are refused before they are stored.
- Allocation.StartIsWindow: the quotient is exact where the code divides floating point numbers twice; settlement models with negative or fractional intervals are not modelled.
- Aggregates.SettlementsAggregate.CreateSettlementConfig: stores only the interval of a model, since nothing else of it is read.
- Aggregates.SettlementsAggregate.BeginMove: one method for the common beginning of five commands that the code writes out five times.
- Numbers: batch sequences and timestamps are unbounded integers; the amounts are bigints in the code as well.
- Queries, privileges, the model client, paging for the API and all remaining mocks do not take part in settlement.
