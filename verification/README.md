# Transfer engine: a verified model

A Dafny model of an interbank transfer engine and proofs about every run of it. The
engine moves money in steps (reserve, bank call, pay out, complete, or compensate)
over shared stores: a versioned `transfers` table, an append-only double-entry ledger,
an event log, an outbox and an at-least-once message stream. Any number of processes
interleave, every port call can fail, and every process can stop after any call.

`dafny verify dfyconfig.toml` checks the whole project.

## How it is built

| module | content |
|---|---|
| `Ledger`, `Transfers` | money, entries, postings, signed sums; states, rows and the mutable `Transfer` object |
| `Protocol` | the whole engine as one state machine whose atomic actions are single port calls; runs, and the regimes a theorem can be about (how many workers at a time, faults or none) |
| `History`, `Causality` | the core invariant; row history, causal order, never paid and refunded |
| `Accounting`, `Balances`, `LostPostings` | exact accounting in all runs, balances, what a lost posting costs, exactly-once and its exact condition |
| `Wakeups`, `Overdraft`, `OneAtATime`, `EventLog`, `Announcements` | at-least-once processing, overdraft protection and its exact condition, one-message-at-a-time runs, the event log, no announcement twice |
| `Backend`, `Saga`, `Consumer`, `CreateHandler`, `OutboxRelay` | the imperative code: classes whose methods change the tables step by step under failures and interference; each is proved to take only steps of the state machine, and, when nothing disturbs it, to do exactly what a specification function says |
| `Progress` | what one undisturbed `Execute` does to every table, termination, and exactly when a transfer is completed |
| `Answers` | what rows say about the bank and the source account is true |
| `FinalRows`, `Engine`, `Stall` | the rows that announce the end of a transfer; runs in which relays read batches in id order and publish declared subjects only, and how finished transfers stall them |
| `Recovery`, `Stranded` | which transfers can still be finished from any reachable state, and which never |
| `Witnesses` | runs that reach the states the negative results are about |
| `CreateTransfer` | idempotent creation as a state machine on top of `Protocol` |
| `Relay` | progress and starvation of the outbox relay |
| `Breaker`, `Reconciler`, `Arithmetic` | circuit breaker, ledger reconciliation, division facts |

Faults are built in. A posting commits before the row update that depends on it, so
the model keeps a log of every committed posting and bank call with its fate: open,
applied, or lost. No program reads that log; theorems hold for every fate and sharpen
when nothing is lost.

In the imperative modules the fields of `Backend.Store` are the tables. `reliable` is a
constant of a store, fixed when it is built: if it is true every port call gets through
and no other process acts, and only then do contracts say exactly what a call does; no
body can change it. Calls of such a store are called undisturbed. `replies` are the bank's answers in the order in which they are given.
`Interfere` stands for any steps of other processes: callers learn from it only that the
tables are still a state some run of the protocol has led to.

## What the code does where its documentation says otherwise

- Concurrent debits are not serialised. The row lock is taken on the pool and released
  at once (internal/infrastructure/postgres/account_repo.go:44-50), so the promise of
  docs/failure-modes.md:13 holds exactly for one worker at a time
  (`Overdraft.OverdraftProtectionIsOneWorker`).
- Repeated steps are not no-ops after a crash between posting and row update, contrary
  to docs/failure-modes.md:12; `LostPostings.ExactlyOnceCondition` says exactly when
  they are, and `LostPostings.FinalEffect` and `LostPostings.CrashCost` what crashes cost.
- One `Execute` runs one step; test/integration/happy_path_test.go:63-71 expects a
  transfer to be completed after one call. One call completes a transfer only if it was
  CREDITED before (`Progress.CompletedByOneCall`); a new one needs four calls and more
  (`Progress.CompletedExactlyWhen`).
- A replayed idempotency key works only while its reply is cached. After expiry, or
  when the handler stopped between insert and cache, every retry fails for ever, since
  the lookup by key is never called (`CreateTransfer.AnswerableExactly`).
- The single probe of internal/infrastructure/circuitbreaker/circuit_breaker.go:33-35 is
  kept exactly by callers that make one call at a time (`Breaker.SingleProbeIsOneCaller`).
- `transfer.completed` and `transfer.failed` are not declared subjects
  (cmd/worker/main.go:73-76). Their rows stay pending and hold their places in every
  batch. A row written later can still be relayed exactly while fewer than a hundred of
  them are in the table (`Stall.LaterRowsRelayedExactly`); after that no transfer created
  later ever leaves PENDING (`Engine.LaterTransfersNeverStart`).
- Row, event and outbox row are three separate statements, in the create handler and in
  the saga, although docs/adr/003-outbox-pattern.md and docs/failure-modes.md call the
  outbox transactional. Wake-up claims begin when the first outbox row exists; a transfer
  whose handler stopped before that is never processed (`Witnesses.HandlerStops`,
  `Stranded.AsleepForever`).

## Model

| member | source | states |
|---|---|---|
| `Ledger.NewPosting` | internal/domain/ledger/ledger.go:20-47 | succeeds exactly for a valid non-zero amount and two different accounts, and is then balanced |
| `Ledger.PostingMoves` | internal/domain/ledger/ledger.go:20-50 | a posting moves its amount between exactly two balances and leaves every currency total alone |
| `Ledger.ReversalUndoes` | internal/domain/ledger/ledger.go:52-62 | a posting and its reversal, anywhere in any ledger, leave every balance and total as they were |
| `Ledger.SumPermutation` | internal/infrastructure/postgres/ledger_repo.go:51-66 | a signed sum does not depend on the order in which entries are read |
| `Ledger.BalancesSumToTotal` | internal/infrastructure/postgres/ledger_repo.go:51-66 | the balances of all accounts add up to the reconciler's total of the currency |
| `Ledger.Wrap64` | internal/domain/ledger/entry.go:59-64 | wrap-around keeps a value modulo 2^64 within the signed 64-bit range |
| `Transfers.NewRow` | internal/domain/transfer/transfer.go:85-108 | exactly the commands that are accepted, and that a new transfer is PENDING at version 1 with nothing posted |
| `Transfers.Transfer.Transition` | internal/domain/transfer/transfer.go:73-83 | succeeds exactly for legal moves, changing state and version only; otherwise changes nothing |
| `History.CoreRun` | internal/application/saga/transfer_saga.go:85-301 | in every run: rows are the last version of a legal path, every worker's copy is a version or a legal successor of one, every log record belongs to a stored transfer, the ledger is the opening ledger plus the log |
| `History.TableOfMoves` | internal/domain/transfer/transfer.go:62-70 | the table allows exactly the saga's moves and compensation after BANK_CALLED or CREDITED; exactly finished states have no way on |
| `History.UpdateIsCurrent` | internal/infrastructure/postgres/transfer_repo.go:70-93 | a compare-and-set that succeeds was made from the current row and stores exactly the worker's copy |
| `Causality.NeverPaidAndRefunded` | internal/application/saga/transfer_saga.go:144-239 | in every interleaved, faulty run the ledger never holds both a payout and a refund of one transfer |
| `Causality.NeverClawedBack` | internal/application/saga/transfer_saga.go:223-230 | the credit leg is never reversed, and no worker is ever about to do it |
| `Causality.CausalOrder` | internal/application/saga/transfer_saga.go:128-239 | every bank call follows a committed debit, every payout an accepted call, every refund a refused call, of the same transfer |
| `Causality.RowHistoryIsLinear` | internal/infrastructure/postgres/transfer_repo.go:70-93 | row versions are 1, 2, 3, ..., each written once, each move legal, contract columns constant, the last one current |
| `Causality.UpdateOnlyFromCurrent` | internal/infrastructure/postgres/transfer_repo.go:70-93 | an update changes the table if and only if the worker's copy was made from the current row; otherwise the worker gives up |
| `Causality.StateFixesVersionAndFlags` | internal/application/saga/transfer_saga.go:132-239 | in every reachable state the stored state fixes version and flags; the credit flag holds only in CREDITED and COMPLETED |
| `Answers.RowsTellTheTruth` | internal/application/saga/transfer_saga.go:147-169 | in every run the external reference is that of an accepting bank call for the transfer, the failure reason that of a refusing one, or the reason for which the source account was found unable to pay; all other rows have neither |
| `Answers.StoreTellsTheTruth` | internal/infrastructure/postgres/transfer_repo.go:70-93 | the same for the stored rows at any time, whatever fails or interferes |
| `Accounting.BooksRun` | internal/application/saga/transfer_saga.go:101-265 | in every run the applied postings and bank calls of each transfer are exactly those its row shows, each once |
| `Balances.ExactAccounting` | internal/application/saga/transfer_saga.go:101-265 | in every run a transfer's net effect on any account is what its row stands for plus its unapplied postings |
| `Balances.EveryBalance` | internal/infrastructure/postgres/ledger_repo.go:51-66 | every balance is the opening balance plus what all rows stand for plus the unapplied postings |
| `Balances.FloatHoldsMoneyInTransit` | internal/application/saga/transfer_saga.go:120-265 | with nothing unapplied the float holds its opening balance plus the amounts in DEBITED, BANK_CALLED and COMPENSATING |
| `Balances.ExactlyOnceWhenApplied` | internal/application/saga/transfer_saga.go:85-282 | with nothing of the transfer unapplied each effect happened exactly as often as the row shows, and the net effect is what the row stands for; COMPLETED moved the amount once, FAILED nothing |
| `Balances.LedgerOnlyGrows` | internal/infrastructure/postgres/ledger_repo.go:21-49 | entries are only ever appended to the ledger a run began with |
| `Balances.TotalsAreConserved` | internal/infrastructure/postgres/ledger_repo.go:21-49 | no run, however faulty, changes a currency's total |
| `Balances.RefundIsReversalOfReserve` | internal/application/saga/transfer_saga.go:241-252 | the hand-built refund changes every balance as the reversal of the reserve posting would |
| `LostPostings.UnappliedEffect` | internal/application/saga/transfer_saga.go:128-138 | the unapplied part of a transfer's effect is its number of unapplied debits, payouts and refunds times the effect of one |
| `LostPostings.FinalEffect` | internal/application/saga/transfer_saga.go:128-239 | in every run a COMPLETED transfer has debited once plus once per lost debit and credited once plus once per lost payout; a FAILED one debited and refunded only what was lost |
| `LostPostings.CompletedMovesOnceIff` | internal/application/saga/transfer_saga.go:128-207 | a COMPLETED transfer has moved its amount exactly once if and only if none of its postings was lost |
| `LostPostings.FailedMovesNothingIff` | internal/application/saga/transfer_saga.go:211-282 | a FAILED transfer has moved nothing if and only if as many refunds as debits were lost |
| `LostPostings.CrashDebitsTwice` | internal/application/saga/transfer_saga.go:128-138 | a concrete run: one worker stops between posting and row update, retries, and debits twice |
| `LostPostings.ExactlyOnceCondition` | internal/application/saga/transfer_saga.go:83-97 | no posting or bank call is ever repeated if and only if no worker runs, or one at a time without faults |
| `LostPostings.CrashCost` | internal/application/saga/transfer_saga.go:128-138 | one message at a time, a finished transfer has at most as many lost postings as its own calls crashed between posting and row update; a COMPLETED one has overcharged its source and overpaid its destination at most that many times |
| `Wakeups.WakeUpsAreNeverLost` | internal/infrastructure/nats/consumer.go:76-81 | in every run a transfer with an outbox row is finished, or has a pending outbox row or an unacknowledged message |
| `Wakeups.PublishedMeansPublished` | cmd/outbox-relay/main.go:113-127 | in every crashing run a row marked PUBLISHED was truly published |
| `Overdraft.SolventRun` | internal/application/saga/transfer_saga.go:112-130 | one message at a time, crashes anywhere: a customer balance that starts non-negative stays non-negative |
| `Overdraft.TwoWorkersDebitTwice` | internal/infrastructure/postgres/account_repo.go:44-50 | a concrete fault-free run of two workers that takes a balance from 5 to -5 |
| `Overdraft.OverdraftProtectionIsOneWorker` | internal/infrastructure/nats/consumer.go:60-82 | no customer is ever overdrawn if and only if at most one message is handled at a time |
| `OneAtATime.SingleRun` | internal/infrastructure/nats/consumer.go:60-82 | one message at a time: every copy is current, no compare-and-set fails, and without faults nothing is lost |
| `OneAtATime.LostByCrashes` | internal/application/saga/transfer_saga.go:128-163 | one message at a time, a transfer loses at most one posting or bank call per crash of its own calls between it and the row update |
| `OneAtATime.ExactlyOnce` | internal/application/saga/transfer_saga.go:85-282 | in every state of every fault-free run, whatever is repeated, reordered or still being processed: no posting or bank call is repeated; a transfer that is finished or that nobody is about to store has each effect exactly as often as its row shows; COMPLETED moved the amount, FAILED nothing |
| `EventLog.EventsFollowTheRow` | internal/application/saga/transfer_saga.go:277-301 | one message at a time, crashes anywhere: a transfer's events are an in-order subsequence of its row's states, none twice |
| `EventLog.EventsAreThePath` | internal/application/saga/transfer_saga.go:136-141 | without faults, whenever nobody is about to append an event of the transfer, its events are exactly the states of its path except COMPENSATING |
| `Announcements.AnnouncedOnce` | internal/application/saga/transfer_saga.go:277-301 | in every run, with any number of workers and any faults, no state of a transfer is announced twice, in the event log or in the outbox, and only states its row has been in |
| `Announcements.AnnouncementsAreBounded` | internal/application/saga/transfer_saga.go:284-301 | in every run a transfer has at most as many events, and at most as many outbox rows, as versions, and every event has the type of its state |
| `Backend.Store.FindByID` | internal/infrastructure/postgres/transfer_repo.go:42-54 | the stored row or an error, as a protocol step |
| `Backend.Store.LockForUpdate` | internal/infrastructure/postgres/account_repo.go:44-50 | the account's current status or an error; no lock outlives the call |
| `Backend.Store.GetBalance` | internal/infrastructure/postgres/ledger_repo.go:51-66 | the signed sum of the account's entries, an error if it does not fit 64 bits |
| `Backend.Store.PostEntries` | internal/infrastructure/postgres/ledger_repo.go:21-49 | all entries or none; an error may hide a commit |
| `Backend.Store.UpdateState` | internal/infrastructure/postgres/transfer_repo.go:70-93 | writes the mutable columns exactly when the stored version is one behind; otherwise nothing |
| `Backend.Store.Save` | internal/infrastructure/postgres/transfer_repo.go:22-40 | inserts exactly when id and idempotency key are free |
| `Backend.Store.PublishRow` | internal/infrastructure/nats/publisher.go:25-31 | only declared subjects are accepted; an error may hide a message that arrived |
| `Saga.TransferSaga.PublishEvent` | internal/application/saga/transfer_saga.go:284-301 | event, then outbox row, as protocol steps that are through exactly on a nil return; undisturbed, one of each is added |
| `Saga.TransferSaga.FailWith` | internal/application/saga/transfer_saga.go:269-282 | only protocol steps; undisturbed, the row becomes FAILED with the reason and is announced |
| `Saga.TransferSaga.ReserveDebit` | internal/application/saga/transfer_saga.go:101-142 | only protocol steps; undisturbed, the three outcomes of status check, balance check and debit |
| `Saga.TransferSaga.CallBank` | internal/application/saga/transfer_saga.go:144-169 | only protocol steps; undisturbed, BANK_CALLED with the reference, or compensation with the refusal, that the bank's next answer carries; one answer is used up |
| `Saga.TransferSaga.PostCredit` | internal/application/saga/transfer_saga.go:171-196 | only protocol steps; undisturbed, the payout is posted and the row CREDITED |
| `Saga.TransferSaga.Complete` | internal/application/saga/transfer_saga.go:198-207 | only protocol steps; undisturbed, the row becomes COMPLETED and is announced |
| `Saga.TransferSaga.StartCompensation` | internal/application/saga/transfer_saga.go:211-220 | COMPENSATING is stored before anything is reversed |
| `Saga.TransferSaga.Compensate` | internal/application/saga/transfer_saga.go:223-265 | only protocol steps; undisturbed, the debit is returned and the row FAILED |
| `Saga.TransferSaga.Execute` | internal/application/saga/transfer_saga.go:85-97 | whatever fails or interferes, only protocol steps, ending ready to ack exactly when the result is nil; undisturbed, the tables are those of `Executed` with the bank's next answer, and accounts and stream stay |
| `Consumer.Subscriber.Subscribe` | internal/infrastructure/nats/consumer.go:45-83 | with other processes acting between any two calls, any number of rounds takes only protocol steps and loses no wake-up; undisturbed, each round takes an unacknowledged message while any is left, and tables, errors and stream are those of executing and acknowledging them in turn |
| `Consumer.Subscriber.HandleMessage` | internal/infrastructure/nats/consumer.go:76-81 | undisturbed, the tables and the error are those of one Execute of the message's transfer, exactly this message is acknowledged on nil, and none on error |
| `Consumer.AckedExactly` | internal/infrastructure/nats/consumer.go:76-81 | a message is acknowledged if and only if it was before or one of its executions returned nil; nothing else about any message changes |
| `Consumer.ConsumedDrains` | internal/infrastructure/nats/consumer.go:60-82 | every delivery whose execution returns nil leaves one unacknowledged message less |
| `Consumer.EnoughRoundsDrain` | internal/infrastructure/nats/consumer.go:60-82 | as many nil executions as there were unacknowledged messages acknowledge every message |
| `Consumer.StoreLosesNoWakeUp` | internal/infrastructure/nats/consumer.go:76-81 | in every state of the store, an unfinished transfer with an outbox row has a pending row or an unacknowledged message |
| `Progress.OneCall` | internal/application/saga/transfer_saga.go:101-301 | column by column and entry by entry what an undisturbed call does: state, flags, reference, reason, the two ledger entries of the step, one event and one outbox row |
| `Progress.ExecuteLowersRank` | internal/application/saga/transfer_saga.go:72-97 | an undisturbed Execute does nothing to a finished transfer; on others it fails, changing nothing, exactly when blocked, and otherwise lowers a rank and touches no other row |
| `Progress.FourCallsFinish` | internal/application/saga/transfer_saga.go:72-97 | between customer accounts, with an existing source whose balance fits 64 bits, four undisturbed calls finish any transfer, and further calls change nothing |
| `Progress.CompletedByOneCall` | internal/application/saga/transfer_saga.go:85-97 | one undisturbed call leaves a transfer COMPLETED if and only if it was CREDITED or COMPLETED |
| `Progress.CompletedExactlyWhen` | internal/application/saga/transfer_saga.go:72-207 | undisturbed calls complete a new transfer if and only if there are at least four, the source is active, readable and funded, neither account is the float, and the bank accepts the second call |
| `Recovery.UndisturbedExecute` | internal/application/saga/transfer_saga.go:85-97 | from any state with the core invariant, a worker handed a message can make exactly the changes of `Executed` by protocol steps, whatever the bank answers |
| `Recovery.OneMore` | internal/infrastructure/nats/consumer.go:60-82 | as long as a message is not acknowledged, its transfer can be executed once more, by steps that process no other transfer |
| `Recovery.RoundRun` | cmd/outbox-relay/main.go:80-133 | an undisturbed relay round is a run of the protocol: the table becomes `AfterRound`, the stream grows by the batch's declared rows |
| `Recovery.DriveOn` | internal/application/saga/transfer_saga.go:83-97 | from every reachable state, whatever failed and whoever is busy, a transfer that can be woken can be driven by its own messages to the tables of any number of undisturbed calls, for every sequence of bank answers |
| `Recovery.FinishWhateverTheBank` | internal/application/saga/transfer_saga.go:72-97 | between customer accounts any four bank answers bring it to an end |
| `Stranded.AsleepForever` | internal/application/command/create_transfer.go:87-99 | a transfer nobody is handling and nothing can wake stays exactly as it is in every continuation of the engine, with any other transfers, faults and account changes |
| `Stranded.DeadEndForever` | internal/application/saga/transfer_saga.go:174-181 | a bank-accepted payout to the float account is never posted, in any continuation |
| `Stranded.HaltedForever` | internal/application/saga/transfer_saga.go:104-127 | a reservation from a missing, unreadable or funded float account stays PENDING as long as no other transfer is processed |
| `Stranded.RecoverableExactly` | internal/application/saga/transfer_saga.go:83-97 | from every reachable state in which nobody is handling it, an unfinished transfer can be finished by its own messages if and only if it has an unacknowledged message, a pending row within reach of the relays, or a handler about to write one, and its calls need not fail |
| `Stranded.RecoverableAfterRestart` | docs/failure-modes.md:8 | the same for every reachable state once the running processes have stopped, with nothing else lost |
| `Witnesses.HandlerStops` | internal/application/command/create_transfer.go:87-99 | a run of the engine reaches a transfer that nothing will ever wake |
| `Witnesses.FloatAsSource` | internal/application/saga/transfer_saga.go:120-127 | a run of the engine reaches a blocked reservation from the float account |
| `Witnesses.FloatAsDestination` | internal/application/saga/transfer_saga.go:174-181 | a run of the engine reaches a bank-accepted payout to the float account |
| `Witnesses.UnblockedByAnother` | internal/application/saga/transfer_saga.go:112-127 | a run in which a blocked reservation from the float account is unblocked by another transfer's payout and then fails for lack of funds |
| `CreateTransfer.CreationRefinesProtocol` | internal/application/command/create_transfer.go:87-99 | whatever create calls do, the engine underneath makes a run of the protocol, so every theorem about runs applies |
| `CreateTransfer.IdempotentRun` | internal/application/command/create_transfer.go:56-143 | the invariant of creation: keys unique, cached and answered ids are the key's transfer, each created transfer belongs to one call |
| `CreateTransfer.OneTransferPerKey` | migrations/003_transfers.sql:4 | for any interleaving, failures and expiries: at most one row per key, every cached reply names it, all successful replies carry its id |
| `CreateTransfer.SpentForever` | internal/application/command/create_transfer.go:105-119 | a key with a transfer, no cached reply and no creating call in progress is never answered again |
| `CreateTransfer.AnswerableExactly` | internal/application/command/create_transfer.go:56-103 | from any reachable state a key can still be answered if and only if it is cached, its creating call is in progress, or it is free |
| `CreateTransfer.CrashSpendsTheKey` | internal/application/command/create_transfer.go:87-103 | for every key, a run in which one call stops right after Save and the key can never be answered again |
| `CreateHandler.IdempotencyStore.Get` | internal/infrastructure/redis/idempotency_store.go:22-31 | the cached reply, a miss, or an error |
| `CreateHandler.IdempotencyStore.SetIfAbsent` | internal/infrastructure/redis/idempotency_store.go:33-39 | the first writer wins; an error may hide a stored value |
| `CreateHandler.CreateTransferHandler.CheckIdempotency` | internal/application/command/create_transfer.go:105-119 | a hit is answered from the cache, a miss goes on, an error ends the call |
| `CreateHandler.CreateTransferHandler.ValidateAccounts` | internal/application/command/create_transfer.go:121-134 | undisturbed, passes exactly when both accounts exist and are active |
| `CreateHandler.CreateTransferHandler.CacheResult` | internal/application/command/create_transfer.go:136-143 | success means the reply was recorded; a value already cached stays |
| `CreateHandler.CreateTransferHandler.Handle` | internal/application/command/create_transfer.go:56-103 | whatever fails or interferes, only creation steps; a successful reply names the one transfer of its key, and one not from the cache a transfer with the command's key, accounts and amount; undisturbed, tables, cache and reply are those of `Handled` |
| `CreateHandler.CreatesExactly` | internal/application/command/create_transfer.go:56-103 | an undisturbed call creates a transfer if and only if the key is uncached, free and not empty, the id is free, both accounts are active and different and the amount is valid and positive; then the new row has exactly the command's data, with one event, one outbox row and the cached reply; otherwise nothing changes |
| `CreateHandler.Retry` | docs/failure-modes.md:7 | a retry under the same key replays the reply and changes nothing while it is cached, and is an error that changes nothing once it has expired |
| `Relay.RoundFrees` | cmd/outbox-relay/main.go:80-127 | a round frees every ready row the batch has room for and no stuck one |
| `Relay.PublishedInTime` | cmd/outbox-relay/main.go:80-133 | with f < n stuck and k ready rows ahead, a declared row is published within k / (n - f) + 1 rounds, whatever arrives behind it |
| `Relay.NeverPublished` | cmd/outbox-relay/main.go:80-90 | behind a full batch of stuck rows nothing is ever published |
| `Relay.PublishedIffRoomInBatch` | cmd/outbox-relay/main.go:80-133 | a declared pending row is eventually published if and only if fewer than a batch of stuck rows are ahead |
| `FinalRows.FinalRun` | internal/application/saga/transfer_saga.go:198-282 | in every run a `transfer.completed` or `transfer.failed` outbox row belongs to a finished transfer |
| `FinalRows.FinishedAreAnnounced` | internal/application/saga/transfer_saga.go:277-301 | without faults, with any number of workers, every finished transfer has such a row or its worker is about to write it |
| `FinalRows.MovedRun` | internal/infrastructure/nats/consumer.go:60-82 | in every run a transfer that has left PENDING has had a message |
| `Engine.RelayedOnlyWithinReach` | cmd/outbox-relay/main.go:80-127 | in every run of the engine a row is published, or has a message, only with fewer than a batch of stuck rows ahead, and the stuck rows are exactly those that announce the end of a finished transfer |
| `Engine.FinishedTransfersStallTheEngine` | cmd/worker/main.go:73-76 | once a full batch of stuck rows is in the table, no row written later is published in any continuation |
| `Engine.AnnouncedEndsFill` | cmd/worker/main.go:73-76 | the announced ends of a hundred transfers are such a full batch |
| `Engine.FinishedTransfersFill` | cmd/worker/main.go:73-76 | without faults a hundred finished transfers whose workers are through are enough |
| `Stall.LaterRowsRelayedExactly` | cmd/outbox-relay/main.go:80-133 | from every reachable state some continuation relays a row written later if and only if fewer than a batch of stuck rows are in the table |
| `Engine.LaterTransfersNeverStart` | cmd/outbox-relay/main.go:80-90 | once a full batch of stuck rows is in the table, a transfer created later never leaves PENDING, in any continuation |
| `Witnesses.RelayStalls` | cmd/worker/main.go:73-76 | a run of the engine reaches an unfinished transfer whose pending request no relay will ever publish |
| `OutboxRelay.SelectPending` | cmd/outbox-relay/main.go:80-107 | exactly the first n pending rows, in id order |
| `OutboxRelay.Relayer.RelayRow` | cmd/outbox-relay/main.go:113-127 | a row is marked only after its publish succeeded, whatever fails or interferes |
| `OutboxRelay.Relayer.Round` | cmd/outbox-relay/main.go:80-133 | only protocol steps; undisturbed, exactly the declared rows among the first n pending become published, each is sent once in id order, the counter is their number, and nothing else changes |
| `Breaker.CircuitBreaker.Call` | internal/infrastructure/circuitbreaker/circuit_breaker.go:54-78 | invoked exactly when admitted; the new state is that of the two critical sections, CLOSED without failures after a success |
| `Breaker.CircuitBreaker.OnFailure` | internal/infrastructure/circuitbreaker/circuit_breaker.go:80-87 | counts the failure and opens exactly in HALF_OPEN or at the limit |
| `Breaker.SoundRun` | internal/infrastructure/circuitbreaker/circuit_breaker.go:54-92 | under all interleavings of in-flight calls the count stays below the limit, HALF_OPEN means a call is in flight, OPEN began in the past, and no more calls are in flight than callers make at a time |
| `Breaker.OpenRejects` | internal/infrastructure/circuitbreaker/circuit_breaker.go:56-64 | in every reachable OPEN state before the timeout an entry changes nothing |
| `Breaker.ManyProbes` | internal/infrastructure/circuitbreaker/circuit_breaker.go:54-65 | for every breaker and any number of callers, a run from a new breaker in which all of them probe at once |
| `Breaker.SingleProbeIsOneCaller` | internal/infrastructure/circuitbreaker/circuit_breaker.go:33-35 | HALF_OPEN means exactly one call in flight in every run if and only if callers make at most one call at a time |
| `Breaker.SequentialCall` | internal/infrastructure/circuitbreaker/circuit_breaker.go:54-92 | for sequential calls with any outcomes: invoked unless OPEN and the timeout has not passed; after a success CLOSED; after a failure OPEN exactly if it was a probe or completes maxFailures calls in a row that found it CLOSED and failed |
| `Breaker.SuccessLetsTheNextThrough` | internal/infrastructure/circuitbreaker/circuit_breaker.go:89-92 | the call after an invoked success is always invoked |
| `Breaker.HealthyServiceIsServed` | internal/infrastructure/circuitbreaker/circuit_breaker.go:89-92 | a service whose calls all succeed is invoked every time |
| `Breaker.LoadBound` | internal/infrastructure/circuitbreaker/circuit_breaker.go:54-87 | sequential calls to an always-failing service invoke it at most maxFailures + T / resetTimeout times in time T |
| `Breaker.LoadBoundIsReached` | internal/infrastructure/circuitbreaker/circuit_breaker.go:54-87 | the load bound is the best possible at every multiple of the timeout |
| `Reconciler.Totals` | cmd/reconciler/main.go:69-72 | the loop computes, for exactly the currencies that occur, the true total wrapped to 64 bits |
| `Reconciler.Reconcile` | cmd/reconciler/main.go:63-90 | reports drift if and only if some currency's wrapped total is not zero |
| `Reconciler.NoReportIff` | cmd/reconciler/main.go:74-84 | nothing is reported exactly when every true total is a multiple of 2^64 |
| `Reconciler.DriftOnlyFromTheStart` | cmd/reconciler/main.go:62-90 | in every run and any reading order drift is reported exactly if the opening ledger already drifted |

## Left out

- HTTP handlers, middleware, routing, logging, metrics, process wiring and shutdown: no hard property.
- Message encoding: a message carries a transfer id. The create handler marshals a struct without the field name the worker reads (internal/application/command/create_transfer.go:96, cmd/worker/main.go:84-90), so nothing is claimed about JSON end to end.
- SQL, Redis and NATS internals: tables, a map whose keys may vanish at any time, and an at-least-once queue, each with atomic operations. Foreign keys and column widths are not modelled; an insert they refuse is one of the failures every port call may have. Stream limits, redelivery delays and message deduplication are not modelled; any unacknowledged message may be delivered at any time.
- Timestamps, descriptions, entry and transaction ids: a ledger entry carries a memo with its kind and transfer instead. Fresh transfer ids are parameters. A generated id that is already taken is refused by the insert.
- The refusal text for an account that cannot transact: the model uses a constant; the source adds account id and status.
- Reuse of an idempotency key with a different body: documented, but nothing in the code compares payloads.
- The `idempotency:` key prefix: a constant injective renaming.
- Money.Add, Money.Sub and String, FindByIdempotencyKey, the processed-events table and the mock bank: unused by the modelled paths or easy.
- Endless loops: the consumer is modelled for any number of rounds and the relay round by round.
- The second record of a compensation: reversing the credit leg is part of the step functions and of `Saga.TransferSaga.Compensate`, but it is proved unreachable, so the bookkeeping slot of a worker holds one record only.
- Progress.ExecuteLowersRank: the float account is taken to exist in the accounts table; a foreign key would refuse the posting otherwise.
- Saga.TransferSaga.Compensate: its undisturbed outcome is stated for rows with the debit posted and the credit not, which is every reachable COMPENSATING row.
- CreateHandler.CreateTransferHandler.Create: its undisturbed outcome is stated for a key that is not cached, which is where `Handle` calls it.
- Stranded.RecoverableExactly: is about continuations in which no other transfer is processed and no account changes, because another transfer can change the balance that blocks a reservation (`Witnesses.UnblockedByAnother`); it says that a finishing continuation exists, not that the scheduler takes it. A call in progress can still end a transfer that nothing else can wake, so the state is one in which nobody is handling the transfer; `Stranded.RecoverableAfterRestart` covers all others.
- SKIP LOCKED: the engine's batches are the first pending rows, as for the one relay that is deployed; two relays whose SELECT statements overlap could skip each other's rows.
- Breaker.LoadBound: sequential calls only; concurrent callers can all probe at once, as `Breaker.ManyProbes` shows.
