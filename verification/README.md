# Money path of the payment platform: a Dafny model

The platform moves money in three services. The wallet service keeps balances and an
append-only ledger, and changes them by optimistic compare-and-set. The transfer service
debits one wallet, credits another, compensates if that fails, and stores the transfer row
together with an outbox event. A worker publishes outbox events to a topic (or to a
dead-letter topic), and the notification service claims and saves one notification per event.
This project models that path and proves what it guarantees when calls interleave in any
order, when any store, network or broker access fails, loses its acknowledgement or its
reply, and when processes die between any two accesses.

## How it is built

Every component appears twice.

* As a **class** in the form of its source: `WalletStore.Repo`, `WalletCalls.Service` (the
  retry loop of `mutate`), `Breaker.Circuit`, `WalletClient.Client`, `TransferStore.Tables`
  and `Cache`, `Saga.Service` (`Create`), `Outbox.OutboxStore`, `ReliablePublisher` and
  `Worker`, `Notification.Store`, `Service` and `Runner`. Between two accesses of a store the
  methods let everybody else run (`Interfere`, `Insertions`): other callers may do whatever
  keeps the store's invariant. A failure is a nondeterministic choice, unless the object was
  made `healthy`, `up`, `reliable` or `patient`, which says that it does not have it.
* As a **step function** over values (`WalletCalls.Step`, `Saga.On`, `OutboxRuns.Step`,
  `Platform.ConsumerStep`), one store, network or broker access per step. The methods'
  contracts say that they follow these functions. `WalletRuns` runs any number of wallet
  calls; `Platform` runs everything together: wallet calls, Create calls with the breakers of
  their processes, the transfer database and cache, workers, topics and consumers.

Theorems about whole runs quantify over every sequence of actions from the empty platform.
The files build on each other in this order: `Wrappers`, `Keys`, `Ledger`, `WalletStore`,
`WalletCalls`, `WalletProgress` (what becomes of a call once it is left alone), `WalletRuns`, `Breaker`, `WalletClient`, `TransferStore`, `Saga`, `Outbox`,
`OutboxRuns`, `Notification`, `Platform`, `PlatformInv` (the invariant), `PlatformSteps` (each
action keeps it), and the results: `PlatformTheorems` (identity per key, rows and events, causes
of notifications), `Accounting` (where the money is), `DefiniteRuns` (when failed calls have no
effect), `BreakerRuns` (the breaker and compensation), `Undisturbed` (what one party achieves
alone), `Completion` (what can still be done from any reachable state), `Aftermath` (what can still happen to an attempt), `Delivery` (draining and notifying).
`Scene`, `Overpayments` and `LostNotifications` are concrete runs that show what does not hold.

One transaction is one step. For `MutateBalance` that is justified by the row lock and the
repeated check of the `WHERE` clause described in section 13.2.1 of the PostgreSQL 16
documentation; every read is a step of its own.

## Assumptions

* A new transfer id is not empty and differs from every earlier one. Entry ids and event ids
  are *not* assumed fresh: a repeated one is refused by its primary key.
* Callers of the wallet other than the transfer service use keys that do not begin with
  `transfer:`. They are otherwise arbitrary.
* Each service is the only writer of its database, and the transfer service the only writer
  of the two topics.
* Times are counted from Go's zero time, so none is negative. The breaker's clock is not
  assumed to run forward.

## What is not true of the code

The following do not hold. For each there is a run of the model that breaks it, and a theorem that
says, for every run, when it does hold.

* *An idempotency key moves money at most once.* Legs are keyed by a fresh transfer id per attempt,
  and a failed row insert is not compensated (internal/transfer/app/service.go:77-78, 109-111).
  `Overpayments.OneKeyChargedTwice` is a run without a single fault in which two calls with one key
  each debit and credit. A call makes a transfer of its own if and only if its request is well
  formed and it finds no row (`PlatformTheorems.OwnTransferIffNoRow`); whatever then makes its insert
  fail, its money stays moved (`Aftermath.FailedInsertIsNeverUndone`). Once there is a row, the key
  is safe (`PlatformTheorems.LateCallsMoveNoMoney`).
* *A failed transfer leaves no more money than before.* `Overpayments.LostReplyPaysTwice` loses the
  reply to an applied credit, `Overpayments.LateCreditPaysTwice` has a broken call that is not
  stopped, and `Overpayments.LostCommitPaysTwice` a commit whose acknowledgement is lost; in each the
  receiver is paid and the sender is repaid. When a compensation begins and the credit's
  call has ended at the wallet, the attempt pays twice if and only if the credit is in the
  ledger and the compensation commits (`Aftermath.PaidTwiceIff`).
  If none of these three happens to an attempt's own legs, it never pays twice
  (`DefiniteRuns.AttemptsBalance`).
* *A compensation succeeds.* Nobody looks at its result (internal/transfer/app/service.go:85).
  In `Overpayments.CompensationFails` the wallet refuses it. Alone and without faults it succeeds if and
  only if the sender's balance plus the amount, and the version, fit in 64 bits and the entry's id is
  new (`Undisturbed.UndisturbedCompensation`); the breaker refuses it only after failures of
  others (`BreakerRuns.RefusalIsOthersDoing`).
* *Every completed transfer is notified.* In `LostNotifications.DeadLetteredIsUnheard` its event is
  marked as published and only the dead-letter topic has it; in
  `LostNotifications.ClaimedIsUnheard` a consumer claims it and dies before it saves. These are the
  only two ways: after a fault-free drain every other completed transfer has exactly one
  notification (`Delivery.EveryTransferIsNotified`).

## Model

| member | source | states |
|---|---|---|
| `Keys.DecodeInvertsText` | internal/transfer/app/service.go:77-85 | from the text of any leg's key the transfer id and the leg can be read back |
| `Keys.TextInvertsDecode` | internal/transfer/app/service.go:77-85 | no text is misread: decoding any key text and rendering it again gives the text |
| `Keys.TextIsInjective` | internal/transfer/app/service.go:77-85 | debit, credit and compensation keys of all attempts, and all outside keys, are equal as texts only if they are the same key |
| `Keys.SuffixesDisagree` | internal/transfer/app/service.go:77-85 | no text ends in two of the three suffixes, though one suffix contains another |
| `Keys.KeysOfATransfer` | internal/transfer/app/service.go:77-85 | the three keys of a transfer, letter by letter; the compensation's is the debit's with `:compensate` after it |
| `Ledger.Wrap` | internal/wallet/domain/ledger.go:63-64 | Go's 64-bit sum is exact when it fits and negative when a credit overflows |
| `Ledger.ReplayIsExact` | internal/wallet/domain/ledger.go:59-78 | on a ledger that stays within 0 and 2^63-1, folding the wrapping ApplyCredit and ApplyDebit never fails and gives exactly the unbounded sum and the number of entries |
| `Ledger.CheckedReplayIsSolvent` | db/migrations/wallet/00001_ledger.sql:12 | the check that a stored balance is not negative, though made on wrapped balances, keeps the exact sum within 0 and 2^63-1 at every prefix |
| `Ledger.WrapCheckIffSolvent` | internal/wallet/domain/ledger.go:59-78 | that check holds at every prefix if and only if exact arithmetic never overdraws or overflows |
| `Ledger.QuietSuffix` | internal/wallet/app/service.go:93-119 | an unchanged version means an unchanged balance, whatever happened to other wallets in between |
| `WalletStore.Find` | internal/wallet/adapters/postgres/repo.go:78-93 | the lookup by key finds an entry with that key, and none only if the ledger has none |
| `WalletStore.CommitIsSerial` | internal/wallet/adapters/postgres/repo.go:95-126 | a compare-and-set that succeeds is the serial mutation of what is stored now, however old its snapshot is |
| `WalletStore.SerialKeepsSound` | internal/wallet/adapters/postgres/repo.go:95-126 | a serial mutation keeps keys distinct, amounts positive and every balance and version equal to its ledger's sum and count |
| `WalletStore.OpenKeepsSound` | internal/wallet/adapters/postgres/repo.go:24-48 | a new wallet starts at zero without touching any other |
| `WalletStore.FindIsOnly` | db/migrations/wallet/00001_ledger.sql:24 | the entry found under a key is the only one with that key |
| `WalletStore.Repo.CreateWallet` | internal/wallet/adapters/postgres/repo.go:24-48 | opens the wallet empty, together with its holder; a taken id or a second wallet of the same user and currency is already-exists, and any error but a lost acknowledgement changes nothing; a healthy database has no fault |
| `WalletStore.Repo.GetBalance` | internal/wallet/adapters/postgres/repo.go:64-76 | the stored balance, not-found exactly if there is no row, or a connection error |
| `WalletStore.Repo.GetEntryByIdempotency` | internal/wallet/adapters/postgres/repo.go:78-93 | the entry under the key, nothing, or a connection error |
| `WalletStore.Repo.MutateBalance` | internal/wallet/adapters/postgres/repo.go:95-126 | balance and entry change together or not at all; conflict, constraint violation, duplicate, failed commit and lost acknowledgement each give their own error |
| `WalletCalls.StepIsSerial` | internal/wallet/app/service.go:67-143 | any step of any call leaves the database as it was or applies the call's entry, as the serial wallet would, to what is stored at that instant |
| `WalletCalls.EvolutionKeepsKnowledge` | internal/wallet/app/service.go:93-142 | nothing that other calls do makes a call's snapshot, found entry or count of conflicts wrong |
| `WalletCalls.EveryExecution` | internal/wallet/app/service.go:67-143 | whatever others do between its accesses, a call changes the database at most once, exactly once if it reports a commit, and never if it reports a replay or any error but a lost connection |
| `WalletCalls.ExhaustionMeansEightOthers` | internal/wallet/app/service.go:93-142 | a call that gives up after its retries was overtaken by at least eight other mutations of its wallet since its first read, and made none itself |
| `WalletCalls.UndisturbedCallCommitsIff` | internal/wallet/app/service.go:67-143 | alone and without faults any call is done after four accesses, and commits if and only if its amount is positive, its ids and key are there, the wallet exists, key and entry id are new, and the exact new balance and version fit; each answer, replay or error, is the one exact arithmetic gives, and an overdraft or overflow leaves everything untouched |
| `WalletCalls.AnswerIsTheEntry` | internal/wallet/app/service.go:83-91 | whichever of the three ways a call takes to success, it returns the id of the one entry under its key |
| `WalletCalls.Service.Mutate` | internal/wallet/app/service.go:67-143 | the retry loop, run against a database that others change between any two accesses, is one of the executions that `EveryExecution`, `EveryConflictIsRetried` and `LeftAloneEnds` speak of, without faults if the database is healthy, and its answer is that execution's; a malformed request is refused without an access |
| `WalletCalls.Service.Credit` | internal/wallet/app/service.go:59-61 | a credit's answer is that of such an execution, and a success names the entry stored under the key |
| `WalletCalls.Service.Debit` | internal/wallet/app/service.go:63-65 | a debit's answer is that of such an execution, and a success names the entry stored under the key |
| `WalletProgress.EveryConflictIsRetried` | internal/wallet/app/service.go:93-142 | in every execution a call answers "exhausted retries" if and only if eight of its commits met a conflict, never answers a version conflict, and after any smaller number n of conflicts stands, at once, at its n-th further attempt |
| `WalletProgress.LeftAloneEnds` | internal/wallet/app/service.go:83-142 | at any point of any execution, whatever others did and however many conflicts the call met: left alone and without faults from there on, it is answered within five accesses as exact arithmetic says of the database as it then is, and makes its entry if and only if that is admitted; only a call about to meet its eighth conflict gives up |
| `WalletProgress.MalformedIsRefused` | internal/wallet/app/service.go:67-81 | in every execution: no positive amount is an invalid amount; otherwise a missing wallet id, transfer id or key is an invalid argument; neither changes anything, and any other request goes on to look its key up |
| `WalletProgress.FaultIsTold` | internal/wallet/app/service.go:83-140 | a step ends in a connection error if and only if its statement failed or its commit took effect unacknowledged; a failed one changes nothing |
| `WalletRuns.ActIsSerial` | internal/wallet/app/service.go:67-143 | each step of the concurrent service is a step of the serial one, or none |
| `WalletRuns.LedgerRefinesSerial` | internal/wallet/app/service.go:93-142 | in every run, replaying the ledger in commit order never fails and gives exactly the stored balance and version of every wallet, with the exact sum within 64 bits at every prefix |
| `WalletRuns.AnswersAreReplays` | internal/wallet/app/service.go:83-139 | in every run, a committing call returned the balance and version of its own replay prefix, which ends in its own entry; a replayed answer is the wallet at some prefix that holds the entry |
| `WalletRuns.OneEntryPerKey` | internal/wallet/app/service.go:83-139 | in every run there is at most one entry per key, and every call that succeeded under a key answered with that entry's id |
| `WalletRuns.ExhaustedWasOvertaken` | internal/wallet/app/service.go:93-142 | in every run, "exhausted retries" means that the wallet's version is at least eight above the first one the call read |
| `WalletRuns.HoldingsAreTheLedger` | internal/wallet/adapters/postgres/repo.go:95-126 | all wallets together hold what the ledger adds up to |
| `Breaker.FieldsFollowTrace` | pkg/breaker/breaker.go:36-51 | with n failures since the last success the counter is n modulo the threshold, and the deadline is that of the last failure completing a round of them |
| `Breaker.DeadlineIsRefusal` | pkg/breaker/breaker.go:27-34 | the deadline lies ahead exactly when the trace has a completed round of failures whose cooldown is not over |
| `Breaker.RefusalNeedsOthers` | pkg/breaker/breaker.go:27-51 | after a call's success and at most one failure of its own, a refusing breaker has seen an unbroken run with at least threshold-1 failures of others since |
| `Breaker.Circuit.Allow` | pkg/breaker/breaker.go:27-34 | refuses exactly when the trace of outcomes says so |
| `Breaker.Circuit.Success` | pkg/breaker/breaker.go:36-41 | records a success, closes the breaker and keeps the fields in step with the trace |
| `Breaker.Circuit.Failure` | pkg/breaker/breaker.go:43-51 | records a failure and keeps the fields in step with the trace |
| `Breaker.Circuit.constructor` | pkg/breaker/breaker.go:17-25 | threshold and cooldown default to 5 failures and 5 seconds when not positive |
| `WalletClient.AnswersNeverTrip` | internal/transfer/adapters/walletclient/client.go:46-75 | an answer of the wallet, success or error, is never counted as a failure by the breaker, and is an error for the caller exactly if it was one |
| `WalletClient.WhatTheCallerSees` | internal/wallet/adapters/grpc/server.go:67-82 | which error of the wallet service Create's caller sees as which: insufficient funds and not-found as themselves, invalid amount and argument as a bad request, the rest by status code |
| `WalletClient.WhatTheBreakerHears` | internal/transfer/adapters/walletclient/client.go:46-55 | an outcome adds a success exactly if it is a reply, a failure exactly if it is Unavailable or DeadlineExceeded, and nothing otherwise |
| `WalletClient.Client.Invoke` | internal/transfer/adapters/walletclient/client.go:30-43 | request and reply may each be lost; only a reply of success proves that the wallet service answered the request with success and that its entry is in the ledger; if nothing is lost, the outcome is the service's answer |
| `WalletClient.Client.Finish` | internal/transfer/adapters/walletclient/client.go:46-75 | the breaker's trace grows by a success exactly for a reply, by a failure exactly for Unavailable and DeadlineExceeded, and is left as it is otherwise; the error is mapped by status code |
| `WalletClient.Client.Debit` | internal/transfer/adapters/walletclient/client.go:26-34 | refused by the breaker it touches nothing; otherwise exactly this request goes out, the breaker hears the outcome and the caller gets its error |
| `WalletClient.Client.Credit` | internal/transfer/adapters/walletclient/client.go:36-44 | the same for a credit |
| `TransferStore.InsertGrows` | internal/transfer/adapters/postgres/repo.go:60-89 | row and event are added together, keep one-to-one correspondence and distinct ids and keys, and after success are found under both |
| `TransferStore.InsertOutcomes` | internal/transfer/adapters/postgres/repo.go:60-89 | an insert is a duplicate exactly if a row has the id or the key, succeeds exactly if besides the amount is positive, the event is new and nothing fails, and otherwise is a database error; the tables grow by row and event exactly if it took effect |
| `TransferStore.MarkGrows` | internal/transfer/adapters/postgres/repo.go:130-133 | marking an event changes no row and no event but its published time |
| `TransferStore.LookUpIgnoresTruthfulCache` | internal/transfer/app/service.go:35-53 | as long as every cached pair names a stored transfer with that key, the cached lookup answers as the lookup without a cache |
| `TransferStore.Tables.InsertCompletedWithOutbox` | internal/transfer/adapters/postgres/repo.go:60-89 | both inserts or none; duplicates, constraint violations, failed commits and lost acknowledgements are told apart as the source does |
| `TransferStore.Tables.GetByID` | internal/transfer/adapters/postgres/repo.go:38-41 | the row with that id, not-found exactly if there is none, or a connection error |
| `TransferStore.Tables.GetByIdempotencyKey` | internal/transfer/adapters/postgres/repo.go:26-36 | the row under that key, nothing, or a connection error |
| `TransferStore.Cache.Get` | internal/transfer/adapters/redis/cache.go:26-34 | what is cached under the key, if it has not expired, or an error; no error if the cache is healthy |
| `TransferStore.Cache.Set` | internal/transfer/adapters/redis/cache.go:36-38 | stores the pair, or nothing when it fails; a healthy cache stores it |
| `Saga.SentIsWellSent` | internal/transfer/app/service.go:77-87 | whatever its stores and the wallet answer, a Create call sends the legs of one transfer, in order, each at most once: a credit only after a successful debit, a compensation only after a failed credit |
| `Saga.MachineConverses` | internal/transfer/app/service.go:31-114 | whatever conversation a call has, the machine ends with the result said for it: the error of the lookup, of the request, of the debit, of the credit whatever became of the compensation, of the insert, or the transfer |
| `Saga.AttemptIsAsRequested` | internal/transfer/app/service.go:72-83 | whatever is answered, the transfer attempted has the requested wallets, amount, user and key, and the requested currency or RUB |
| `Saga.Service.Create` | internal/transfer/app/service.go:31-114 | a whole conversation, answer by answer: the cache, the row it names or the row under the key, the refusal of a flawed request, then debit, credit, compensation, insert and cache, and what each returns; a new transfer is the one requested, completed, with debit and credit in the ledger, row, event and, in a healthy cache, its id cached; if a row was there when the call began, nothing is sent and healthy stores return that row |
| `Saga.Service.FindFinished` | internal/transfer/app/service.go:35-54 | an existing transfer is found through the cache or by its key and returned as a replay without any wallet request |
| `Saga.Service.Pay` | internal/transfer/app/service.go:80-113 | debit, then credit, else compensation and the credit's error; success only with both legs in the ledger and the row stored |
| `Saga.Service.InsertRow` | internal/transfer/app/service.go:89-111 | stores the completed transfer with an event that tells of it field by field; in a healthy database it fails only as a duplicate of a stored row or a repeated event id |
| `Outbox.OldestLeft` | internal/transfer/adapters/postgres/repo.go:108-114 | an oldest unpublished event outside the selection, none exactly if all are selected |
| `Outbox.OutboxStore.FetchUnpublished` | internal/transfer/adapters/postgres/repo.go:108-128 | up to the limit, the oldest unpublished events in order of creation, ties in any order |
| `Outbox.OutboxStore.MarkPublished` | internal/transfer/adapters/postgres/repo.go:130-133 | marks exactly the named event, even if its acknowledgement is lost |
| `Outbox.ReliablePublisher.Publish` | pkg/kafka/reliable.go:27-48 | the broker is tried until it accepts, three times at most; after three refusals, and only then, the dead-letter topic is tried once, unless the context has ended; it succeeds exactly if one of them accepted, so always if the context does not end and the dead-letter topic is up; with definite outcomes a success leaves exactly one copy |
| `Outbox.HeadOfLine` | pkg/outbox/worker.go:51-62 | whatever the tick's outcome, no strictly older event that was there at fetch time stays unmarked behind a marked one |
| `Outbox.Worker.Tick` | pkg/outbox/worker.go:46-64 | marks a prefix of its batch of fifty oldest events, each only after its message was published, the whole batch if it does not fail; it does not fail if every mark succeeds and every event finds a topic; a healthy one publishes each exactly once to the broker, in order |
| `Outbox.Worker.Run` | pkg/outbox/worker.go:28-43 | keeps every marked event recorded in one of the topics; without inserts it drains the outbox as `Outbox.DrainedAfter` says, also while the broker is down if the dead-letter topic is up |
| `Outbox.BatchIsLeast` | internal/transfer/adapters/postgres/repo.go:108-114 | a batch takes all that is pending, or fifty |
| `Outbox.DrainTick` | pkg/outbox/worker.go:46-64 | one more tick publishes the next oldest events, none twice, and keeps the order of creation over all ticks |
| `Outbox.DrainedAfter` | pkg/outbox/worker.go:46-64 | after t ticks without failures exactly n - 50 t of n pending events are left, none from the n/50-th tick, rounded up, on and not before; each was published once |
| `Outbox.TickKeepsRecord` | pkg/outbox/worker.go:51-58 | a marked event has its message in the primary or in the dead-letter topic |
| `OutboxRuns.StepKeepsInv` | pkg/outbox/worker.go:46-64 | any step of any of several workers, crashes included, keeps marked events recorded and takes back no event, mark or message |
| `OutboxRuns.BoundedDuplication` | pkg/outbox/worker.go:51-58 | with one worker and definite publish outcomes, an event has at most one copy more than the ticks that ended in a failed mark or a crash right after publishing it, and a marked one at least one |
| `OutboxRuns.MarkedWithoutTopic` | pkg/kafka/reliable.go:43-47 | a run of the worker, for any event, after which the event is marked as published and only the dead-letter topic has it |
| `Notification.MayHandleKeepsInv` | internal/notification/adapters/postgres/store.go:21-40 | however handling ends, there is at most one notification per event, and only for claimed events |
| `Notification.PlacesAreEvents` | internal/notification/adapters/kafka/consumer.go:31-34 | two messages without a key are one event only if partition and offset are the same |
| `Notification.Store.TryClaimEvent` | internal/notification/adapters/postgres/store.go:21-31 | claims the event, or says it was claimed, or fails, with or without effect, each spelled out by fault |
| `Notification.Store.SaveNotification` | internal/notification/adapters/postgres/store.go:33-40 | adds the notification unless the event has one or the insert fails |
| `Notification.Service.Handle` | internal/notification/app/service.go:31-63 | nothing, a claim, or a claim and the notification of exactly this payload; without error all of it, and a claimed event is left as it is |
| `Notification.Runner.HandleNext` | internal/notification/adapters/kafka/consumer.go:31-41 | identifies the event by key or by its place in the topic, and commits only what has been handled in full or was claimed before |
| `Notification.Runner.Run` | internal/notification/adapters/kafka/consumer.go:22-43 | every new notification stems from a message read; a healthy run handles every message from its position to the end of the topic |
| `PlatformSteps.ActKeepsInv` | internal/transfer/app/service.go:31-114 | every action of any component keeps the platform's invariant |
| `PlatformSteps.InvHolds` | internal/transfer/app/service.go:31-114 | the invariant holds in every reachable state |
| `PlatformTheorems.SuccessNamesTheRow` | internal/transfer/app/service.go:35-54 | in every run a successful Create returned the one row stored under its key |
| `PlatformTheorems.OneTransferPerKey` | internal/transfer/app/service.go:35-54 | in every run two successful Create calls with one key returned the same transfer |
| `PlatformTheorems.LateCallsMoveNoMoney` | internal/transfer/app/service.go:35-54 | a Create call that has not finished its lookups when the row is there never has a wallet call of its own, however the run goes on |
| `PlatformTheorems.OwnTransferIffNoRow` | internal/transfer/app/service.go:49-78 | in every run, a call that asks for the row makes a transfer of its own, under an id no other has, if and only if its request is well formed and there is no row under its key |
| `PlatformTheorems.AttemptIsTheRequested` | internal/transfer/app/service.go:56-83 | in every run, a call that attempts a transfer attempts the one it was asked for: wallets, amount, user, key, and currency or RUB |
| `PlatformTheorems.NewTransferIsTheRequested` | internal/transfer/app/service.go:72-113 | in every run, a new transfer that Create returned has a debit of the requested amount on the requested sender and a credit of it on the requested receiver in the ledger |
| `PlatformTheorems.CacheIsTransparent` | internal/transfer/app/service.go:35-53 | in every run, whatever part of the cache is left, a cached pair names a row with exactly that key, and the two lookups made at one instant answer as the second alone |
| `PlatformTheorems.CachedReplayIsTheRow` | internal/transfer/app/service.go:35-47 | in every run, a call that found its key in the cache, at whatever earlier time, finishes with a replay of the one row stored under its key |
| `PlatformTheorems.UncachedReplayIsTheRow` | internal/transfer/app/service.go:49-54 | a call that went past the cache finishes with a replay of that same row |
| `PlatformTheorems.RowsAndEvents` | internal/transfer/adapters/postgres/repo.go:60-89 | in every run rows and events correspond one to one, each event naming its row's id, wallets, amount, currency, user and completion; rows have distinct ids and keys, marked events are in a topic, and the topics hold nothing else |
| `PlatformTheorems.NothingIsLost` | pkg/outbox/worker.go:46-64 | as a run goes on no row, event or mark is taken back, so an unmarked event stays fetchable |
| `PlatformTheorems.EveryNotificationIsCaused` | internal/notification/app/service.go:31-63 | in every run a notification traces back through its claim, a message of the topic and an outbox row to a completed transfer with its debit and credit in the ledger; it names the debit's wallet as sender, the credit's as receiver, their common amount, and the row's currency and user |
| `PlatformTheorems.OneNotificationPerTransfer` | internal/notification/app/service.go:31-40 | in every run a transfer has at most one notification |
| `Accounting.MoneyIsAccountedFor` | internal/transfer/app/service.go:77-87 | in every run all wallets together hold the net deposits from outside plus, per attempt, its amount times (credited + compensated - debited), each 0 or 1, and no attempt is compensated without its debit |
| `DefiniteRuns.AttemptsBalance` | internal/transfer/app/service.go:77-87 | if an attempt's own failed legs have no effect, whatever happens to others, it moves its money whole or not at all, except that it is short of exactly its amount while under way or after a crash there, or if and only if finished with a failed compensation |
| `DefiniteRuns.DefiniteRunsMakeNoMoney` | internal/transfer/app/service.go:77-87 | if that is so of every attempt, the wallets hold the net deposits less exactly what the short attempts account for |
| `Undisturbed.LegAloneEnds` | internal/transfer/app/service.go:80-87 | from every reachable state, a leg that the breaker lets through and nobody disturbs is applied if and only if the wallet admits it in exact arithmetic, and the saga goes on accordingly |
| `Undisturbed.UndisturbedCompensation` | internal/transfer/app/service.go:83-87 | in every run, a compensation let through and undisturbed repays the sender if and only if the sender's balance plus the amount, and the version, fit in 64 bits and the entry id is new; either way the credit's error is returned |
| `Undisturbed.OverdraftIsTold` | internal/transfer/app/service.go:80-82 | in every run, an undisturbed call whose sender has too little is answered with insufficient funds, one whose sender has no wallet with not-found, and nothing has moved |
| `Undisturbed.AloneIsAllOrNothing` | internal/transfer/app/service.go:80-87 | in every run, a Create call let through and undisturbed from its debit on moves the amount if the sender has it and the receiver has room for it, and otherwise leaves every wallet as it was and fails: with insufficient funds or no such wallet for the sender, with the credit's error for the receiver |
| `Completion.RequestIsCarriedOut` | internal/transfer/app/service.go:31-114 | from every reachable state, a well-formed request under a key without a row, with a closed breaker, money at the sender and room at the receiver, left alone returns the requested transfer, completed; its amount has moved once and no other wallet has changed; row and event are stored and the id is cached |
| `Completion.CacheHitIsReplay` | internal/transfer/app/service.go:35-47 | in every run a call whose key is cached finishes, asking only for that row, with a replay of the one row under the key |
| `Completion.DeadForGood` | internal/transfer/app/service.go:31-114 | in every run, the death of a process changes nothing else, and no continuation moves its call on |
| `Completion.OldestIsPublished` | pkg/outbox/worker.go:46-64 | an idle worker whose accesses succeed publishes the oldest pending event under its transfer id and marks it, and no other |
| `Completion.RefusedGoesToDeadLetters` | pkg/kafka/reliable.go:27-47 | an event the broker refuses three times goes to the dead-letter topic and is marked, whatever its place in the batch |
| `Completion.MessageIsNoted` | internal/notification/adapters/kafka/consumer.go:22-43 | from every reachable state, a consumer that reads any message of the topic undisturbed claims its transfer and saves one notification with the message's event, or changes nothing if the transfer was claimed before |
| `Aftermath.ClosedForGood` | internal/transfer/app/service.go:80-87 | in every run, once a leg's call has ended at the wallet, or the leg can no longer be sent, no continuation adds or removes its entry |
| `Aftermath.NewTransferIsPaidOnce` | internal/transfer/app/service.go:80-113 | in every run, faults included, a new transfer that Create returned has its debit and its credit in the ledger and no compensation |
| `Aftermath.FailedInsertIsNeverUndone` | internal/transfer/app/service.go:109-111 | whatever makes the insert fail, both legs stay in the ledger and no continuation compensates them; the tables are as they were unless only the acknowledgement was lost |
| `Aftermath.PaidTwiceIff` | internal/transfer/app/service.go:83-87 | in every run and every continuation, an attempt that compensates, its credit's call having ended, has paid twice if and only if the credit is in the ledger when the compensation begins and the compensation commits |
| `Overpayments.OneKeyChargedTwice` | internal/transfer/app/service.go:77-111 | a run without faults after which two calls with one key have moved ten units each, the table has one row, and no continuation gives anything back |
| `Overpayments.LostReplyPaysTwice` | internal/transfer/app/service.go:83-87 | a run that loses one reply, after which debit, credit and compensation of one attempt are in the ledger and the wallets hold its amount more than came in |
| `Overpayments.LateCreditPaysTwice` | internal/transfer/app/service.go:83-87 | the same with no reply lost, the broken credit call being carried out after the compensation |
| `Overpayments.LostCommitPaysTwice` | internal/wallet/adapters/postgres/repo.go:125 | the same with every reply delivered, the commit of the credit having lost its acknowledgement inside the wallet |
| `Overpayments.CompensationFails` | internal/transfer/app/service.go:83-87 | a run in which the wallet refuses the compensation, after which the attempt is finished with the credit's error, is short of its amount, and stays so |
| `BreakerRuns.RefusalIsOthersDoing` | internal/transfer/app/service.go:80-87 | in every run, a credit or compensation that the breaker refuses finds an unbroken run of failures after its own debit's success, at least five of them other calls', or four if its own credit failed |
| `BreakerRuns.AloneIsNeverRefused` | internal/transfer/adapters/walletclient/client.go:36-44 | a Create call that is alone with its breaker gets its credit, and its compensation, through to the wallet |
| `BreakerRuns.BreakerHearsTheEnds` | internal/transfer/adapters/walletclient/client.go:46-55 | in every run a process's breaker has heard exactly what the calls of that process that ended signal, in order |
| `BreakerRuns.RefusedIffFiveLosses` | internal/transfer/adapters/walletclient/client.go:26-55 | in every run a leg is answered with an open circuit, and nothing sent, if and only if at least five calls of its process ended in Unavailable or DeadlineExceeded since the last reply and less than five seconds have passed since the last that completed five; otherwise it goes out |
| `BreakerRuns.FiveInARowShut` | internal/transfer/adapters/walletclient/client.go:46-55 | five such ends in a row, after whatever came before, refuse every call for five seconds from one of them |
| `BreakerRuns.OnlyLossesCount` | internal/transfer/adapters/walletclient/client.go:46-55 | no number of other statuses opens the breaker |
| `Delivery.ConsumedNotes` | internal/notification/adapters/kafka/consumer.go:22-43 | reading any topic into any inbox, duplicates and all, claims exactly the keys read and notes exactly those not claimed before |
| `Delivery.ExactlyOnce` | internal/notification/adapters/kafka/consumer.go:22-43 | draining any reachable outbox and reading the topic on leaves one notification for a transfer that was notified before, or was unclaimed and pending or in the part of the topic that is read; none for any other, and none that is not a transfer's |
| `Delivery.EveryTransferIsNotified` | internal/notification/app/service.go:31-63 | from any reachable state, after draining and reading from the beginning, a completed transfer has exactly one notification, except that it has none if its event was left to the dead-letter topic alone or was claimed and not saved |
| `LostNotifications.DeadLetteredIsUnheard` | pkg/kafka/reliable.go:43-47 | a run of the platform that completes a transfer and leaves its event to the dead-letter topic alone |
| `LostNotifications.ClaimedIsUnheard` | internal/notification/app/service.go:32-55 | a run that completes a transfer whose event is in the topic, claimed by a consumer that died before saving |
| `LostNotifications.NeitherIsEverNotified` | internal/notification/app/service.go:31-63 | after either run the outbox is drained, and reading the whole topic again brings no notification |

## Left out

- `WalletClient.Client.Invoke`: a request that breaks has been carried out when the method returns or never will be; one that is carried out later is modelled in `Platform` only.
- `Saga.Service.Create`: the wallet's answers are those the client's wire records; the answers of cache and table are tied to the stores at the points its contract names (the row found, the row that was absent, the row stored, the id cached), not one by one.
- `TransferStore.LookUpIgnoresTruthfulCache`: speaks of both lookups at one instant; `PlatformTheorems.CachedReplayIsTheRow` has them apart.
- `Aftermath.PaidTwiceIff`: a credit whose call is still under way when the compensation begins is not decided yet; `Overpayments.LateCreditPaysTwice` shows one that commits after all.
- `Delivery.EveryTransferIsNotified`: one consumer reads after the drain; others that were between claim and save when it began count as having died there.
- `Notification.Runner.Run`: the topic is one log; partitions, and how a commit narrows what is delivered again, are not modelled. In `Platform` a consumer may be handed any message of the topic at any time.
- `Outbox.Worker.Run`: the endless loop is modelled by a given number of ticks, the cancellation that ends it by that number.
- `Outbox.ReliablePublisher.Publish`: a write adds at most one copy; retries inside the Kafka client are not modelled.
- `TransferStore.Cache.Get`: a cached value that is not a UUID is not modelled, since only `Set` writes the cache.
- `WalletStore.Repo.CreateWallet`: the length of the currency code is not checked, and `Platform` opens wallets without holders.
- Fairness and time limits: nothing says that a call, a retry or a tick ever takes place; results about progress are about runs in which it has.
- Currencies: a transfer's currency is carried along, wallets have none; conservation is over amounts.
- HTTP gateway, gRPC servers beyond the mapping of errors to status codes, identity, sessions and password hashing.
- JSON encoding of the event: the payload is a record carried unchanged; a payload that does not decode is kept as a case of its own.
- Timestamps of rows other than the event's creation time, which is arbitrary per event; `BalancedPair`, which no service calls.
- Cancelled contexts are modelled as failures that may happen at any access.
- SQL text, connection pools, tracing, logging, metrics, configuration and health checks.
