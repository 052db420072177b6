# A verified model of the Ethereum data platform

This project models the parts of the platform where several failures, several coroutines or several
layers meet, and proves what they promise together. It is checked with `dafny verify dfyconfig.toml`.

**The streaming consumer** (`Messages`, `Tables`, `Protocol`, `StepFootprint`, `Safety`, `Replay`,
`TransferTable`, `Guarantees`, `Redelivery`, `Limits`, `Clients`, `Consumer`). `Protocol` is a state machine whose durable part is
the two Postgres tables, the group's Kafka offsets, the whale-alerts topic and the Redis cache, and
whose volatile part is the positions, the two batches and the producer's queue and error flag. One
step is one effect, so a crash may fall between any two of them. A database commit may land and still
raise, an offset commit is a request that may become durable at any later time or never, a send may
arrive long after it was reported lost, and cache entries come and go. `Safety`, `Replay` and
`TransferTable` prove what every step keeps, and `Guarantees` states what therefore holds in every reachable state.
`Redelivery` says which transactions and transfers can come to have two rows: those whose deliveries can
be read with different times, among them every one that leaves its time to the clock. `Limits` treats
the two events that let an offset be committed past an unsettled message or keep any from being
committed: a Redis read that raises, and a message that is no object. `Clients` and `Consumer` are the
program itself - classes with the source's fields, loops and early exits - and each of their methods
returns the machine steps it took, so that whatever the outside world does to a run of `main`, its state
is reachable in the machine: on its first start, and on every later one, from whatever the lives
before it left in the tables, the topics and the cache (`Consumer.Start`, `Consumer.Lives`).

**The wallet history query** (`Relational`, `TopK`, `WalletHistory`). The rewritten query limits both
branches of a `UNION ALL` and limits again outside. Answers are any of those ties allow. The rewrite
is the OR query with transfers to oneself counted twice, and the two queries have the same answers
exactly when the limit is too small to reach a second copy.

**The asyncio services** (`CacheKey`, `CacheProtocol`, `CacheStampede`, `CacheServices`, `WsManager`). Coroutines run
from one await to the next and interleave freely over any number of servers that share Redis. Proved:
the stampede bound, attained for every
number of servers, expirations and failures, the provenance and age of every cached answer, the true connection limit of the
websocket manager, the single heartbeat loop, and what a broadcast has done when it ends. The classes of
`CacheServices` and `WsManager` are the coroutines themselves, with any steps of the others at each of
their awaits; whatever these do, the state stays reachable in the machine.

**The batch pipeline** (`Receipts`, `WhaleTxns`, `Windows`, `Sums`, `OuterJoins`, `Rounding`,
`TopWhales`, `WalletColumns`, `MarketFlow`, `Popularity`). Bronze lines to gold tables as relational
functions over integers, with half-up rounding where Spark's decimals round. The theorems cross the
layers: receipts are fetched for large transactions only and yet no whale is lost, the order in which
windows see ties never reaches gold, outer joins conserve what was moved, and the two ways an hour's
exchange flows are computed agree.

**The two modes of the lag test** (`LagTest`). The batched loop and the row by row loop leave the same
table for every received sequence and every batch size, and for all but two places an interrupt can
strike.

## Where the code and its documents differ

The model follows the code. Silver's `whale_tier` starts at 10000, 1000 and 100 ETH
(`src/silver/transform/whale_txns.py:78-83`), its document says 1000, 500 and 100. The popularity
weights are 0.55, 0.45 and 0 (`src/gold/transform/token_popularity_daily.py:11-13`), the document
says 0.40, 0.35 and 0.25; `Popularity.VolumeNeverCounts` proves what the code's choice means. The
comment beside `enable.auto.commit` speaks of guaranteed idempotence
(`src/consumer/kafka_client.py:51`); `Redelivery.IdempotentIffStable` says for which messages that is so.
The connection limit of the websocket manager is documented as a maximum; `WsManager.BoundIsReached`
shows the list growing past it, and `WsManager.ConnectionBound` by how much at most. The documents
call the BigQuery load an overwrite, `write_gold_to_bq` appends (`src/gold/utils.py:52`).

## Model

| member | source | states |
|---|---|---|
| Messages.ClockFreeIffStable | src/consumer/models.py:9-19 | the timestamps whose parse does not depend on the moment of parsing are exactly the numeric, non-zero ones from year 1 to year 9999, and those parse to themselves |
| Messages.ReadsIffDecoded | src/consumer/models.py:21-36 | a row is a reading of a message exactly when some reading of the clock makes the model of it |
| Tables.InsertIgnoreMeaning | src/consumer/db.py:40-60 | an ON CONFLICT DO NOTHING batch leaves every old row as it was, covers every key, and gives each new key its first row in the batch |
| Tables.InsertAbsorbed | src/consumer/db.py:40-60 | inserting rows whose keys are all present changes nothing |
| Tables.ReplayExtendsPrefix | src/consumer/main.py:64-90 | replaying log[c..q] onto the table of log[..hw], with c at most hw, gives the table of the longer of the two prefixes |
| Protocol.Chain | src/consumer/main.py:140-192 | runs compose: a legal run followed by one legal from where it ended is a legal run to the same state |
| StepFootprint.Footprint | src/consumer/main.py:56-182 | which parts of the durable and volatile state each kind of step can change at all, and how the offsets, the tables and the position move |
| Safety.StepGrows | src/consumer/db.py:40-77 | no step ever removes or alters a stored row or takes back an alert |
| Safety.PublishedMeansSettled | src/consumer/main.py:64-75 | when a flush comes to its offset commit, every buffered message is stored and every buffered whale's alert has arrived |
| Safety.PhaseKept | src/consumer/main.py:36-53 | at each place inside a flush: the batch is already durable, and each alert sent so far has arrived, is still awaited, or has left the error flag set |
| Safety.SourcesKept | src/consumer/main.py:93-109 | every buffered row is a reading of the message it came from, and every cached or pending block time is one the log gave |
| Safety.AlertsKept | src/consumer/main.py:73-75 | every alert handed to the producer or delivered belongs to a row that is in the table |
| Safety.CoverageKept | src/consumer/main.py:56-90 | every message read is settled or in hand, and every message below an offset that is or may become committed is settled |
| Safety.SizeKept | src/consumer/main.py:162-166 | the buffer outgrows its limit by no more than one record per failed flush |
| Safety.StepKeepsInv | src/consumer/main.py:140-192 | every step, crashes included, keeps the whole invariant |
| Safety.EveryRunKeepsInv | src/consumer/main.py:140-192 | the invariant holds after every run from the empty store |
| Replay.ShapeKept | src/consumer/main.py:83-88 | every step keeps the buffer equal to the accepted transactions read since the last flush or restart, per partition and in order |
| Replay.LandedKept | src/consumer/main.py:73-75 | every step keeps all committable offsets, and the start of the buffer, inside what has reached the tables |
| Replay.OrderKept | src/consumer/main.py:144-160 | every step keeps the buffered transfers of each partition equal to those read since the last flush or restart, in order, less the skipped, the dropped and the one in hand |
| Replay.TransferOffsetsMeaning | src/consumer/main.py:144-160 | that list holds each transfer of the stretch that was not missed once, in increasing order, and no other |
| Replay.KeysKept | src/consumer/db.py:40-60 | every step keeps the table's keys equal to those of what has landed, over any number of partitions |
| Replay.BatchIsStretch | src/consumer/main.py:64-68 | the wanted rows of a batch are those of the unflushed stretch of the one partition that delivers them, in log order, whatever other partitions have put between them |
| Replay.LandExtendsFold | src/consumer/main.py:68-73 | landing the buffer turns the table of one prefix of a partition into the table of a longer prefix |
| Replay.FoldKept | src/consumer/main.py:56-90 | every step keeps the rows a partition has for its own equal to the first-writer-wins fold of a prefix of it |
| Replay.EveryRunKeepsFold | src/consumer/main.py:56-90 | that fold describes those rows after every run, whatever failed, landed late or crashed |
| Guarantees.TableIsPrefixOfLog | src/consumer/main.py:56-90 | exactly-once effect: in every reachable state there is one prefix of each partition, past every offset that is or may become committed, such that the rows of the transactions delivered in that partition alone, with times of their own, are those of a single fault-free pass over it, whatever the other messages and partitions are |
| Guarantees.WholeTableIsPrefixOfLog | src/consumer/main.py:56-90 | with one transactions partition, where no transaction leaves its time to the clock, that is the whole table |
| Guarantees.TransfersArePrefixOfLog | src/consumer/main.py:56-109 | the same for token_transfers: the rows of the transfers delivered in one partition alone, with times of their own, are those of a single fault-free pass over a prefix of it, whatever was skipped, dropped or redelivered around them |
| TransferTable.TransferBatchIsStretch | src/consumer/main.py:64-70 | the wanted rows of a batch of transfers are those of the unflushed stretch of their partition, in log order |
| Guarantees.TableKeysAreOfPrefixes | src/consumer/main.py:56-90 | for any number of partitions, and all transactions that do not leave their time to the clock, wherever they are delivered, the table holds exactly the keys of one prefix of each partition, past every offset that is or may become committed |
| Guarantees.TransferKeysAreOfPrefixes | src/consumer/main.py:56-109 | of token_transfers, with such prefixes: every key is that of a transfer in them; a transfer in them that has one time has its key there unless it was skipped or dropped; for transfers with times of their own, the keys are exactly those of the prefixes; and only unstamped transfers are ever skipped or dropped |
| TransferTable.TransferKeysKept | src/consumer/main.py:56-109 | every step keeps each transfer of what has landed stored or given up, and each row a reading of what has landed |
| TransferTable.EveryRunKeepsTransferKeys | src/consumer/main.py:56-109 | so does every run from the empty store |
| Guarantees.NoTransactionLost | src/consumer/main.py:64-90 | in every reachable state each accepted transaction below the committed offset is in the table, with its own time when that is stable |
| Guarantees.WhaleAlertsDelivered | src/consumer/main.py:36-53 | each transaction of at least the threshold below the committed offset has an alert in the topic |
| Guarantees.AlertsFollowRows | src/consumer/main.py:36-53 | no alert is in the topic, or can still arrive there, unless its row is durable and it is of at least 100 ETH |
| Guarantees.NoTransferLost | src/consumer/main.py:142-182 | on runs whose Redis reads return, each transfer below the committed offset is stored or was skipped for want of a block time |
| Guarantees.OnlyAfterRetries | src/consumer/main.py:97-106 | a transfer is skipped only by a read that returned nothing after ten retries |
| Guarantees.OneRowPerTransfer | src/consumer/main.py:93-109 | when deliveries agree, whatever is redelivered and whenever the cache forgets, no (hash, log index) ever has two rows |
| Guarantees.StoredTimeIsBlockTime | src/consumer/main.py:93-109 | a stored transfer that came without a timestamp carries a time the log gives for its own block |
| Guarantees.BufferBound | src/consumer/main.py:162-166 | at the loop head the batches hold at most 99 records plus one per flush failed since the last success |
| Guarantees.BufferIsUnflushedStretch | src/consumer/main.py:137-166 | the transaction batch is exactly the accepted messages polled since the last successful flush, in log order |
| Guarantees.BufferedTransfersInOrder | src/consumer/main.py:137-166 | the transfer batch is exactly the transfers polled since the last successful flush or restart, in log order, less those skipped or dropped since then and the one being looked up, which is the last message read; each entry is a reading of its own message |
| Redelivery.IdempotentIffStable | src/consumer/models.py:9-19 | inserting a transaction message twice is inserting it once exactly when it is rejected or its timestamp is stable |
| Redelivery.ReadUpTo | src/consumer/main.py:142-160 | from the loop head every message before the first non-object of its partition can be reached, the tables and offsets unmoved and nothing buffered lost |
| Redelivery.StoreTx | src/consumer/main.py:56-90 | any reading of any transaction that can be reached can be stored, with a crash before its offset is committed, so that it is read again |
| Redelivery.HeaderReachesCache | src/consumer/main.py:146-151 | from the loop head a block header that is read puts its block's time into the cache and the loop is back at its head, with nobody else's help and nothing else changed |
| Redelivery.HeaderTimesTransfer | src/consumer/main.py:93-109 | a header of a block and a transfer of that block without a timestamp, in another partition, have a run that stores the transfer with the header's time, in which nobody but the consumer writes to the cache |
| Redelivery.TwoRowsIff | src/consumer/db.py:40-60 | a transaction hash has two rows on some run whenever two readings of its deliveries differ in time, and, when all values are objects or null, only then |
| Redelivery.ClockStampStoredTwice | src/consumer/models.py:13-19 | an accepted message with no non-object before it in its partition gets two rows of its own on some run exactly when its timestamp is not stable |
| Redelivery.TwoTransferRowsIff | src/consumer/db.py:62-77 | a transfer has two rows on some run whenever its deliveries can be read with two times - their own, their block's or the clock's - and, when all values are objects or null, only then |
| Limits.FlushCanComplete | src/consumer/main.py:64-84 | a flush holding its connection can go through to the offset commit unless there are whales to send and an old delivery error is waiting |
| Limits.DoneAsksNoMore | src/consumer/main.py:170-190 | a process with nothing buffered and outside its loop never asks for another offset commit |
| Limits.FullBatchCommitsIff | src/consumer/main.py:162-166 | after a message, and before the next poll, the process can commit offsets exactly when 100 records are buffered and, with a whale among them, no delivery error is waiting |
| Limits.LeavingCommitsIff | src/consumer/main.py:168-184 | a process that has left its loop may still ask for an offset commit before it ends exactly when something is buffered and, with a whale in the batch, no delivery error is waiting |
| Limits.RedisFailureCommitsPastIff | src/consumer/main.py:142-182 | when a Redis read raises, the process may commit past the transfer in hand exactly under that condition |
| Limits.NonObjectCommitsPastIff | src/consumer/main.py:149-160 | a message that is no object is read past and ends the loop, and the process may commit past it exactly under the same condition, of the batches and the error as they were before it |
| Limits.NothingEverStoredIff | src/consumer/main.py:149-182 | no run, over any number of restarts, ever stores or commits anything exactly when every message that can be stored lies behind a non-object of its partition |
| Limits.TransferLostOnRedisFailure | src/consumer/main.py:142-182 | one transaction and one unstamped transfer suffice for a run that leaves the transfer below the committed offset, neither stored nor skipped |
| Clients.KafkaProducerClient.OnDelivery | src/consumer/kafka_client.py:16-19 | a finished send leaves the queue and either arrives or sets the sticky error |
| Clients.KafkaProducerClient.SendMessage | src/consumer/kafka_client.py:21-30 | a refused send changes nothing; an accepted one is outstanding until its callback, some of which run at once |
| Clients.KafkaProducerClient.Flush | src/consumer/kafka_client.py:32-39 | it raises exactly when sends are left over or an error is remembered, forgets the error only when none is left over, and changes nothing else |
| Clients.FlushReturnMeansDelivered | src/consumer/kafka_client.py:32-39 | a send that was outstanding or already arrived when flush was called has arrived when flush returns normally |
| Clients.KafkaConsumerClient.Poll | src/consumer/kafka_client.py:61-85 | a poll returns the next record of a partition and advances that partition only, or nothing, or raises, moving nothing |
| Clients.KafkaConsumerClient.Commit | src/consumer/kafka_client.py:87-88 | a commit asks for the position it is called at and for nothing when it raises |
| Clients.DatabaseManager.GetConnection | src/consumer/db.py:21-27 | a borrowed connection starts with an empty transaction and is counted |
| Clients.DatabaseManager.InsertTransactionsBatch | src/consumer/db.py:40-60 | the batch joins the open transaction whole or not at all, and an empty batch does nothing |
| Clients.DatabaseManager.InsertTokenTransfersBatch | src/consumer/db.py:62-77 | the same for transfers |
| Clients.DatabaseManager.Commit | src/consumer/main.py:73 | the tables become the idempotent insert of the transaction or stay, and raising does not say which |
| Clients.RedisManager.CacheBlockTimestamp | src/consumer/redis_client.py:23-25 | a block's time is replaced when the call returns and left alone when it raises |
| Consumer.ServeRuns | src/consumer/kafka_client.py:16-30 | serving any list of delivery callbacks is a legal run of callback steps |
| Consumer.Consumer.constructor | src/consumer/main.py:112-138 | a started process, on whatever tables and committed offsets it finds, is in the state the machine has after a crash |
| Consumer.Consumer.PublishWhaleAlerts | src/consumer/main.py:36-53 | it raises exactly when a send is refused, an alert has not arrived or a delivery error is remembered; returning normally means every whale of the batch has been delivered and the count is theirs; the steps taken are a legal run |
| Consumer.Consumer.InsertAndCommit | src/consumer/main.py:64-73 | it raises exactly when an insert or the commit does; returning normally means both tables are the idempotent insert of the batches; the steps taken are a legal run however the commit ended |
| Consumer.Consumer.BorrowConnection | src/consumer/main.py:64 | a flush gets a connection with an empty transaction or ends at once with the batches kept |
| Consumer.Consumer.RequestCommit | src/consumer/main.py:75 | the offset commit is of the current position, and a raise asks for nothing |
| Consumer.Consumer.EmptyBatches | src/consumer/main.py:83-84 | both batches are emptied, in the machine as in the object |
| Consumer.Consumer.FlushOn | src/consumer/main.py:65-88 | the order insert, commit, publish, offsets, clear: all of it on a normal return, and on a raise the batches are kept and no offset is asked for |
| Consumer.Consumer.FlushBatches | src/consumer/main.py:56-90 | it raises exactly when one of its calls fails, and the connection is returned on every path; contents as for FlushOn |
| Consumer.Consumer.TestSize | src/consumer/main.py:162-166 | from 100 records on the batches are flushed: they are empty afterwards, in the tables, and their offsets asked for, unless a call of the flush failed; below 100 nothing happens |
| Consumer.Consumer.LookUpOnce | src/consumer/main.py:97-101 | one read of the cache either raises, stamps and buffers the transfer, or counts as a miss |
| Consumer.Consumer.EnrichTokenTimestamp | src/consumer/main.py:93-109 | after n misses, n at most ten, a read hits or raises, or all eleven reads missed; a hit buffers the transfer with that time |
| Consumer.Consumer.Dispatch | src/consumer/main.py:144-160 | what each kind of message adds to the batches, field by field, and where the loop goes on after it: a block's number and time to the cache, an unstamped transfer to the lookup, a rejected message past the size test, a non-object out of the loop |
| Consumer.Consumer.PollOnce | src/consumer/main.py:142-160 | one poll with everything up to the size test, Redis included: a header replaces its block's time in the cache and nothing else, an unstamped transfer is buffered with the time its lookup found, and so for every kind of message and every outcome of the calls; the steps taken are a legal run |
| Consumer.Consumer.Iterate | src/consumer/main.py:141-166 | one turn of the loop is a legal run that ends at the loop head or on the way out |
| Consumer.CloseRuns | src/consumer/kafka_client.py:41-44 | closing the producer serves callbacks, and its last flush may raise: the machine's close after them |
| Consumer.Consumer.CloseProducer | src/consumer/main.py:185-189 | the producer is closed, callbacks and a raise of its flush included, by a legal run |
| Consumer.Consumer.Shutdown | src/consumer/main.py:168-190 | the finally block is a legal run that stops the process with every connection returned, and that empties the batches into the tables and asks for their offsets unless a call of its flush failed |
| Consumer.Consumer.MainLoop | src/consumer/main.py:140-192 | any number of turns, signals included, and the shutdown after them are a legal run, and a signal in any turn brings the process to its end |
| Consumer.Start | src/consumer/main.py:112-192 | whatever the inputs, a process started on the store of any reachable state is in a reachable state of the machine and holds no connection; a signal finishes it |
| Consumer.Befallen | src/consumer/main.py:75 | with no process running a requested offset may become the committed one, an alert that was handed over may arrive, and the cache may change, in the machine as in the store |
| Consumer.Wait | src/consumer/main.py:75 | with no process running, commits and alerts still on their way arrive in any order and number, and the state stays reachable |
| Consumer.Lives | src/consumer/main.py:112-192 | so is the last of any number of processes started one after the other on the offsets, tables, alerts and cache that are there by then |
| TopK.PushdownSound | src/backend/repositories/wallet_repo.py:40-51 | a top-k of two top-k branches together is a top-k of the two inputs together, however ties are broken at each limit |
| TopK.PushdownComplete | src/backend/repositories/wallet_repo.py:40-51 | every answer over both inputs is one that limited branches can produce |
| TopK.DoubledUnnoticedIff | src/backend/repositories/wallet_repo.py:40-51 | counting part of the rows twice leaves the set of answers as it was exactly when the limit cannot hold all rows above a doubled one, all its copies and one more |
| TopK.SomeTopK | src/backend/repositories/wallet_repo.py:42-45 | ORDER BY with LIMIT always has an answer |
| WalletHistory.JoinedKeepsRows | src/backend/repositories/wallet_repo.py:86-88 | the label and token joins neither drop nor repeat a row, given the tables' primary keys |
| WalletHistory.BranchesCountSelfTwice | src/backend/repositories/wallet_repo.py:40-46 | both branches together are the rows of the OR plus, once more, the rows from the address to itself |
| WalletHistory.UnionAnswerMeaning | src/backend/repositories/wallet_repo.py:66-91 | the answers of the query as written, limits, joins and all, are exactly the labelled top-k answers of that doubled table |
| WalletHistory.AnswersAreLabelled | src/backend/repositories/wallet_repo.py:28-91 | every answer is of the wallet's own rows, newest first and at most the limit; the sender's label on a row is the one of its sender's address, the receiver's that of its receiver's, the token that of its token, each NULL exactly when there is none |
| WalletHistory.RewriteAgreesIff | test/test_explain_analyze.py:13-36 | the rewrite and the OR query have the same answers exactly when, for every row to oneself, the limit is at most the newer rows plus its own copies |
| WalletHistory.NoSelfTransferAgrees | test/test_explain_analyze.py:13-36 | a wallet that never sends to itself gets the same set of answers from both queries |
| CacheKey.IntRoundTrip | src/backend/services/token_service.py:29 | a printed integer reads back as itself, has a minus sign exactly when negative and no leading zero, and contains no 'h' |
| CacheKey.NamesAre | src/backend/services/token_service.py:29 | the texts of the two keys |
| CacheKey.NamesAreInjective | src/backend/services/token_service.py:29 | two requests share a Redis key only when they ask for the same thing |
| CacheProtocol.StepDoes | src/backend/services/gas_service.py:34-68 | what any one coroutine's step can do to the locks, the cache, the counts and the values |
| CacheProtocol.StepKeepsInv | src/backend/services/token_service.py:31-77 | every step of a coroutine keeps the lock, count, provenance and age invariants |
| CacheProtocol.MutualExclusion | src/backend/services/gas_service.py:45 | at most one coroutine per server and endpoint is between acquiring and releasing the lock |
| CacheProtocol.ServerBound | src/backend/services/gas_service.py:37-65 | one connected server starts at most one query for a key, plus one per expiration and one per failed query |
| CacheProtocol.StampedeBound | src/backend/services/gas_service.py:37-65 | m connected servers start at most m*(E+1)+F queries for a key, over all interleavings |
| CacheStampede.StampedeIsReached | src/backend/services/gas_service.py:37-65 | for every m > 0, E and F there is a run of m connected servers with E expirations and F failures that starts m*(E+1)+F queries for the key |
| CacheProtocol.SingleServer | src/backend/services/token_service.py:40-71 | with one connected server and no late SET, a query runs, and its result is stored, only while its key is absent |
| CacheProtocol.LateSetMeetsQuery | src/backend/services/token_service.py:66-73 | a SET that takes effect after its coroutine was cancelled can meet the next query for its key |
| CacheProtocol.AnswersAreFreshAndTheirOwn | src/backend/services/token_service.py:31-73 | every answer was computed by a query for the same parameters, and a cached one was stored less than 60 seconds before it was read |
| CacheStampede.AgeIsReached | src/backend/services/token_service.py:66-70 | every age below 60 seconds is that of some answer, given from the cache |
| CacheProtocol.OfflineIsUnbounded | src/backend/services/gas_service.py:38 | a server that started without Redis can query any number of times with nothing expired and nothing failed |
| CacheServices.Backend.Others | src/backend/services/gas_service.py:39 | at an await any steps of the others may happen; none of them touches this coroutine's own place |
| CacheServices.Backend.GoTo | src/backend/services/gas_service.py:45 | leaving the locked block gives back the lock of this server and endpoint, and only then |
| CacheServices.Backend.FirstLook | src/backend/services/token_service.py:32-37 | with a connection a cached value is the answer, at once; a miss, or no Redis, goes to the lock |
| CacheServices.Backend.AcquireLock | src/backend/services/token_service.py:40 | the lock is taken as soon as it is found free; a coroutine that never finds it free ends cancelled, with the lock still held |
| CacheServices.Backend.SecondLook | src/backend/services/token_service.py:42-49 | under the lock a cached value is the answer and releases it; a miss starts the one query |
| CacheServices.Backend.HaveResult | src/backend/services/token_service.py:49-66 | a query's result goes on to Redis, or without Redis straight to the caller with the lock released |
| CacheServices.Backend.SetTakesEffect | src/backend/services/token_service.py:66-70 | the entry carries this result and this moment while the coroutine still waits |
| CacheServices.Backend.SetReturned | src/backend/services/token_service.py:66-77 | a normal return gives the result to the caller and releases the lock; a raise ends the coroutine, and a SET that has not landed may land later |
| CacheServices.Backend.Store | src/backend/services/token_service.py:66-77 | the others may see the entry before the coroutine goes on; whatever they do, it ends answered with its result, or failed |
| CacheServices.Backend.Raise | src/backend/services/token_service.py:75-77 | an exception releases the lock if held and counts the query as failed if one was started |
| CacheServices.Backend.Serve | src/backend/services/token_service.py:24-77 | whatever happens at its awaits, the coroutine ends, in a reachable state, with a fresh answer computed for its own parameters and less than 60 seconds old, or with an error, and then only because a call raised or the lock was never free |
| CacheServices.BuildTokens | src/backend/services/token_service.py:54-63 | one token per row of the query, in the query's order, field for field |
| WsManager.ConnectionManager.BeginConnect | src/backend/core/ws_manager.py:15-22 | up to the await, connecting is the machine's step: a socket becomes pending exactly while the list, not list and pending together, has room |
| WsManager.ConnectionManager.FinishConnect | src/backend/core/ws_manager.py:22-28 | after the await it is the machine's step whether accept returned or raised: only a return lists the socket and starts a heartbeat, when none is unfinished |
| WsManager.ConnectionManager.Connect | src/backend/core/ws_manager.py:15-28 | whatever the others do at the await, a socket is let in exactly when the list had room before it and the handshake succeeds, and then it is listed and a heartbeat is running |
| WsManager.ConnectionManager.Remove | src/backend/core/ws_manager.py:30-33 | the first occurrence of the socket is removed, and nothing when there is none |
| WsManager.ConnectionManager.ClientGone | src/backend/core/ws_manager.py:30-33 | when its client has gone a socket is taken off the list, if a failed send has not done that before, and is not on it any more |
| WsManager.ConnectionManager.Endpoint | src/backend/api/whales.py:27-37 | whatever the others do meanwhile, a socket is served exactly when the list had room and its handshake succeeds, and is off the list once its client has gone |
| WsManager.ConnectionManager.SendReturned | src/backend/core/ws_manager.py:35-44 | the end of a send is the machine's step: a successful one leaves the list as it was, a failed one takes its socket off it |
| WsManager.ConnectionManager.Broadcast | src/backend/core/ws_manager.py:35-52 | whatever order the sends end in and whatever the others do, it ends when each of its sends has, and then each socket listed at the start has been sent the message or is off the list, and none it reached was removed by it |
| WsManager.ConnectionManager.Ping | src/backend/core/ws_manager.py:54-63 | after its sleep a round broadcasts exactly when somebody is listed then, to exactly those |
| WsManager.ConnectionManager.PingLoop | src/backend/core/ws_manager.py:54-66 | so in every round, until the heartbeat is cancelled and done |
| WsManager.WithoutMeaning | src/backend/core/ws_manager.py:30-33 | on a list without repetitions, removal takes off exactly that socket and keeps the rest distinct |
| WsManager.StepKeepsInv | src/backend/core/ws_manager.py:15-66 | every step keeps the list without repetition, the bound, the one heartbeat, and each broadcast's outcomes in step with the list |
| WsManager.ConnectionBound | src/backend/core/ws_manager.py:15-28 | with at most k handshakes pending at any time, listed plus pending sockets never exceed the limit by more than k - 1, and none is listed twice |
| WsManager.BoundIsReached | src/backend/core/ws_manager.py:17-23 | k handshakes that pass the check together do bring the list to the limit plus k - 1 |
| WsManager.OneHeartbeat | src/backend/core/ws_manager.py:26-28 | however connects and task ends interleave, at most one heartbeat task is unfinished |
| WsManager.BroadcastOutcome | src/backend/core/ws_manager.py:35-52 | when a broadcast ends, each socket of its snapshot has been sent the message or is off the list |
| WsManager.SentIsNotRemoved | src/backend/core/ws_manager.py:35-52 | a broadcast never removes a socket its send to which succeeded |
| Receipts.ExtractTxHashes | src/storage/etl/receipts.py:10-38 | the result names, in the order of the file, exactly the lines that are transactions of at least minEth times 10^18 wei, a missing value counting as 0; an unreadable line raises |
| Receipts.RecordsByLine | src/storage/etl/receipts.py:19-22 | every line of a file counts once and in order, blank ones as nothing |
| Receipts.ExtractedIff | src/storage/etl/receipts.py:22-31 | with unique hashes, a hash is extracted exactly when its transaction is large enough |
| Receipts.WhaleHashesDistinct | src/storage/etl/receipts.py:22-31 | unique hashes stay unique in the extract |
| Receipts.HashesByFile | src/storage/etl/receipts.py:19-36 | extracting block range by block range is extracting from the whole day |
| Relational.LeftJoinKeepsRows | src/silver/transform/txn_enriched.py:28-32 | a left join in which no row has two partners keeps the rows one for one and in order |
| Relational.JoinMeaning | src/silver/transform/txn_enriched.py:28-32 | a left join holds every pair that matches, each row without a match beside NULL, and nothing else |
| Relational.JoinKeepsCountIff | src/silver/transform/whale_txns.py:38-54 | a left join keeps the number of rows exactly when no row has two partners |
| WhaleTxns.WhalesAre | src/silver/transform/whale_txns.py:29-33 | for any extraction limit, filter threshold and rounding, exactly which transactions pass both stages |
| WhaleTxns.PruningLosesNoWhale | src/silver/transform/txn_enriched.py:28-41 | with equal limits, whale rows are exactly the transactions of at least that many wei and status 1, once each and in order, for every monotone rounding that fixes the limit |
| WhaleTxns.SixDecimalsRounds | src/silver/transform/txn_enriched.py:35-38 | the division's six half-up decimals are such a rounding, for every whole number of ETH |
| WhaleTxns.RoundingAloneLetsInMore | src/silver/transform/whale_txns.py:31-32 | with its receipt at hand, a successful transaction passes the filter exactly from half a millionth of an ETH below the threshold on: it is the pruning that keeps those below it out |
| WhaleTxns.LowerThresholdLosesWhale | src/silver/transform/whale_txns.py:133 | a filter threshold below the extraction limit loses every transaction of exactly that threshold |
| WhaleTxns.LabelJoinsKeepRows | src/silver/transform/whale_txns.py:38-54 | whichever duplicates the deduplication drops, the two label joins leave one row per whale, in order, with both sides' labels |
| WhaleTxns.LabelJoinsKeepCountIff | src/silver/known_labels.py:31-35 | the joins keep the number of rows exactly when no side of a whale has two labels, which is what dropDuplicates is there for |
| WhaleTxns.WhaleTableIsExact | src/silver/transform/whale_txns.py:29-70 | from the day's transactions to whale_txns: one row for each successful whale, in order, with its own hash, time, hour of the day, addresses and rounded value, and no other row |
| WhaleTxns.FlowsFollowLabels | src/silver/transform/whale_txns.py:86-93 | a row is a deposit exactly when nobody known sends to an exchange, a withdrawal exactly the other way round, a trade exactly when either side is a DEX, a bridge move exactly when either is a bridge and neither a DEX, private exactly when both are unknown, and something else in the remaining cases |
| WhaleTxns.ColumnsFollowLabels | src/silver/transform/whale_txns.py:38-67 | each side's entity and category are those of the label of that side's own address, or Unknown when it has none |
| Windows.RunningGrows | src/silver/transform/whale_txns.py:96-109 | along a sender's rows the count climbs strictly, the total never falls, and the flag once up stays up |
| Windows.FlagIsOfTotals | src/gold/transform/top_whales_daily.py:38-46 | for every order ties may fall in, gold flags an address exactly when its day has at least 5 transactions and at least 500 ETH sent |
| Windows.OrderNeverReachesGold | src/gold/transform/top_whales_daily.py:38-46 | so two runs that order ties differently give every address the same flag |
| Windows.FiveWhalesSuffice | src/silver/transform/whale_txns.py:107-109 | at the limit of 100 ETH the flag says no more than five transactions |
| Sums.GroupsConserve | src/gold/transform/top_whales_daily.py:38-56 | grouping by any key conserves any total |
| Sums.SumOfBag | src/gold/transform/top_whales_daily.py:41-44 | a sum does not depend on the order of the rows |
| OuterJoins.OuterJoinConserves | src/gold/transform/top_whales_daily.py:59-63 | a full outer join in which every row has at most one partner keeps the totals of both sides |
| TopWhales.WalletsConserve | src/gold/transform/top_whales_daily.py:38-76 | over all rows, sent and received each add up to the day's transfers, net flows to 0 and activities to twice the transfers |
| TopWhales.OneRowPerAddress | src/gold/transform/top_whales_daily.py:59-63 | no address has two rows, and an address has one exactly when it sent or received |
| TopWhales.RowMeaning | src/gold/transform/top_whales_daily.py:59-87 | an address's row carries its totals, counts and flag for the day, whatever order the flags were computed in |
| TopWhales.CreationsHaveTheirRow | src/gold/transform/top_whales_daily.py:49-63 | the transactions without a receiver have a row without an address, which carries their total and sent nothing |
| WalletColumns.PositionIff | src/gold/transform/top_whales_daily.py:67-81 | a wallet is an Accumulator, or a Dumper, exactly when it leans that way by at least half a millionth of an ETH |
| WalletColumns.RoundedNetsNearlyCancel | src/gold/transform/top_whales_daily.py:67-70 | the rounded net flows of n wallets add up to at most n/2 millionths of an ETH in absolute value |
| WalletColumns.NetsCancelExactly | src/gold/transform/top_whales_daily.py:67-70 | for values of six decimals the rounded net flows add up to exactly 0 |
| WalletColumns.SixDecimalsLeaveMicros | src/silver/transform/txn_enriched.py:35-38 | the values silver produces are of that kind |
| WalletColumns.NoCrabs | src/gold/transform/top_whales_daily.py:9-15 | no wallet of the summary is ever tiered Crab |
| WalletColumns.TierIsExact | src/gold/transform/top_whales_daily.py:71-84 | with six decimals the tier is that of the exact activity: from 1000, 500 and 100 ETH |
| WalletColumns.RanksMirror | src/gold/transform/top_whales_daily.py:88-97 | the accumulator and dumper ranks of a wallet tied with t - 1 others among n add up to n + 2 - t |
| WalletColumns.RanksArePlaces | src/gold/transform/top_whales_daily.py:88-97 | rank_accumulator is a wallet's place by falling net flow and rank_dumper its place by rising net flow, ties sharing the first place of theirs |
| WalletColumns.EntityIsItsLabel | src/gold/transform/top_whales_daily.py:124-143 | the representative entity is the address's own label, so the open order of the window's ties cannot show |
| WalletColumns.TopTableKeepsRows | src/gold/transform/top_whales_daily.py:143 | the final join with the entity map keeps the summary's rows one for one and in order |
| WalletColumns.TopTableMeaning | src/gold/transform/top_whales_daily.py:109-143 | so the table has one row for each wallet of the summary; one with an address has its own label beside it, and the one without an address has none |
| Rounding.HalfUpIsNear | src/gold/transform/market_flow_hourly.py:40-45 | a rounded value is within half a unit of what it rounds |
| Rounding.HalfUpMonotone | src/gold/transform/market_flow_hourly.py:55 | a larger numerator over a smaller denominator never rounds to less |
| MarketFlow.PressureMonotone | src/gold/transform/market_flow_hourly.py:58-68 | more deposits never make the label more bullish, more withdrawals never more bearish, zero cases included |
| MarketFlow.PressureIsSound | src/gold/transform/market_flow_hourly.py:47-68 | SELL only when deposits exceed withdrawals and BUY only when they are lower, whatever the two roundings of the ratio |
| MarketFlow.PressureIff | src/gold/transform/market_flow_hourly.py:47-68 | how far apart the two must be for the label to leave NEUTRAL, exactly, on either side |
| MarketFlow.StrongPressureIff | src/gold/transform/market_flow_hourly.py:63-66 | the same for the strong labels, around the ratios 1.5 and 0.67 |
| MarketFlow.RatioIff | src/gold/transform/market_flow_hourly.py:47-56 | the ratio is NULL exactly where nothing was withdrawn, and otherwise exactly the quotient to four decimals, halves up, after the division's own rounding |
| MarketFlow.PathsAgree | src/gold/transform/market_flow_hourly.py:28-46 | the deposits, and the withdrawals, on every row of an hour are the total of that hour's own row for that flow |
| MarketFlow.NoRowNoFlow | src/gold/transform/market_flow_hourly.py:72-76 | and they are 0 on the rows of an hour that has no such row |
| MarketFlow.OneRowPerFlow | src/gold/transform/market_flow_hourly.py:28-33 | an hour and flow type has one row exactly when some whale has them, and never two |
| MarketFlow.TotalsAreNearest | src/gold/transform/market_flow_hourly.py:28-46 | every total is its hour's and flow's sum to four decimals, halves up, and the ratio on a row is that of its own two flows |
| MarketFlow.TableIsSound | src/gold/transform/market_flow_hourly.py:28-76 | the label on a row speaks truly of the hour's unrounded deposits and withdrawals |
| Popularity.NormInUnit | src/gold/transform/token_popularity_daily.py:18-27 | normalised values lie in [0,1], constant columns included |
| Popularity.NormSpreads | src/gold/transform/token_popularity_daily.py:18-27 | some token has 0, and some has 1 exactly when the column is not constant |
| Popularity.NormIsEven | src/gold/transform/token_popularity_daily.py:18-27 | a token's norm is its distance from the column's low end in parts of the whole range, and 0 in a constant column |
| Popularity.ScoreIsNearest | src/gold/transform/token_popularity_daily.py:72-76 | the score is the nearest ten-thousandth to 0.55 of one norm and 0.45 of the other, the upper of two as near |
| Popularity.ScoreFromCounts | src/gold/transform/token_popularity_daily.py:18-76 | so from the transfers and pairs of a token and of the day's extremes the score is determined |
| Popularity.ScoreInUnit | src/gold/transform/token_popularity_daily.py:72-76 | the rounded score lies in [0,1] |
| Popularity.MoreIsNoWorse | src/gold/transform/token_popularity_daily.py:66-85 | at least as many transfers and pairs as another token give a rank at least as good |
| Popularity.RankIsItsPlace | src/gold/transform/token_popularity_daily.py:82-85 | a token's rank is its place by falling score, ties sharing the first place of theirs |
| Popularity.LeaderIsFirst | src/gold/transform/token_popularity_daily.py:82-85 | a token that leads both columns is ranked first |
| Popularity.TransfersOutweighPairs | src/gold/transform/token_popularity_daily.py:11-13 | the leader in transfers alone scores 0.55, the leader in pairs alone 0.45, and the first ranks better |
| Popularity.VolumeNeverCounts | src/gold/transform/token_popularity_daily.py:11-13 | days that differ in volumes only score every token the same |
| LagTest.Session.ExecuteValues | lag_test/consumer.py:103-108 | the rows join the open transaction, after what it already holds |
| LagTest.Session.Commit | lag_test/consumer.py:109 | the table becomes the idempotent insert of the whole transaction |
| LagTest.TakeRow | lag_test/consumer.py:98-116 | wherever a turn is stopped after the append, inserting the batch on top of what the transaction holds completes the table; a full batch is stored, its offset committed, and cleared |
| LagTest.TwiceIsOnce | lag_test/consumer.py:131-140 | inserting the batch into a transaction or a table that already holds it changes nothing |
| LagTest.RunBatched | lag_test/consumer.py:52-145 | the batched loop leaves the fold of every row it appended: all the table held before, each message of a completed turn under its own hash and time, and no other row; its committed offset is pinned, and passes a message that was never appended exactly when the loop ends between poll and append with a non-empty batch |
| LagTest.StoreRow | lag_test/consumer.py:75-92 | a row is in the table exactly from the commit on, and every hundredth commits the offset |
| LagTest.RunSlow | lag_test/consumer.py:52-145 | the row by row loop leaves the fold of every row it committed, described in the same way; its offset is that of the last turn that made a full hundred of rows since the last report, never passes what is stored, and without reports is their number rounded down to hundreds |
| LagTest.SinceGrows | lag_test/consumer.py:88-127 | between two reports the count that decides the offset commits grows with the rows |
| LagTest.ModesAgreeIff | lag_test/consumer.py:52-145 | the two modes keep the same rows exactly unless stopped between taking a row and committing it |
| LagTest.FastRefinesSlow | lag_test/consumer.py:52-145 | for any two batch sizes the tables are equal, equal to the row by row table unless stopped mid-row, also when stopped between the database commit and the clear, and otherwise ahead of it by that one row |

## Left out

- Guarantees.TableIsPrefixOfLog: about the transactions delivered in one partition alone, because the order between partitions is not determined, and with stable times, because Redelivery.ClockStampStoredTwice shows the others can get two rows; Guarantees.TableKeysAreOfPrefixes gives the keys of those delivered in several.
- Guarantees.TransferKeysAreOfPrefixes: exact for transfers with times of their own; a skipped or dropped transfer may be stored later, when its message is read again.
- Guarantees.NoTransferLost: only for runs whose Redis reads return, because the statement is false otherwise: Limits.TransferLostOnRedisFailure is the run, Limits.RedisFailureCommitsPastIff the exact condition.
- Guarantees.OneRowPerTransfer: requires that the deliveries of one transfer agree on its block and time and that a block has one time, because the key contains the time; Redelivery.TwoTransferRowsIff is the exact condition.
- Redelivery.TwoRowsIff: only its first half is stated for logs with non-objects, because which messages behind one can be read depends on how often something buffered lets the process commit past it; so is that of Redelivery.TwoTransferRowsIff.
- Consumer.Consumer.MainLoop: runs over a finite list of inputs, because every run of a process is finite; a crash is any cut of the steps it returns.
- Redelivery.HeaderTimesTransfer: for a header and a transfer in different partitions, as their topics make them; in one partition another header of the block between the two would replace the time.
- CacheServices.Backend.AcquireLock: waits for a finite number of turns and is cancelled after them; the fairness of asyncio's lock queue is not modelled.
- WhaleTxns.PruningLosesNoWhale: assumes unique hashes and one receipt per extracted hash reporting the chain's status, as the exporter is meant to deliver.
- Popularity.MoreIsNoWorse: over real numbers; the last-digit errors of doubles are not modelled, and every token is taken to have a volume.
- CacheProtocol.SingleServer: not for runs in which a SET takes effect after its coroutine raised or was cancelled, because it is false there (CacheProtocol.LateSetMeetsQuery); the other theorems of that module include such runs.
- `origin`, `landed`, `flushed`, `skipped`, `dropped`, `missed`, `failures`, and the counts of the cache machine are history that no branch reads.
- The producer library runs delivery callbacks only inside `poll` and `flush`, and offset commits that raise have asked for nothing.
- `putconn` and `rollback` are taken not to fail; the size of the connection pool is not modelled.
- Kafka group rebalancing and retention, table retention and compression, and Redis eviction other than by removing entries.
- JSON, float, decimal text and datetime codecs are taken to round-trip; a JSON object is split into the cases the pydantic models tell apart.
- `bool` and other odd values of a timestamp beyond falsy, numeric in range, and anything else.
- The gas_price column of the wallet query, which is carried along like `value`.
- Wall-clock sleeps, logging, and signal handling beyond the flag that ends the loop.
- The conversion of the average gas price to gwei; the value is an opaque text here.
- The whale alert consumer of the backend and its cancellation at shutdown.
- `tx_fee_eth`, the contract flags, `cumul_recv_eth` and silver's own `whale_tier` and `is_private_transaction`: columns no later stage of this model reads.
- `rank_activity`, `popularity_tier`, `cex_net_flow` and its label: one more comparison each.
- The entity name taken out of a label is an opaque function, `approx_count_distinct` a given number.
- The size and count of receipts reported as KPIs, the upload and the deletion of local files.
- Which rows `dropDuplicates` keeps is left open; so are the order of the rows a join or a grouping returns, which is fixed here only to name them.
- Addresses are compared as they are written; nothing lower-cases them.
- `token_popularity_hourly`, which filters on a column its schema does not have, and the silver check reports.
- Failures of the lag test's own database and Kafka calls; its finally block is taken to complete.
- `write_gold_to_bq` appends; nothing is said about running a day twice.
- Airflow DAGs, Spark configuration, notifications, the loaders for CSV and Elasticsearch, the front end and the deployment files.
