# Clustered data store access layer: a Dafny model

This project models seven small pieces of the OpenDaylight clustered data store
and proves properties of them with Dafny:

- **Raft timing configuration** (`RaftConfig`, `raft_config.dfy`). The default
  configuration is a mutable record of a heartbeat interval, a snapshot batch
  count and a journal recovery batch size. The election timeout is derived from
  the heartbeat. The election time variance and the snapshot chunk size are fixed.
- **Local transaction context** (`LocalTransaction`, `local_transaction.dfy`). A
  transaction context forwards writes, merges, deletes and reads to a delegate
  transaction. The first exception a modification throws is captured instead of
  thrown. In this model no modification is forwarded after that. Readiness hands the delegate
  and the captured exception to the ready support.
- **Client behaviour** (`ClientBehavior`, `client_behavior.dfy`). The client actor's
  behaviour names what it creates under its own client identifier. It caches one
  connection per shard and answers `GetClientRequest`. Once closed, it refuses to
  create anything.
- **Close-local-history payload** (`Persisted`, `persisted.dfy`). This journal record
  pairs a history identifier with the bytes it serializes to.
- **Serialization proxies** (`Commands`, `commands.dfy`). This covers the
  `ModifyTransactionSuccess` proxy (MTS) and `TransactionPreCommitSuccess`, whose
  per-version clone is itself.
- **KeyValue** (`KeyValueMessage`, `key_value.dfy`). An immutable pair of strings with
  a fixed printed form.

Shared values live in `Concepts` (`concepts.dfy`): the identifier hierarchy,
exceptions, actor references and opaque data-tree types. The `Option` and `Result`
datatypes live in `Wrappers` (`wrappers.dfy`).

## How the model is built

- Objects whose fields the source assigns are classes. Their setters and commands
  are methods whose `modifies` clauses name, field by field, what they change. Values that
  never change are datatypes.
- `FiniteDuration` is a natural number of milliseconds. Java `long` and `int`
  parameters are subset types of their width. No arithmetic is done on them.
- Java `null` is `Option.None`. An operation that throws returns `Result.Failure`
  carrying the exception.
- Some collaborators are only passed in as parameters:
  - the delegate transaction: how each of its operations turns out;
  - `LocalHistoryIdentifier.writeTo`: the bytes it emits, or what it throws;
  - the shard resolver.
- Actor messaging is modelled as two sequences on the behaviour: `mailbox` for
  internal commands scheduled on the client actor, and `outbox` for messages sent
  to other actors.
- The sequence of delegate calls is a ghost log. `Captured` and `Forwarded` state,
  over the sequence of requested modifications, which exception is captured and
  which modifications reach the delegate. The context's object invariant ties its
  fields to these two functions.

The implementations of `LocalTransactionContext` and `AbstractDataStoreClientBehavior`
are not part of this model. Their contract is taken from their unit tests:
`LocalTransactionContextTest.java` and `AbstractDataStoreClientBehaviorTest.java`.

The tests pin down only a repeated identical modification. After a failing
`executeWrite`, `executeMerge` or `executeDelete`, a second identical call leaves
exactly one such call on the delegate (Mockito's default `times(1)`). No test
covers a different modification after a failure. The model reads the tests as
one rule: once an exception is captured, no modification of any kind is forwarded.
"## Left out" records that this is the model's reading.

## Model

| member | source | states |
|---|---|---|
| `RaftConfig.DefaultConfigParams.constructor` | opendaylight/md-sal/sal-akka-raft/src/main/java/org/opendaylight/controller/cluster/raft/DefaultConfigParamsImpl.java:21-46 | A fresh configuration has heartbeat 100 ms, snapshot batch count 20000, journal recovery batch size 1000, and so an election timeout of 200 ms |
| `RaftConfig.DefaultConfigParams.SetHeartBeatInterval` | opendaylight/md-sal/sal-akka-raft/src/main/java/org/opendaylight/controller/cluster/raft/DefaultConfigParamsImpl.java:48-50 | The heartbeat getter returns the new interval and the election timeout is twice it; the other getters are unchanged |
| `RaftConfig.DefaultConfigParams.SetSnapshotBatchCount` | opendaylight/md-sal/sal-akka-raft/src/main/java/org/opendaylight/controller/cluster/raft/DefaultConfigParamsImpl.java:52-54 | Only the snapshot batch count changes, to the given value |
| `RaftConfig.DefaultConfigParams.SetJournalRecoveryLogBatchSize` | opendaylight/md-sal/sal-akka-raft/src/main/java/org/opendaylight/controller/cluster/raft/DefaultConfigParamsImpl.java:56-58 | Only the journal recovery batch size changes, to the given value |
| `RaftConfig.ElectionTimeoutTracksHeartbeat` | opendaylight/md-sal/sal-akka-raft/src/main/java/org/opendaylight/controller/cluster/raft/DefaultConfigParamsImpl.java:70-74 | For every configuration the election timeout is exactly twice the current heartbeat, so a heartbeat of at least 100 ms gives at least 200 ms |
| `RaftConfig.FixedParameters` | opendaylight/md-sal/sal-akka-raft/src/main/java/org/opendaylight/controller/cluster/raft/DefaultConfigParamsImpl.java:76-84 | The election time variance is 100 and the snapshot chunk size 2,048,000, for every configuration whatever has been set |
| `RaftConfig.DefaultElectionWindow` | opendaylight/md-sal/sal-akka-raft/src/main/java/org/opendaylight/controller/cluster/raft/DefaultConfigParamsImpl.java:33-41 | With the default heartbeat the election timeout is 200 ms, and that timeout plus the variance is 300 ms |
| `RaftConfig.ConfigurationScenario` | opendaylight/md-sal/sal-akka-raft/src/main/java/org/opendaylight/controller/cluster/raft/DefaultConfigParamsImpl.java:44-74 | A fresh configuration times out after 200 ms. After a new heartbeat and batch count, the timeout is twice the heartbeat, the batch count is the new one and the recovery batch size is still 1000 |
| `KeyValueMessage.Accessors` | opendaylight/md-sal/sal-akka-raft/src/main/java/org/opendaylight/controller/cluster/example/messages/KeyValue.java:14-28 | The getters return the key and the value the constructor was given |
| `KeyValueMessage.ToStringPieces` | opendaylight/md-sal/sal-akka-raft/src/main/java/org/opendaylight/controller/cluster/example/messages/KeyValue.java:30-35 | The printed form is `KeyValue{key='`, the key, `', value='`, the value and `'}` |
| `KeyValueMessage.ParseToString` | opendaylight/md-sal/sal-akka-raft/src/main/java/org/opendaylight/controller/cluster/example/messages/KeyValue.java:30-35 | When the key has no single quote, both fields can be read back from the printed form |
| `KeyValueMessage.ToStringParse` | opendaylight/md-sal/sal-akka-raft/src/main/java/org/opendaylight/controller/cluster/example/messages/KeyValue.java:30-35 | Conversely, any text read back as a key/value is exactly that pair's printed form, and its key has no quote |
| `KeyValueMessage.ToStringInjective` | opendaylight/md-sal/sal-akka-raft/src/main/java/org/opendaylight/controller/cluster/example/messages/KeyValue.java:30-35 | Two messages with quote-free keys print alike only if they are equal |
| `KeyValueMessage.ToStringAmbiguous` | opendaylight/md-sal/sal-akka-raft/src/main/java/org/opendaylight/controller/cluster/example/messages/KeyValue.java:30-35 | With a quote in the key, two different messages print the same text, so the restriction above is needed |
| `LocalTransaction.LocalTransactionContext.constructor` | opendaylight/md-sal/sal-distributed-datastore/src/test/java/org/opendaylight/controller/cluster/datastore/LocalTransactionContextTest.java:49-65 | A new context has no captured exception and has made no delegate call |
| `LocalTransaction.LocalTransactionContext.ExecuteModification` | opendaylight/md-sal/sal-distributed-datastore/src/test/java/org/opendaylight/controller/cluster/datastore/LocalTransactionContextTest.java:122-164 | A modification reaches the delegate once exactly when nothing is captured yet. The exception it throws is captured, never propagated. A captured exception is never replaced |
| `LocalTransaction.LocalTransactionContext.ExecuteWrite` | opendaylight/md-sal/sal-distributed-datastore/src/test/java/org/opendaylight/controller/cluster/datastore/LocalTransactionContextTest.java:67-73 | With nothing captured, the delegate gets exactly one `write` with the same path and data |
| `LocalTransaction.LocalTransactionContext.ExecuteMerge` | opendaylight/md-sal/sal-distributed-datastore/src/test/java/org/opendaylight/controller/cluster/datastore/LocalTransactionContextTest.java:75-81 | With nothing captured, the delegate gets exactly one `merge` with the same path and data |
| `LocalTransaction.LocalTransactionContext.ExecuteDelete` | opendaylight/md-sal/sal-distributed-datastore/src/test/java/org/opendaylight/controller/cluster/datastore/LocalTransactionContextTest.java:83-88 | With nothing captured, the delegate gets exactly one `delete` of the same path |
| `LocalTransaction.LocalTransactionContext.ExecuteRead` | opendaylight/md-sal/sal-distributed-datastore/src/test/java/org/opendaylight/controller/cluster/datastore/LocalTransactionContextTest.java:90-108 | `ReadData` invokes the delegate's `read` and `DataExists` its `exists`, on the same path. The caller's future completes with the delegate's answer. Error state and modifications are untouched |
| `LocalTransaction.ReadOutcomeOf` | opendaylight/md-sal/sal-distributed-datastore/src/test/java/org/opendaylight/controller/cluster/datastore/LocalTransactionContextTest.java:90-108 | A read completes with the delegate's data, an existence check with its boolean, and either fails exactly when the delegate's operation fails |
| `LocalTransaction.LocalTransactionContext.ReadyTransaction` | opendaylight/md-sal/sal-distributed-datastore/src/test/java/org/opendaylight/controller/cluster/datastore/LocalTransactionContextTest.java:110-120 | Hands the delegate and the captured exception to the ready support. That exception is the first one thrown by the modifications asked for. It is null when none threw |
| `LocalTransaction.NothingCapturedIffNoFailure` | opendaylight/md-sal/sal-distributed-datastore/src/test/java/org/opendaylight/controller/cluster/datastore/LocalTransactionContextTest.java:67-120 | Nothing is captured if and only if no requested modification throws. In that case every modification reaches the delegate, in order |
| `LocalTransaction.FirstFailureWins` | opendaylight/md-sal/sal-distributed-datastore/src/test/java/org/opendaylight/controller/cluster/datastore/LocalTransactionContextTest.java:122-172 | The first modification that throws decides the captured exception. The delegate sees exactly the modifications up to and including it |
| `LocalTransaction.CapturedIsFinal` | opendaylight/md-sal/sal-distributed-datastore/src/test/java/org/opendaylight/controller/cluster/datastore/LocalTransactionContextTest.java:129-132 | Once an exception is captured, later modifications neither replace it nor reach the delegate |
| `LocalTransaction.FailureIsForwardedOnce` | opendaylight/md-sal/sal-distributed-datastore/src/test/java/org/opendaylight/controller/cluster/datastore/LocalTransactionContextTest.java:126-161 | A throwing modification followed by anything reaches the delegate once, and its exception is the one captured |
| `LocalTransaction.RepeatedFailureScenario` | opendaylight/md-sal/sal-distributed-datastore/src/test/java/org/opendaylight/controller/cluster/datastore/LocalTransactionContextTest.java:122-172 | The same throwing modification asked for twice gives one delegate call, and readiness passes on its exception |
| `ClientBehavior.DataStoreClientBehavior.constructor` | opendaylight/md-sal/sal-distributed-datastore/src/test/java/org/opendaylight/controller/cluster/databroker/actors/dds/AbstractDataStoreClientBehaviorTest.java:52-61 | A new behaviour is open, has no connections, has issued nothing, and `GetIdentifier()` is the client id it was given |
| `ClientBehavior.DataStoreClientBehavior.ResolveShardForPath` | opendaylight/md-sal/sal-distributed-datastore/src/test/java/org/opendaylight/controller/cluster/databroker/actors/dds/AbstractDataStoreClientBehaviorTest.java:72-75 | The resolver parameter is assumed to put the root (empty) path in shard 0; the member passes that assumption on |
| `ClientBehavior.DataStoreClientBehavior.OnCommand` | opendaylight/md-sal/sal-distributed-datastore/src/test/java/org/opendaylight/controller/cluster/databroker/actors/dds/AbstractDataStoreClientBehaviorTest.java:82-96 | Returns the very same behaviour. A `GetClientRequest` is answered with one `Status.Success` whose status is the behaviour. An unknown command sends nothing and changes nothing |
| `ClientBehavior.DataStoreClientBehavior.CreateLocalHistory` | opendaylight/md-sal/sal-distributed-datastore/src/test/java/org/opendaylight/controller/cluster/databroker/actors/dds/AbstractDataStoreClientBehaviorTest.java:98-102 | While open, returns a history whose client id is `GetIdentifier()` and whose identifier was never issued before. Once stopped, fails with the stop reason and changes nothing |
| `ClientBehavior.DataStoreClientBehavior.AllocateTransactionId` | opendaylight/md-sal/sal-distributed-datastore/src/test/java/org/opendaylight/controller/cluster/databroker/actors/dds/AbstractDataStoreClientBehaviorTest.java:104-114 | While open, yields a transaction identifier of the standalone history that was never issued before. Once stopped, fails with the stop reason |
| `ClientBehavior.DataStoreClientBehavior.CreateTransaction` | opendaylight/md-sal/sal-distributed-datastore/src/test/java/org/opendaylight/controller/cluster/databroker/actors/dds/AbstractDataStoreClientBehaviorTest.java:104-108 | While open, returns a transaction whose `getHistoryId().getClientId()` is `GetIdentifier()` and whose identifier is new. Once stopped, fails with the stop reason |
| `ClientBehavior.DataStoreClientBehavior.CreateSnapshot` | opendaylight/md-sal/sal-distributed-datastore/src/test/java/org/opendaylight/controller/cluster/databroker/actors/dds/AbstractDataStoreClientBehaviorTest.java:110-114 | While open, returns a snapshot whose `getHistoryId().getClientId()` is `GetIdentifier()` and whose identifier is new. Once stopped, fails with the stop reason |
| `ClientBehavior.DataStoreClientBehavior.GetConnection` | opendaylight/md-sal/sal-distributed-datastore/src/test/java/org/opendaylight/controller/cluster/databroker/actors/dds/AbstractDataStoreClientBehaviorTest.java:135-159 | Returns the cached connection for a known shard and changes nothing. Otherwise caches a fresh connection whose local actor is the client actor, and sends its `ConnectClientRequest` (target: the client id, sequence 0) once |
| `ClientBehavior.DataStoreClientBehavior.Close` | opendaylight/md-sal/sal-distributed-datastore/src/test/java/org/opendaylight/controller/cluster/databroker/actors/dds/AbstractDataStoreClientBehaviorTest.java:116-120 | Schedules an internal shutdown command on the client actor and changes nothing else |
| `ClientBehavior.DataStoreClientBehavior.RunInternalCommand` | opendaylight/md-sal/sal-distributed-datastore/src/test/java/org/opendaylight/controller/cluster/databroker/actors/dds/AbstractDataStoreClientBehaviorTest.java:119-128 | Running the scheduled shutdown stops the client with an `IllegalStateException` and drops its open histories |
| `ClientBehavior.DataStoreClientBehavior.HaltClient` | opendaylight/md-sal/sal-distributed-datastore/src/test/java/org/opendaylight/controller/cluster/databroker/actors/dds/AbstractDataStoreClientBehaviorTest.java:77-80 | The test only calls `haltClient` with a cause and expects a normal return. The model's assumed effect is that the client stops with that cause and drops its open histories; `Valid()` is kept |
| `ClientBehavior.CloseScenario` | opendaylight/md-sal/sal-distributed-datastore/src/test/java/org/opendaylight/controller/cluster/databroker/actors/dds/AbstractDataStoreClientBehaviorTest.java:116-128 | After `Close` and the scheduled command, `CreateLocalHistory` and `CreateTransaction` fail with an `IllegalStateException` |
| `ClientBehavior.ConnectionScenario` | opendaylight/md-sal/sal-distributed-datastore/src/test/java/org/opendaylight/controller/cluster/databroker/actors/dds/AbstractDataStoreClientBehaviorTest.java:145-156 | Two `GetConnection` calls for the root path's shard return the same object, and exactly one handshake to the client id with sequence 0 is sent |
| `Persisted.NewDataOutput` | opendaylight/md-sal/sal-distributed-datastore/src/main/java/org/opendaylight/controller/cluster/datastore/persisted/CloseLocalHistoryPayload.java:34 | A fresh, empty output; a negative initial size fails with an `IllegalArgumentException` |
| `Persisted.Create` | opendaylight/md-sal/sal-distributed-datastore/src/main/java/org/opendaylight/controller/cluster/datastore/persisted/CloseLocalHistoryPayload.java:32-43 | On success the payload holds the given identifier and exactly the bytes `writeTo` emits, whatever the initial capacity. Those bytes equal a fresh encoding of the identifier. An `IOException` from `writeTo` becomes an `IllegalStateException` wrapping it, and no payload is produced |
| `Persisted.ExternalizableProxyWraps` | opendaylight/md-sal/sal-distributed-datastore/src/main/java/org/opendaylight/controller/cluster/datastore/persisted/CloseLocalHistoryPayload.java:45-48 | The externalizable proxy wraps exactly the given bytes |
| `Commands.MTS.constructor` | opendaylight/md-sal/cds-access-api/src/main/java/org/opendaylight/controller/cluster/access/commands/MTS.java:27-30 | A proxy built with no argument holds no message, and `Message()` fails on it |
| `Commands.MTS.WithMessage` | opendaylight/md-sal/cds-access-api/src/main/java/org/opendaylight/controller/cluster/access/commands/MTS.java:32-34 | A proxy built with a message returns that message from `Message()` |
| `Commands.MTS.Message` | opendaylight/md-sal/cds-access-api/src/main/java/org/opendaylight/controller/cluster/access/commands/MTS.java:36-39 | Returns the stored message, and fails with a `VerifyException` exactly when none is stored |
| `Commands.MTS.SetMessage` | opendaylight/md-sal/cds-access-api/src/main/java/org/opendaylight/controller/cluster/access/commands/MTS.java:41-44 | Replaces the stored message; afterwards `Message()` returns the new one |
| `Commands.MTS.ReadExternal` | opendaylight/md-sal/cds-access-api/src/main/java/org/opendaylight/controller/cluster/access/commands/MTS.java:46-50 | Builds a `ModifyTransactionSuccess` with exactly the given target and sequence |
| `Commands.ReadExternalIgnoresInput` | opendaylight/md-sal/cds-access-api/src/main/java/org/opendaylight/controller/cluster/access/commands/MTS.java:46-50 | The message read does not depend on the input stream: nothing is read from it |
| `Commands.MTS.ReadResolve` | opendaylight/md-sal/cds-access-api/src/main/java/org/opendaylight/controller/cluster/access/commands/MTS.java:52-55 | Resolves to the same result as `Message()`, so it fails exactly when no message is set |
| `Commands.Deserialize` | opendaylight/md-sal/cds-access-api/src/main/java/org/opendaylight/controller/cluster/access/commands/MTS.java:27-55 | Empty construction, then `readExternal`, `setMessage` and `readResolve`, always yields the message with the decoded target and sequence |
| `Commands.TransactionPreCommitSuccess.CloneAsVersion` | opendaylight/md-sal/cds-access-api/src/main/java/org/opendaylight/controller/cluster/access/commands/TransactionPreCommitSuccess.java:33-36 | The clone for any ABI version is the message itself |
| `Commands.CloneAsVersionIdempotent` | opendaylight/md-sal/cds-access-api/src/main/java/org/opendaylight/controller/cluster/access/commands/TransactionPreCommitSuccess.java:23-36 | Cloning twice, to any versions, gives the original, with the target and sequence given to the constructor |
| `Commands.ExternalizableProxyRoundTrip` | opendaylight/md-sal/cds-access-api/src/main/java/org/opendaylight/controller/cluster/access/commands/TransactionPreCommitSuccess.java:27-31 | Every version gets an equal V1 proxy, which wraps this message and resolves back to it |

## Left out

- Actor runtime, message delivery, test probes and futures: sending is appending to `outbox`, scheduling on the client actor is appending to `mailbox`, and a completed future is a returned value.
- Backend resolution, the reply to `ConnectClientRequest` and the replay of queued requests on a new connection: asynchronous and not part of this model.
- ClientBehavior.DataStoreClientBehavior.HaltClient: its effect is an assumption of this model, not shown in the source this model covers: the implementation is not part of the model and the test only calls it. The model stops the client with the given cause, as an abort does.
- The reply address of the `ConnectClientRequest` handshake is the model's choice: `Valid()`, `GetConnection` and `ConnectionScenario` fix it to the client actor, while the test checks only the target and the sequence.
- The shard strategy and the allocation of shard cookies: the resolver is a parameter whose root-path value is the default shard's cookie 0.
- The lifecycle of client histories, transactions and snapshots beyond their identifiers: they are handles; stopping the client drops the open histories.
- `CreateTransaction` and `CreateSnapshot` after a stop: the tests pin the failure only for `createLocalHistory`; the model makes all three fail, since closing is meant to stop every creation.
- The three-phase-commit cohort and `initiateCoordinatedCommit`: `ReadyTransaction` returns what is handed to `onTransactionReady`, not the cohort's future.
- The `havePermit` argument of the execute operations, always null in the tests: the operation-limiter permits are not modelled.
- LocalTransaction.LocalTransactionContext.ExecuteModification: refusing every modification after a capture is this model's reading. The tests confirm it only for a repeated identical modification, and neither confirm nor refute it for a different one.
- LocalTransaction.LocalTransactionContext.ExecuteRead: a failed read completes with the delegate's own exception; its mapping into a `ReadFailedException` is not modelled.
- The delegate's data-tree semantics: paths and nodes are opaque, and how each delegate operation turns out is a parameter.
- `externalizableProxySize`: its constant is computed by Java serialization of an empty `CH` proxy, which is foreign to this model.
- `LocalHistoryIdentifier.writeTo`, the `DH`/`CH` proxies' own encoding, Java `Externalizable`/`Serializable` and `serialVersionUID`: the encoder is a parameter and proxies are plain wrappers.
- The ABI version constants and their negotiation: a version is an opaque ordinal here.
- Scala `FiniteDuration`'s range limit, beyond which `$times` throws, its negative durations (the setter accepts any duration, the model only non-negative ones), and time units other than milliseconds.
- Java `long` wrap-around of the history and transaction counters: identifiers and counters are unbounded naturals.
- `null` arguments: excluded by typing, so the `NullPointerException` of `requireNonNull` and Java's printing of a null key or value as `null` are not modelled.
- Exception messages are abbreviated and do not embed an identifier's string form.
- Logging.
