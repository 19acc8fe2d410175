# siddhi-io-ethereum, modelled in Dafny

The `ethereum` source of Siddhi reads events from an Ethereum node and hands
them to a Siddhi stream as key-value records. This project models its core
and proves properties of the model:

- **Records** (`records.dfy`). The three mappers turn a block, a confirmed or
  replayed transaction, or a pending transaction into a flat record. Numeric
  fields are narrowed with `BigInteger.intValue()`. That narrowing, the low 32
  bits read as two's complement, is modelled in `int32.dfy`.
- **Filter** (`filter.dfy`). `createFilter` picks one of four feeds by filter
  name. Each feed item becomes a record and passes the pause gate. Then comes
  the `isEmpty` guard and `onEvent(record, null)`. This module also has
  `closeSubscription`.
- **Gate** (`gate.dfy`). `pause`, `resume` and `listen` form a sequential
  state machine. A record that reaches a paused gate is held. `resume`
  releases every held record; the model releases them in arrival order.
- **Source** (`source.dfy`). This is the `EthereumSource` class:
  - `init` reads and validates the options;
  - `connect` and `disconnect` build and tear down the handles (subscription,
    web3j client, web-socket service, scheduler);
  - `pause` and `resume` delegate to the filter;
  - `currentState` and `restoreState` are also covered.
- **Decimal** (`decimal.dfy`). `Long.parseLong` as the polling-interval check
  uses it. `ParseLong` is a reference reading. `ParseLongScan` is the
  library's scan, which accumulates negatively and rejects overflow before it
  happens. The scan is proved equal to the reference reading.
- **EthereumConstants** (`constants.dfy`). Option keys, defaults, filter names
  and record keys, with their exact values.
- **Wrappers** (`wrappers.dfy`). `Option` and `Result`.

Record values are `Text`, `Int` or `Null`. A string field the node left out is
stored as a Java `null`, and the model keeps it as `Null`.

Facts about the code that the model keeps:

- The polling-interval default is the string `"3600"`
  (EthereumConstants.java line 31).
- The interval check is format-only. Zero and negative values are accepted.
- Mappers put `null` values for absent string fields.
- The `isEmpty` guard tests the map, not its values. Every mapper puts at
  least 7 keys, so the guard never suppresses a record.
- `connect` never closes the socket it opened. Its `finally` block only clears
  the field. That leaves the socket branch of `disconnect` unreachable
  (`Source.CloseSocketUnreachable`).

## Model

| member | source | states |
|---|---|---|
| EthereumConstants.FilterNamesDistinct | component/src/main/java/org/wso2/extension/siddhi/io/ethereum/util/EthereumConstants.java:35-38 | The four filter names are pairwise different. |
| EthereumConstants.OptionKeysDistinct | component/src/main/java/org/wso2/extension/siddhi/io/ethereum/util/EthereumConstants.java:26-30 | The five option keys are pairwise different. |
| EthereumConstants.OptionDefaults | component/src/main/java/org/wso2/extension/siddhi/io/ethereum/util/EthereumConstants.java:31-33 | The defaults are from.block "earliest", to.block "latest" and polling.interval "3600". |
| EthereumConstants.TransactionKeysDistinct | component/src/main/java/org/wso2/extension/siddhi/io/ethereum/util/EthereumConstants.java:40-51 | The 11 transaction record keys are pairwise different. |
| EthereumConstants.BlockKeysDistinct | component/src/main/java/org/wso2/extension/siddhi/io/ethereum/util/EthereumConstants.java:50-65 | The 16 block record keys are pairwise different. |
| EthereumConstants.SharedKeys | component/src/main/java/org/wso2/extension/siddhi/io/ethereum/util/EthereumConstants.java:44-63 | The transaction nonce and the block nonce share the key "nonce". The receipts-root key is spelled "receiptRoot". |
| Int32.IntValue | component/src/main/java/org/wso2/extension/siddhi/io/ethereum/util/EthereumUtil.java:52-59 | `intValue()` gives a Java int with the same low 32 bits as the wire value. A value already in int range is unchanged. |
| Int32.IntValueUnique | component/src/main/java/org/wso2/extension/siddhi/io/ethereum/util/EthereumUtil.java:52-59 | Only one int shares a value's low 32 bits, so the narrowing is fully determined by that property. |
| Int32.IntValuePeriodic | component/src/main/java/org/wso2/extension/siddhi/io/ethereum/util/EthereumUtil.java:81-89 | Wire values that differ by a multiple of 2^32 narrow to the same int, so large values silently wrap. |
| Records.FromEntriesDistinct | component/src/main/java/org/wso2/extension/siddhi/io/ethereum/util/EthereumUtil.java:49-61 | When a run of `put` calls uses pairwise different keys, every put survives and the map has one entry per put. |
| Records.TransactionRecord | component/src/main/java/org/wso2/extension/siddhi/io/ethereum/util/EthereumUtil.java:48-62 | The record has exactly the 11 transaction keys. The six numeric fields are the int narrowing of the wire values. The five string fields are carried over, or are `null` when absent. |
| Records.PendingRecord | component/src/main/java/org/wso2/extension/siddhi/io/ethereum/util/EthereumUtil.java:65-75 | The record has exactly 7 keys and never blockHash, blockNumber, nonce or transactionIndex. Its numeric fields are narrowed and its string fields are carried over. |
| Records.BlockRecord | component/src/main/java/org/wso2/extension/siddhi/io/ethereum/util/EthereumUtil.java:78-97 | The record has exactly the 16 block keys. Its seven numeric fields (number, difficulty, totalDifficulty, gasLimit, gasUsed, nonce, size) are narrowed and its nine string fields are carried over. |
| Records.PendingKeysStrictSubset | component/src/main/java/org/wso2/extension/siddhi/io/ethereum/util/EthereumUtil.java:48-75 | The pending keys are a strict subset of the transaction keys. What is missing is exactly the four block-placement keys. |
| Records.PendingAgreesWithTransaction | component/src/main/java/org/wso2/extension/siddhi/io/ethereum/util/EthereumUtil.java:48-75 | For the same transaction, the pending record is a sub-map of the transaction record. The two agree on every shared key. |
| Records.PendingIgnoresPlacement | component/src/main/java/org/wso2/extension/siddhi/io/ethereum/util/EthereumUtil.java:65-75 | The pending record does not depend on the transaction's block hash, block number, nonce or index. |
| Records.RecordKindsOverlap | component/src/main/java/org/wso2/extension/siddhi/io/ethereum/util/EthereumUtil.java:48-97 | Block and transaction records share exactly blockHash, blockNumber and nonce. Block and pending records share no key. |
| Gate.Fresh | component/src/main/java/org/wso2/extension/siddhi/io/ethereum/util/EthereumUtil.java:40-45 | A new util's gate is open and holds nothing. |
| Gate.Pause | component/src/main/java/org/wso2/extension/siddhi/io/ethereum/util/EthereumUtil.java:176-178 | `pause` sets the flag and keeps whatever is held. |
| Gate.Resume | component/src/main/java/org/wso2/extension/siddhi/io/ethereum/util/EthereumUtil.java:181-189 | `resume` opens the gate and releases exactly the records that were held. |
| Gate.Listen | component/src/main/java/org/wso2/extension/siddhi/io/ethereum/util/EthereumUtil.java:160-173 | `listen` never changes the flag and loses no record: what passes plus what is held is the old held queue plus the new record. An open gate passes exactly the new record and is unchanged; a paused gate passes nothing and appends the record to its queue. |
| Gate.ListenPassesIffOpen | component/src/main/java/org/wso2/extension/siddhi/io/ethereum/util/EthereumUtil.java:160-173 | A record passes immediately if and only if the gate is open. Otherwise nothing passes. |
| Gate.PauseIdempotent | component/src/main/java/org/wso2/extension/siddhi/io/ethereum/util/EthereumUtil.java:176-178 | Pausing twice is pausing once. |
| Gate.ResumeIdempotent | component/src/main/java/org/wso2/extension/siddhi/io/ethereum/util/EthereumUtil.java:181-189 | Resuming twice is resuming once. The second resume releases nothing. |
| Gate.PauseThenResume | component/src/main/java/org/wso2/extension/siddhi/io/ethereum/util/EthereumUtil.java:176-189 | A pause followed by a resume returns the gate to its fresh state and releases what was held. |
| Gate.RunValid | component/src/main/java/org/wso2/extension/siddhi/io/ethereum/util/EthereumUtil.java:160-189 | Across any sequence of pauses, resumes and arrivals, only a paused gate holds records. |
| Gate.RunConserves | component/src/main/java/org/wso2/extension/siddhi/io/ethereum/util/EthereumUtil.java:160-189 | Across any sequence, what passed plus what is still held equals what was held plus every arrival, in order. Nothing is dropped or reordered. |
| Gate.RunAppend | component/src/main/java/org/wso2/extension/siddhi/io/ethereum/util/EthereumUtil.java:160-189 | Running two sequences one after the other is the same as running their concatenation. |
| Gate.ResumeReleasesEverything | component/src/main/java/org/wso2/extension/siddhi/io/ethereum/util/EthereumUtil.java:160-189 | After a final resume the gate is fresh. Everything held or arrived has passed, in arrival order. |
| Gate.NeverPausedPassesAll | component/src/main/java/org/wso2/extension/siddhi/io/ethereum/util/EthereumUtil.java:160-173 | An open gate that is never paused passes every arrival straight on. |
| Filter.FeedName | component/src/main/java/org/wso2/extension/siddhi/io/ethereum/util/EthereumUtil.java:102-147 | Every feed is reached through one of the four filter names. |
| Filter.SelectFeed | component/src/main/java/org/wso2/extension/siddhi/io/ethereum/util/EthereumUtil.java:102-149 | The switch selects a feed if and only if the name is one of the four, and the feed's name is the given name. A replay takes the configured block range unchanged. |
| Filter.SelectFeedName | component/src/main/java/org/wso2/extension/siddhi/io/ethereum/util/EthereumUtil.java:102-147 | Selecting by a feed's own name gives back that feed, so the switch and the naming are inverse. |
| Filter.SelectFeedRejectsTypo | component/src/main/java/org/wso2/extension/siddhi/io/ethereum/util/EthereumUtil.java:148 | The misspelt name "replyTransaction" selects no feed. |
| Filter.FeedRecord | component/src/main/java/org/wso2/extension/siddhi/io/ethereum/util/EthereumUtil.java:105-146 | Each feed uses its own mapper on its own item: a block feed maps the i-th block with the block mapper, new and replayed transactions (replay reading the history between its two blocks) use the transaction mapper, and pending transactions the pending mapper. The record has the feed's key set and is never empty. |
| Filter.FeedRecords | component/src/main/java/org/wso2/extension/siddhi/io/ethereum/util/EthereumUtil.java:105-146 | A feed gives one record per item, in feed order; the i-th record is that feed's mapping of the i-th item and has the feed's key set. |
| Filter.Guard | component/src/main/java/org/wso2/extension/siddhi/io/ethereum/util/EthereumUtil.java:109-111 | A record produces one `onEvent` call if and only if it is non-empty, and that call is `onEvent(record, null)`. |
| Filter.GuardAllNonEmpty | component/src/main/java/org/wso2/extension/siddhi/io/ethereum/util/EthereumUtil.java:105-146 | For non-empty records, exactly one `onEvent(record, null)` per record, in order. |
| Filter.NewUtil | component/src/main/java/org/wso2/extension/siddhi/io/ethereum/util/EthereumUtil.java:39-45 | A new util has no subscription and an open gate. |
| Filter.CreateFilter | component/src/main/java/org/wso2/extension/siddhi/io/ethereum/util/EthereumUtil.java:100-150 | A valid name subscribes, live, to the selected feed. Any other name leaves the subscription as it was. The gate is untouched. |
| Filter.CloseSubscription | component/src/main/java/org/wso2/extension/siddhi/io/ethereum/util/EthereumUtil.java:153-157 | `unsubscribe` is called if and only if there is a subscription. That subscription is no longer live afterwards. |
| Filter.CloseSubscriptionIdempotent | component/src/main/java/org/wso2/extension/siddhi/io/ethereum/util/EthereumUtil.java:153-157 | Closing twice leaves the same util as closing once. |
| Filter.Callback | component/src/main/java/org/wso2/extension/siddhi/io/ethereum/util/EthereumUtil.java:105-146 | A util without a live subscription receives nothing. With an open gate the record goes straight to the guarded `onEvent` and the util is unchanged. With a paused gate nothing is emitted and the record joins the end of the held queue. The gate stays consistent and the subscription is untouched. |
| Filter.Pause | component/src/main/java/org/wso2/extension/siddhi/io/ethereum/util/EthereumUtil.java:176-178 | Pausing the util pauses its gate and keeps the held records. |
| Filter.Resume | component/src/main/java/org/wso2/extension/siddhi/io/ethereum/util/EthereumUtil.java:181-189 | Resuming the util opens its gate. Each held callback then makes its guarded `onEvent`. |
| Filter.Deliver | component/src/main/java/org/wso2/extension/siddhi/io/ethereum/util/EthereumUtil.java:105-146 | With an open gate, each feed item yields exactly one `onEvent(record, null)`, in feed order. With a paused gate, every record is appended to the held queue and none is emitted. |
| Filter.HeldRecordsReleased | component/src/main/java/org/wso2/extension/siddhi/io/ethereum/util/EthereumUtil.java:160-189 | Every record held while paused is emitted, once and in order, by the next resume. |
| Decimal.ParseLong | component/src/main/java/org/wso2/extension/siddhi/io/ethereum/source/EthereumSource.java:158-166 | The interval text is accepted if and only if it is an optional sign followed by digits whose value fits a long. The result is that value. |
| Decimal.ParseLongScan | component/src/main/java/org/wso2/extension/siddhi/io/ethereum/source/EthereumSource.java:160-161 | The library's negative-accumulating scan with early overflow checks gives exactly the reference result on every string. |
| Decimal.ParseShow | component/src/main/java/org/wso2/extension/siddhi/io/ethereum/source/EthereumSource.java:158-166 | Every long, printed in decimal, parses back to itself. |
| Decimal.ParseLongExamples | component/src/main/java/org/wso2/extension/siddhi/io/ethereum/source/EthereumSource.java:158-166 | "3600", "0", "-60000" and "+7" are accepted. "", "-" and "1.5" are not. |
| Decimal.ParseLongRange | component/src/main/java/org/wso2/extension/siddhi/io/ethereum/source/EthereumSource.java:158-166 | One past either end of the long range is rejected. |
| Source.OptionOr | component/src/main/java/org/wso2/extension/siddhi/io/ethereum/source/EthereumSource.java:148-151 | An option that is given is used, and an absent one takes its default. |
| Source.ValidateFilterOption | component/src/main/java/org/wso2/extension/siddhi/io/ethereum/source/EthereumSource.java:169-178 | The check accepts exactly the four filter names. Any other name is a validation error carrying that name. |
| Source.ValidatePollingInterval | component/src/main/java/org/wso2/extension/siddhi/io/ethereum/source/EthereumSource.java:158-166 | The check succeeds if and only if the option, defaulting to "3600", parses as a long. Failure carries the offending text. |
| Source.Init | component/src/main/java/org/wso2/extension/siddhi/io/ethereum/source/EthereumSource.java:140-178 | A missing uri is reported before a missing filter, an unparsable interval (default `"3600"`) before a bad filter name, and each failure names the missing key or the offending text. Init succeeds if and only if both options are present, the interval parses and the filter name is valid. The config keeps the given values or the defaults, and its interval is the parsed value. |
| Source.InitDefaults | component/src/main/java/org/wso2/extension/siddhi/io/ethereum/source/EthereumSource.java:148-152 | With only uri and filter given, the range is earliest..latest and the interval is 3600. |
| Source.InitRejectsTypo | component/src/test/java/org/wso2/extension/siddhi/io/ethereum/source/TestCaseOfEthereumSource.java:210-228 | The filter name "replyTransaction" fails `init` with a validation error. |
| Source.Initial | component/src/main/java/org/wso2/extension/siddhi/io/ethereum/source/EthereumSource.java:133-137 | After `init` there is no filter, no client and no socket, and the scheduler is running. |
| Source.Connect | component/src/main/java/org/wso2/extension/siddhi/io/ethereum/source/EthereumSource.java:186-202 | The socket field is empty afterwards whether or not `connect` succeeds. A failure is connection-unavailable, and filter and client are left as they were. A success builds a running client with the polling interval, and a fresh open-gated util on which `createFilter` ran with the configured name and blocks; for a valid name it holds a live subscription to the feed that name selects. |
| Source.ConnectSubscribes | component/src/main/java/org/wso2/extension/siddhi/io/ethereum/source/EthereumSource.java:200-201 | For a config `init` accepted, a successful `connect` leaves a live subscription to the feed the filter name selects. |
| Source.CloseFilter | component/src/main/java/org/wso2/extension/siddhi/io/ethereum/source/EthereumSource.java:206-208 | Unsubscribe happens if and only if there is a filter with a subscription. The filter is the same util with only its subscription closed: no longer live, with the gate, its paused flag and its held records untouched. |
| Source.StopClient | component/src/main/java/org/wso2/extension/siddhi/io/ethereum/source/EthereumSource.java:209-211 | A present client is shut down and the field keeps that same client, now stopped. An absent one is skipped and stays absent. |
| Source.CloseSocketHandle | component/src/main/java/org/wso2/extension/siddhi/io/ethereum/source/EthereumSource.java:212-214 | A present socket is closed and the field keeps that same socket, now closed. An absent one is skipped and stays absent. |
| Source.Disconnect | component/src/main/java/org/wso2/extension/siddhi/io/ethereum/source/EthereumSource.java:205-216 | The actions come in order unsubscribe, client shutdown, socket close, scheduler shutdown. Each of the first three happens if and only if its handle is present, and the scheduler is always shut down last. No handle is cleared: the filter is the closed filter with its gate unchanged, the client is the same client stopped, the socket the same socket closed. |
| Source.DisconnectTwice | component/src/main/java/org/wso2/extension/siddhi/io/ethereum/source/EthereumSource.java:205-216 | A second `disconnect` repeats the same calls and leaves the same state. |
| Source.DisconnectKeepsHeld | component/src/main/java/org/wso2/extension/siddhi/io/ethereum/source/EthereumSource.java:205-216 | `disconnect` leaves the filter's gate as it was: a paused gate stays paused, and a later `resume` still succeeds and emits every record held before the disconnect. |
| Source.Pause | component/src/main/java/org/wso2/extension/siddhi/io/ethereum/source/EthereumSource.java:223-225 | With no filter the call faults and changes nothing. Otherwise the filter's gate is paused. |
| Source.Resume | component/src/main/java/org/wso2/extension/siddhi/io/ethereum/source/EthereumSource.java:228-230 | With no filter the call faults and changes nothing. Otherwise only the filter changes: it becomes the filter's own resume, the gate opens empty, and the held records are emitted in order. |
| Source.CurrentState | component/src/main/java/org/wso2/extension/siddhi/io/ethereum/source/EthereumSource.java:233-235 | There is never a snapshot. |
| Source.RestoreState | component/src/main/java/org/wso2/extension/siddhi/io/ethereum/source/EthereumSource.java:238-239 | Restoring changes nothing. |
| Source.SocketNeverHeld | component/src/main/java/org/wso2/extension/siddhi/io/ethereum/source/EthereumSource.java:186-214 | From a state without a socket, no sequence of calls and records ever stores one, and no `disconnect` closes one. |
| Source.CloseSocketUnreachable | component/src/main/java/org/wso2/extension/siddhi/io/ethereum/source/EthereumSource.java:186-214 | Whatever follows `init`, the socket-closing branch of `disconnect` is never taken. |
| Source.RunKeepsGatesValid | component/src/main/java/org/wso2/extension/siddhi/io/ethereum/source/EthereumSource.java:186-230 | Across any sequence of calls and records, the source's filter gate holds records only while paused. |

## Left out

- Web3j, WebSocketService and RxJava calls (`blockObservable`, `transactionObservable`, `pendingTransactionObservable`, `replayTransactionsObservable`, `subscribe`, `unsubscribe`, `Web3j.build`, `shutdown`, `close`) are foreign network code. Feeds are finite snapshots (`Filter.Node`), and the handles are opaque values with a live or running flag.
- `DefaultBlockParameter.valueOf` is library parsing of block designators. The from- and to-block strings pass through unchanged.
- The real blocking in `listen` (lock, condition, `await`, `signalAll`, interruption) is concurrency. The gate is a sequential flag and a queue of held records.
- Release order after `resume`: the gate releases held records in arrival order, an order that belongs to the sequential model. In the code, `condition.signalAll()` (EthereumUtil.java line 185) wakes the blocked callback threads in no fixed order, so the real emission order after a resume is not promised.
- The static `filterMap` field is shared across instances and threads. The model uses a per-call record instead, so the race on it is not modelled.
- Numeric wire fields are assumed present. If a node response lacks one, `intValue()` on the null field throws a `NullPointerException` inside the callback; the model has no such path.
- The polling-interval error: `BadPollingInterval` carries the option text, which the Java exception message does not include; the message names only the stream and the app.
- Annotation metadata, logging, `getOutputEventClasses` and `destroy` (an empty method) carry no behaviour to model.
- Siddhi's OptionHolder is reduced to a map from key to text. Dynamic (templated) option values are not modelled.
- The scheduled executor service is reduced to a running flag.
- Decimal.ParseLong: accepts only ASCII digits. `Character.digit` in the library also accepts other Unicode decimal digits.
- Source.Connect: the util it replaces is dropped without unsubscribing, as in the code. The model does not track the dropped util or records still held in its gate.
