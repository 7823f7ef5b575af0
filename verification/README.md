# Authority claimer pipeline and node configuration, in Dafny

This project models the claim pipeline of the Cartesi rollups node's
authority claimer. It also models the Go loader of the node's configuration.

- **Claimer step** (`claimer.dfy`). `AbstractClaimer::send_rollups_claim`
  asks the injected duplicate checker about the claim. On "duplicated" it
  returns the claimer unchanged. Otherwise it calls the transaction sender
  once and keeps the sender that call returns. Each collaborator's failure
  is wrapped in its own `ClaimerError` variant. The checker and the sender
  are oracles, and the step records every call it makes on them, so "no
  send" and "exactly one send, of this claim" are stated on the record.
- **Broker listener** (`events.dfy`, `listener.dfy`). The listener owns a
  cursor, `last_claim_id`, that starts at `INITIAL_ID`. Its `start` loop
  reads the first event after the cursor and hands the claim to the
  claimer. It stops with `BrokerError` or `ClaimerError` on the first
  failure, and moves the cursor to the event's id only after the claimer
  succeeded.
  - `DefaultBrokerListener` is a class whose `Start` method runs that loop
    and updates the cursor field in place.
  - `Listen` is the function that specifies it.
  - The broker is a shared `Broker` object: a stream of events with
    increasing ids, plus the cursors on which a read fails.
  - The real loop never ends. Here, a read that finds no event after the
    cursor ends the run with `Blocking` ("still waiting").
- **Scripted mock claimer and listener scenarios** (`mock.dfy`,
  `listener_tests.dfy`). The mock holds a script of results consumed from
  the back: `n` successes, then `EndError` or `MockError`. The same files
  hold the result checks, the helpers that publish claims for consecutive
  epochs, and the four listener scenarios, each proved for all runs.
- **Configuration** (`strconv.dfy`, `config.dfy`). Each field is read in
  declaration order from `CARTESI_<env tag>`, or else from its `default`
  tag. It is then converted by kind: `int` through `strconv.Atoi`,
  `string` unchanged, anything else an error. The first error stops
  loading.
  - The environment is a map.
  - `Atoi` follows Go's documented behaviour for a 64-bit `int`, and has
    `Itoa` as its inverse.

## Model

| member | source | states |
|---|---|---|
| `Claimer.New` | offchain/authority-claimer/src/claimer.rs:42-47 | the new claimer holds exactly the checker and sender it was given |
| `Claimer.Process` | offchain/authority-claimer/src/claimer.rs:58-80 | the duplicate check is the first call and is made once, for this claim, on the claimer's checker; a transaction for this claim is sent exactly once when the checker answers "not duplicated", otherwise never, and always through the claimer's current sender; a check error becomes `DuplicatedClaimError` with its cause; a duplicate returns the claimer unchanged; a novel claim returns the claimer with the sender the send returned, or `TransactionSenderError` with the send's cause; the checker is never replaced |
| `Claimer.SendRollupsClaim` | offchain/authority-claimer/src/claimer.rs:15-22 | the claimer seen through the `Claimer` trait, outcome only: the checker is kept; a duplicate returns the claimer unchanged; a check error becomes `DuplicatedClaimError`; a novel claim gives the claimer with the returned sender, or `TransactionSenderError` |
| `Claimer.ProcessAll` | offchain/authority-claimer/src/claimer.rs:58-80 | claims handed one after another, each to the claimer the previous step returned, stopping at the first error: no step replaces the checker, and an error comes only after at least one call |
| `Claimer.SentAppend` | offchain/authority-claimer/src/claimer.rs:62-77 | the sends and the checks recorded for two call sequences in a row are those of the first followed by those of the second |
| `Claimer.ReplaySubmitsOnlyNovelClaims` | offchain/authority-claimer/src/claimer.rs:62-79 | steps over a sequence of claims that all succeed check every claim once, in order, and send exactly the claims the checker reports as not duplicated, in order; the checker is unchanged |
| `Claimer.NovelWhenNoneDuplicated` | offchain/authority-claimer/src/claimer.rs:67-77 | when the checker reports none of the claims as duplicated, every claim is novel |
| `Claimer.FirstDuplicateIsSkipped` | offchain/authority-claimer/src/claimer.rs:67-70 | in a batch whose first claim is a duplicate and whose other claims are novel, a successful run sends all claims but the first, in order |
| `Events.ConsumeBlocking` | offchain/authority-claimer/src/listener.rs:73-77 | a read from a cursor fails exactly on the cursors the broker fails on, and an event it returns is one published on the stream; which event that is, is stated by `Events.FirstAfterSpec` and `Events.ConsumeBlockingSpec` |
| `Events.FirstAfterSpec` | offchain/authority-claimer/src/listener.rs:73-77 | the position a read starts from is the first event whose id lies after the cursor, or the end of the stream |
| `Events.ConsumeBlockingSpec` | offchain/authority-claimer/src/listener.rs:73-77 | a read from a cursor fails exactly on the cursors the broker fails on, with that error; an event it returns is in the stream with an id after the cursor; it waits only when no event lies after the cursor |
| `Events.PendingShrinks` | offchain/authority-claimer/src/listener.rs:87 | moving the cursor to the id of an event after it leaves strictly fewer events to read |
| `Events.PendingMonotone` | offchain/authority-claimer/src/listener.rs:87 | a later cursor never has more events left to read |
| `Events.IdsIncrease` | offchain/authority-claimer/src/listener.rs:72-77 | on a stream as the broker builds it, ids strictly increase along the whole stream |
| `Events.ConsumeInOrder` | offchain/authority-claimer/src/listener.rs:72-77 | reading with the cursor of the first `k` events returns event `k`, or waits when there is none: events come one at a time, in stream order, without gaps |
| `Events.ConsumeExtended` | offchain/authority-claimer/src/listener.rs:73-77 | a read that found an event finds the same one after more events are published behind it |
| `Events.FirstAfterExtended` | offchain/authority-claimer/src/listener.rs:73-77 | publishing more events behind the first event after the cursor does not move it |
| `Events.Broker.constructor` | offchain/authority-claimer/src/mock.rs:88-116 | a fresh broker holds an empty stream and the given failing cursors |
| `Events.Broker.Produce` | offchain/authority-claimer/src/mock.rs:127 | publishing appends exactly one event carrying the claim, with an id above every id already published, and keeps the stream well formed |
| `Listener.DefaultBrokerListener.constructor` | offchain/authority-claimer/src/listener.rs:53-58 | a new listener's cursor is `INITIAL_ID` |
| `Listener.Listen` | offchain/authority-claimer/src/listener.rs:69-89 | the loop of `start` as a function of the stream, the cursor and the claimer: every way out of it is an error; its order, cursor and threading properties are the lemmas below |
| `Listener.PayloadsLength` | offchain/authority-claimer/src/listener.rs:79-82 | one claim per event |
| `Listener.Feed` | offchain/authority-claimer/src/listener.rs:81-84 | claims handed one after another, each to the claimer the previous call returned, stopping at the first error: feeding nothing leaves the claimer as it is, and feeding one claim is exactly one claimer call |
| `Listener.FeedAppend` | offchain/authority-claimer/src/listener.rs:71-88 | feeding two batches in a row is feeding them as one: the second starts from the claimer the first returned, and an error in the first stops before the second |
| `Listener.DefaultBrokerListener.Start` | offchain/authority-claimer/src/listener.rs:69-89 | the loop performs exactly the run `Listen` describes from the current cursor, and leaves the cursor field where that run ends |
| `Listener.StartNeverReturnsOk` | offchain/authority-claimer/src/listener.rs:69-89 | `start` never returns `Ok(())`; it reports a rejected event exactly when it returns a claimer error |
| `Listener.ListenDelivered` | offchain/authority-claimer/src/listener.rs:79-87 | after an event the claimer accepts, the loop goes on from that event's id with the claimer the call returned |
| `Listener.ListenStepFailed` | offchain/authority-claimer/src/listener.rs:73-77 | a failing read ends the loop with `BrokerError` wrapping the broker's error; no claimer call is made and the cursor stays |
| `Listener.ListenStepBlocked` | offchain/authority-claimer/src/listener.rs:72-77 | once every event of a well-formed stream is processed, the loop waits on the last event's id |
| `Listener.ListenStepRejected` | offchain/authority-claimer/src/listener.rs:81-84 | a claimer failure on event `k` ends the loop with `ClaimerError` wrapping the claimer's error; the cursor stays before event `k` and nothing after it is read |
| `Listener.ListenStepOk` | offchain/authority-claimer/src/listener.rs:81-87 | a claimer success on event `k` moves the cursor to event `k`'s id and continues with the returned claimer |
| `Listener.HandedCons` | offchain/authority-claimer/src/listener.rs:71-88 | handing event `k` before a run that handed the events after it hands the events from `k` on |
| `Listener.HandedNone` | offchain/authority-claimer/src/listener.rs:73-77 | a run that handed nothing handed the empty stretch of the stream |
| `Listener.HandedOne` | offchain/authority-claimer/src/listener.rs:81-84 | a run that rejected event `k` first handed exactly event `k` |
| `Listener.ListenInOrder` | offchain/authority-claimer/src/listener.rs:71-88 | the claimer is handed the events after the cursor one at a time, in stream order, without gaps, and the event it failed on is the last one handed (fail-fast) |
| `Listener.InOrderWhenStopping` | offchain/authority-claimer/src/listener.rs:73-84 | the ordering property for an iteration that ends the run |
| `Listener.ListenCursor` | offchain/authority-claimer/src/listener.rs:81-87 | the cursor ends on the id of the last event the claimer processed successfully, or where it was if there is none; never on a failing event |
| `Listener.ListenExit` | offchain/authority-claimer/src/listener.rs:73-77 | the loop waits only when no published event lies after its cursor, and a broker error is the one the broker reports for the final cursor |
| `Listener.NothingAfterCursor` | offchain/authority-claimer/src/listener.rs:72-77 | a reader at the cursor of the first `k` events that sees nothing after it has read the whole stream |
| `Listener.ListenThreadsClaimer` | offchain/authority-claimer/src/listener.rs:81-84 | each claimer call is made on the claimer the previous call returned: the run ends with the claimer obtained by feeding it the processed claims in order, and that claimer fails on the rejected claim with the reported error |
| `Listener.ListenSummary` | offchain/authority-claimer/src/listener.rs:69-89 | every run from the cursor of the first `k` events of a well-formed stream has all of the above at once: order, cursor, threading, waiting only when all is processed, and returning only with an error |
| `Listener.WaitsAtEnd` | offchain/authority-claimer/src/listener.rs:72-77 | a run that took the events after the first `k` in order and sees none after its cursor has processed the whole stream |
| `Listener.ListenResumes` | offchain/authority-claimer/src/listener.rs:71-88 | a waiting loop resumes where it stopped: once more events are published, the run over the longer stream is the waiting run followed by a run from its cursor with its claimer |
| `Listener.ResumeStep` | offchain/authority-claimer/src/listener.rs:79-87 | the resumption property carries over a successful iteration |
| `Listener.PrependComposes` | offchain/authority-claimer/src/listener.rs:81-87 | prepending a processed event to both runs of a resumption keeps it a resumption |
| `Listener.FeedIsProcessAll` | offchain/authority-claimer/src/listener.rs:81-84 | handing claims to an abstract claimer through the listener interface gives the same final claimer or error as its steps |
| `Listener.ListenerSubmitsOnlyNovelClaims` | offchain/authority-claimer/src/claimer.rs:62-79 | the listener driving an abstract claimer checks every processed claim once, in stream order, and submits exactly those the checker reports as novel |
| `Mock.ScriptShape` | offchain/authority-claimer/src/mock.rs:33-45 | a script of `n` successes has `n + 1` results: the error at index 0, successes after it |
| `Mock.New` | offchain/authority-claimer/src/mock.rs:33-37 | `n + 1` results, `EndError` at index 0, then only successes |
| `Mock.NewWithError` | offchain/authority-claimer/src/mock.rs:41-45 | `n + 1` results, `MockError` at index 0, then only successes |
| `Mock.SendRollupsClaim` | offchain/authority-claimer/src/mock.rs:52-59 | the last scripted result is removed; a success returns the mock without it and an error returns that error; an empty script gives `InternalError` |
| `Mock.SendRollupsClaimAsWritten` | offchain/authority-claimer/src/mock.rs:56-58 | as written, only a non-empty script can be handed a claim; the result is always the last scripted one, so `InternalError` is never produced by the empty-script path |
| `Mock.EmptyScriptUnderflows` | offchain/authority-claimer/src/mock.rs:56-58 | the as-written and the intended send agree on every non-empty script; on the empty script the subtraction underflows where `InternalError` was intended |
| `Mock.SendKeepsScripted` | offchain/authority-claimer/src/mock.rs:52-59 | a mock built by `new` or `new_with_error` keeps its shape after a success, one result shorter, and never returns `InternalError` |
| `Mock.ScriptFeed` | offchain/authority-claimer/src/mock.rs:52-59 | a script of `j` successes accepts exactly its first `j` claims and fails on the next with the scripted error |
| `Mock.SendScript` | offchain/authority-claimer/src/mock.rs:52-59 | one call on a script of `j` successes succeeds leaving `j - 1`, or fails with the scripted error when `j` is 0 |
| `Mock.ScriptOutcome` | offchain/authority-claimer/src/mock.rs:52-59 | a listener run driving a script of `j` successes from the cursor of the first `k` events processes `j` events and rejects the next with the scripted error, or processes all remaining events and waits |
| `Mock.ScriptClaimer` | offchain/authority-claimer/src/mock.rs:52-59 | after a run's processed claims, the script has as many successes fewer |
| `Mock.ScriptRejected` | offchain/authority-claimer/src/mock.rs:52-59 | a run that ended on the script's error processed exactly `j` events and rejected the next |
| `Mock.ScriptWaiting` | offchain/authority-claimer/src/mock.rs:52-59 | a run with the script that ended waiting processed every remaining event |
| `Mock.ListenWithScriptRejects` | offchain/authority-claimer/src/listener.rs:123-133 | with more than `j` further events, the listener processes exactly the next `j`, rejects the one after with the scripted error, and leaves the cursor on the last processed event |
| `Mock.ListenWithScriptWaits` | offchain/authority-claimer/src/listener.rs:135-166 | with at most `j` further events, the listener processes all of them and waits on the last one's id, with that many successes used up |
| `Mock.Display` | offchain/authority-claimer/src/mock.rs:23-28 | each error variant displays as its own name: `EndError`, `InternalError`, `MockError` |
| `Mock.DisplayInjective` | offchain/authority-claimer/src/mock.rs:23-28 | two errors display alike exactly when they are the same variant |
| `Mock.AssertBrokerListenerEnded` | offchain/authority-claimer/src/mock.rs:62-73 | the check passes exactly on `Err(ClaimerError(EndError))` |
| `Mock.AssertBrokerListenerFailed` | offchain/authority-claimer/src/mock.rs:75-86 | the check passes exactly on `Err(ClaimerError(MockError))` |
| `Mock.EpochClaim` | offchain/authority-claimer/src/mock.rs:125-126 | the default claim with the given epoch index |
| `Mock.CarriesEpochsAppend` | offchain/authority-claimer/src/mock.rs:124-129 | batches of claims for consecutive epochs, published one after the other, carry consecutive epochs |
| `Mock.ProduceRollupsClaims` | offchain/authority-claimer/src/mock.rs:118-131 | publishes `n` claims for epochs `start` to `start + n - 1`, in that order, after the existing events (which it keeps), and returns them |
| `Mock.ProduceLastClaim` | offchain/authority-claimer/src/mock.rs:133-139 | publishes exactly one claim, for the given epoch |
| `ListenerTests.StartWithClaimsEnqueued` | offchain/authority-claimer/src/listener.rs:123-133 | five claims and the last one: the five are processed in epoch order 0 to 4, the last is rejected and the listener ends with `EndError` |
| `ListenerTests.StartWithNoClaimsEnqueued` | offchain/authority-claimer/src/listener.rs:135-166 | waiting on an empty stream, then on two claims, then seven claims and the last one: the listener waits twice, processes epochs 0 to 6 in order, ends with `EndError`, and returns, as `whole`, the single uninterrupted run from `INITIAL_ID` over the final stream `final` (eight well-formed events, no failing cursor), whose processed events, exit and rejected event are those of the three runs together |
| `ListenerTests.NoClaimsEnqueuedRuns` | offchain/authority-claimer/src/listener.rs:135-166 | the three runs of that scenario over the stream as it grows, and their agreement with a single run |
| `ListenerTests.NoClaimsEnqueuedEpochs` | offchain/authority-claimer/src/listener.rs:151-163 | the two batches of that scenario carry epochs 0 to 6 |
| `ListenerTests.StartAndFailWithoutConsumingClaims` | offchain/authority-claimer/src/listener.rs:168-177 | a claimer scripted to fail at once processes nothing, leaves the cursor at `INITIAL_ID`, and ends with `MockError` |
| `ListenerTests.StartAndFailAfterConsumingSomeClaims` | offchain/authority-claimer/src/listener.rs:179-189 | five claims are processed in epoch order, the cursor stays on the fifth, and the sixth ends the listener with `MockError` |
| `Strconv.ScanDigits` | internal/config/config.go:51 | a successful scan read only digits and its value is within `uint64` |
| `Strconv.Atoi` | internal/config/config.go:51 | every error names `Atoi` and the input; a success is within the 64-bit `int` range and read an optional sign followed by one or more digits; an empty input or one starting with neither a sign nor a digit is a syntax error |
| `Strconv.Decimal` | internal/config/config.go:51 | a non-empty string of digits |
| `Strconv.Itoa` | internal/config/config.go:51 | the inverse of `Atoi` on the `int` range: a non-empty text that starts with `-` exactly for a negative value, followed by one or more digits |
| `Strconv.ScanDigitsSnoc` | internal/config/config.go:51 | scanning one more digit continues from the value of the digits before it |
| `Strconv.ScanDecimal` | internal/config/config.go:51 | the scan reads back any `uint64` value from its decimal form |
| `Strconv.AtoiItoa` | internal/config/config.go:51 | `Atoi` reads back every 64-bit `int` from its decimal form |
| `Strconv.ScanDigitsSnocOverflow` | internal/config/config.go:51 | a digit that takes the scanned value past the `uint64` range is a range error |
| `Strconv.ScanDigitsErrAppend` | internal/config/config.go:51 | once the scan has failed, the characters after the failure do not change the error |
| `Strconv.ScanDecimalOverflow` | internal/config/config.go:51 | the scan of a decimal above the `uint64` range is a range error |
| `Strconv.AtoiOutOfRange` | internal/config/config.go:51 | every well-formed number above the `int` range, within `uint64` or beyond it, is a range error, and so is its negation, except for the smallest `int` |
| `Config.Getenv` | internal/config/config.go:29 | an unset variable reads as the empty string |
| `Config.Convert` | internal/config/config.go:47-58 | an `int` field succeeds exactly when `Atoi` does, with its value, and fails with `Atoi`'s error; a `string` field passes the text through; any other kind fails, naming the text and the kind |
| `Config.ConvertItoa` | internal/config/config.go:50-52 | an `int` field set to the decimal form of a 64-bit value loads that value |
| `Config.Resolve` | internal/config/config.go:23-39 | a field without an `env` tag fails, naming the field; a non-empty `CARTESI_<tag>` wins over the default; an empty one falls back to the default, and an empty default fails, naming the tag; the chosen text is converted |
| `Config.ResolveReadsOwnVariable` | internal/config/config.go:29 | a field's value depends on its own variable only |
| `Config.EnvOverridesDefault` | internal/config/config.go:29-31 | setting a field's variable to any non-empty text makes the field that text's conversion, whatever the rest of the environment |
| `Config.LoadFields` | internal/config/config.go:22-44 | fields are resolved in declaration order: the load succeeds exactly when every field resolves, with each field's value in its slot, and otherwise fails with the error of the first field that fails, every field before it having resolved |
| `Config.Load` | internal/config/config.go:17-45 | the configuration loads exactly when both ports resolve, with their values; otherwise the error is the GraphQL port's if it failed, else the inspect port's |
| `Config.DefaultPorts` | internal/config/config.go:13-14 | with nothing set, the ports resolve to 8080 and 8081 |
| `Config.NonNumericInspectPort` | internal/config/config.go:36-39 | with only `CARTESI_INSPECT_PORT=aaa` set, the GraphQL port still loads its default and the inspect port fails with `Atoi`'s syntax error for `aaa` |
| `Config.LoadDefaults` | internal/config/config_test.go:10-13 | with no variable set, `Load` succeeds with ports 8080 and 8081 |
| `Config.LoadNonNumericInspectPort` | internal/config/config.go:50-52 | with `CARTESI_INSPECT_PORT=aaa`, `Load` fails with the syntax error of `Atoi("aaa")` |

## Left out

- The Redis transport is not modelled: connecting to the broker (`Broker::new`, `setup_broker`), the stream key, the consume timeout and the exponential backoff, and the two `instantiate_*` tests. The broker is an abstract stream plus the cursors on which a read fails. A failure is what the client reports once its own retries give up.
- Redis stream ids are strings. Here they are natural numbers: `INITIAL_ID` is 0, ids increase along the stream, and each published event gets the last id plus one.
- The real loop never ends. A run stops with `Blocking` when it finds nothing after its cursor. A blocked `start` that continues after more events arrive is modelled as calling `Start` again, with the cursor and claimer the blocked run left. `Listener.ListenResumes` proves this equals one uninterrupted run. In Rust, `start` consumes the listener, so this second call has no counterpart there.
- In `start_broker_listener_with_no_claims_enqueued`, `tokio::spawn`, the sleeps and the `println!` calls are not modelled; only the order of publications and reads is kept.
- The logging calls (`trace!`, `info!`, `println!`) are not modelled.
- The concrete `DuplicateChecker` and `TransactionSender` implementations are not part of this model. They are oracles over the claim and the collaborator's state.
- The duplicate checker (`Claimer.Collaborators`): its answer depends only on the checker value and the claim, and no step replaces the checker, so within one run its answers are fixed. It does not see sends confirmed during the run, as the real checker, which reads chain state, would. A claim that reaches the claimer twice in one run and is reported novel is therefore sent twice in the model. Within one listener run each event is handed once (`Listener.ListenInOrder`), so this only concerns a stream that carries the same claim twice. Across a restart the checker value is the chain state then, which `Claimer.ReplaySubmitsOnlyNovelClaims` covers.
- `RollupsClaim` keeps only its epoch index. Its other fields are an uninterpreted payload.
- Epoch indices are unbounded. The `usize` to `u64` cast at `offchain/authority-claimer/src/mock.rs:126` cannot lose bits on the targets the tests run on.
- The mock's `Vec` construction (`vec![Ok(()); n]` then `insert(0, …)`) and its in-place `pop` are modelled on values. `send_rollups_claim` consumes the mock and returns it, so no aliasing is lost.
- The errors' display texts are not kept, except the variant names the `assert_*` helpers compare. The configuration errors are structured values rather than `fmt.Errorf` strings.
- Go reflection (`reflect.TypeOf`, `Field`, `Tag.Lookup`, `FieldByName(..).Set`) is modelled as a sequence of field descriptions and an array of field slots. Kinds other than `int` and `string` are kept only by name.
- `os.Getenv` is modelled as a map lookup that gives the empty string for an unset variable.
- Go's `strconv` source is not part of this model. `Strconv.Atoi` follows its documented behaviour on a 64-bit platform. The clamped value `Atoi` returns alongside a range error is not kept, because `Load` discards it.
- `TestConfigTodo` (`internal/config/config_test.go:15-21`) is not modelled. It expects `Load` to succeed with `CARTESI_INSPECT_PORT=aaa`, but the code propagates the `Atoi` error. The model follows the code: `Config.LoadNonNumericInspectPort` proves that `Load` fails.
- The rest of the repository is not modelled: process wiring in the claimer's `lib.rs`, the input reader, the rollups CLI, the logger, the GraphQL service and the node's `main.go`.

## Findings

| source | as written | input that shows it | evidently intended | confidence | as-written member | corrected member |
|---|---|---|---|---|---|---|
| offchain/authority-claimer/src/mock.rs:56-58 | the script's length minus one is an unsigned subtraction evaluated before `pop`, so an empty script underflows; in a build with overflow checks (as under `cargo test`) that panics and the `InternalError` path of `pop` is never reached, while a build without them wraps the index and does return `InternalError` | a mock claimer whose `results` are empty, handed any claim | an empty script returns `InternalError` | not executed | `Mock.SendRollupsClaimAsWritten` (`Mock.EmptyScriptUnderflows`) | `Mock.SendRollupsClaim` |
