# Batch pipeline

This project models the batch pipeline of `internal/batch/batch.go`, a
generic buffer that collects opaque items from producers and hands them as
one batch to a user callback. A flush happens in two cases. The first is
when an `Add` makes the buffer reach `maxSize`. The second is when a
background loop's wait elapses. A flush empties the buffer only when the
callback succeeds. After a failure the same items stay queued, in the same
order, and the next trigger retries them. A signal on the shutdown channel
ends the background loop. It does not flush.

The model has two layers:

- `batch_spec.dfy` (module `BatchSpec`) describes the pipeline as a pure
  state machine. Its state holds `maxSize`, the pending buffer, whether the
  background loop is running, and two history components: every item ever
  added, and every callback invocation. Each invocation records its trigger,
  the batch it was handed and whether it succeeded. The functions `Add`,
  `ExecuteAndFlush`, `Tick`, `Stop`, `Step`, `Run` and `Listen` define the
  transitions, and a lemma beside each states what it does. Further
  lemmas state what the pipeline promises: conservation of items, the
  bound when the callback always succeeds, growth and retry when it keeps
  failing, the `maxSize` 0 case, and shutdown.
- `batch_pipeline.dfy` (module `Batch`) holds the class `BatchPipeline<T>`.
  Its buffer is a backing array plus a length, like the Go slice. Capacity
  starts at `maxSize`, grows when an append finds the array full, and is
  kept when a successful flush empties the buffer. `Add`, `ExecuteAndFlush`
  and `Tick` are each one section that the source runs under the mutex;
  `Append` is the first part of `Add`'s section; `Stop` touches no state
  the mutex guards; `FlushAfterDeadline` runs one `Tick` section per
  elapsed wait. `Add`, `ExecuteAndFlush`, `Tick` and `Stop` move the
  object's abstract state exactly as the `BatchSpec` function of the same
  name prescribes. The constructor yields `Init`. `FlushAfterDeadline`
  moves as `Listen`. `Append` only states the new slice contents and the
  fate of the backing array; `Add` records the item in the history right
  after it. The object invariant `Valid()` includes conservation of items.
- `batch_scenarios.dfy` (module `BatchScenarios`) holds concrete runs over
  arbitrary items a, b, c, d, e. Two of them mirror the repository's
  tests. The second test's number of ticks depends on timing, so its
  scenario holds for any number n >= 1 of ticks. The third shows the retry
  behaviour of a failing callback, which the comment at
  `internal/batch/batch.go:43` describes as "full or over limit".

The callback is foreign code. Its outcome is an oracle: every operation
that may call it takes an `ok` argument, which says whether that call
succeeds. Real time is replaced by explicit `Tick` events.

In three places the model follows the code where a reader might expect
otherwise:

- A successful flush does not restart the wait window. The loop calls
  `time.After` afresh on every iteration, so the window restarts after every
  tick, whether or not a flush happened.
- Stopping the background loop does not stop flushing. `Add` never checks
  whether the loop is running and still flushes when the buffer reaches
  `maxSize`.
- `maxSize` is not checked to be positive. A negative value makes Go's
  `make` panic, so the constructor requires `0 <= maxSize`. A value of 0 is
  accepted, and `SmallMaxSizeFlushesEveryAdd` shows that every `Add` then
  calls the callback.

## Model

| member | source | states |
|---|---|---|
| `BatchSpec.ExecuteAndFlush` | internal/batch/batch.go:52-63 | the callback is logged as handed exactly the pending buffer with its outcome; on success the buffer becomes empty, on failure it is kept as it was; maxSize, the loop flag and the added items are untouched |
| `BatchSpec.FlushDelivers` | internal/batch/batch.go:52-63 | a flush delivers the pending buffer when the callback succeeds and nothing when it fails; delivered items followed by pending items are the same before and after |
| `BatchSpec.AddSpec` | internal/batch/batch.go:37-50 | the item is recorded as added; the callback is called exactly when the buffer length after the append is at least maxSize, and is then handed the old buffer plus the item; otherwise the state is the old one with the item appended and nothing else changed; a failed flush leaves the appended item in place |
| `BatchSpec.TickSpec` | internal/batch/batch.go:71-77 | while the loop runs, an elapsed wait calls the callback with the whole buffer whatever its size, even empty; once stopped, a tick changes nothing |
| `BatchSpec.Stop` | internal/batch/batch.go:68-70 | the shutdown signal stops the loop and flushes nothing: buffer, history and maxSize are unchanged |
| `BatchSpec.StepExtends` | internal/batch/batch.go:37-80 | every event calls the callback at most once, only extends the call log, records an added item only for an Add, and leaves maxSize unchanged |
| `BatchSpec.ListenSpec` | internal/batch/batch.go:65-80 | the loop fed a finite run of signals has stopped when a shutdown signal is among them, changes nothing on a stopped pipeline, calls the callback at most once per signal, and never adds items |
| `BatchSpec.StepConserves` | internal/batch/batch.go:41-59 | every event keeps conservation: accepted batches in order followed by the buffer equal the items added |
| `BatchSpec.RunExtends` | internal/batch/batch.go:41-54 | along any run the call log only grows, the added items are the old ones followed by the run's Add items, and maxSize stays fixed |
| `BatchSpec.RunAppend` | internal/batch/batch.go:37-80 | running two sequences of locked sections one after the other is running their concatenation |
| `BatchSpec.RunConserves` | internal/batch/batch.go:41-59 | conservation holds after any interleaving of Adds, ticks and shutdowns, whatever the callback outcomes |
| `BatchSpec.Conservation` | internal/batch/batch.go:21-59 | from construction, the accepted batches concatenated in order, followed by the buffer, are exactly the added items in order; nothing is lost or duplicated even when flushes fail and are retried |
| `BatchSpec.AlwaysOkStaysBelow` | internal/batch/batch.go:41-59 | with maxSize at least 1 and a callback that always succeeds, the buffer stays shorter than maxSize after every event; every call succeeds, is handed at most maxSize items, and a size-triggered call is handed exactly maxSize items |
| `BatchSpec.AlwaysOkBatchesBounded` | internal/batch/batch_test.go:11-18 | from construction with a callback that always succeeds, the callback never sees more than maxSize items and the buffer stays below maxSize |
| `BatchSpec.FailingAddsAccumulate` | internal/batch/batch.go:43-60 | when every Add's flush fails, the buffer becomes the old buffer followed by every added item, and nothing more is delivered |
| `BatchSpec.FailingAddsRetryWholeBuffer` | internal/batch/batch.go:43-60 | when every Add's flush fails and the buffer is already at the threshold, every Add calls the callback again, handed the whole pending buffer: the old items and all items added so far, beyond maxSize |
| `BatchSpec.SmallMaxSizeFlushesEveryAdd` | internal/batch/batch.go:21-26 | with maxSize 0 or 1 every Add calls the callback; from an empty buffer with a succeeding callback each call gets exactly one item |
| `BatchSpec.StoppedIgnoresSignals` | internal/batch/batch.go:66-70 | after the loop has stopped, no later tick or shutdown signal changes the state |
| `BatchSpec.ListenIsRun` | internal/batch/batch.go:65-80 | the loop that returns at the first shutdown agrees with the interleaved model fed the same signals |
| `Batch.BatchPipeline.constructor` | internal/batch/batch.go:21-35 | the buffer is empty with capacity maxSize, maxSize is the given one, the loop runs and the history is empty |
| `Batch.BatchPipeline.Append` | internal/batch/batch.go:41 | the pending items become the old ones plus the item; the backing array is kept when it had room and replaced by a fresh, larger one otherwise |
| `Batch.BatchPipeline.Add` | internal/batch/batch.go:37-50 | the object moves as `BatchSpec.Add` and keeps its invariant |
| `Batch.BatchPipeline.ExecuteAndFlush` | internal/batch/batch.go:52-63 | the object moves as `BatchSpec.ExecuteAndFlush`, the backing array is kept, and the error is reported exactly when the callback failed |
| `Batch.BatchPipeline.Tick` | internal/batch/batch.go:71-77 | the object moves as `BatchSpec.Tick` |
| `Batch.BatchPipeline.Stop` | internal/batch/batch.go:68-70 | the object moves as `BatchSpec.Stop` |
| `Batch.BatchPipeline.FlushAfterDeadline` | internal/batch/batch.go:65-80 | the loop over a finite run of signals moves the object as `BatchSpec.Listen` and returns at the first shutdown |
| `BatchScenarios.FiveItemsMaxThree` | internal/batch/batch_test.go:9-33 | maxSize 3, five Adds and two ticks (an 11-second sleep with a 5-second wait): the callback gets [a, b, c], then [d, e], then an empty batch, and the buffer ends empty |
| `BatchScenarios.EmptyTicks` | internal/batch/batch.go:71-77 | while the loop runs on an empty buffer, each of n ticks hands the callback an empty batch and changes nothing else |
| `BatchScenarios.TicksThenShutdown` | internal/batch/batch.go:65-80 | n >= 1 ticks and then the shutdown: the first tick delivers the pending buffer, each later one an empty batch, and the loop ends stopped with no further flush |
| `BatchScenarios.FiveItemsMaxTwoThenShutdown` | internal/batch/batch_test.go:35-58 | maxSize 2, five Adds, n >= 1 ticks (a 10-second sleep with a 1-second wait gives about nine), shutdown: batches [a, b], [c, d], [e], then n - 1 empty batches, and the loop has stopped |
| `BatchScenarios.FailingCallbackRetriesWholeBuffer` | internal/batch/batch.go:43-60 | maxSize 2 with a failing callback: [a, b] is attempted, then [a, b, c], and all three items stay pending |

## Left out

- Goroutines, the `sync.RWMutex` and the `flushChan` rendezvous: each locked section is one atomic method, and concurrent interleavings are sequences of events. The blocking handshake, and the deadlock on a second shutdown, are scheduling effects. A second `Stop` is a no-op in the model.
- `time.After` and the `maxWait` duration: an explicit `Tick` replaces elapsed time, so the model says nothing about how long an item waits.
- `log.Println` of flush errors: an output channel only.
- The callback's body: foreign user code. Only its success or failure is modelled, as the `ok` oracle. A callback that changes the slice it is handed is not modelled.
- Aliasing of delivered batches: the callback is handed the live slice (`internal/batch/batch.go:54`), and a successful flush keeps its backing array (`internal/batch/batch.go:59`), so the next `Add` overwrites index 0 of the array a callback may have kept. Each `Call` records its batch as a value snapshot, so `Delivered` and `Conservation` speak of the items at the moment of the call and say nothing about a slice the callback kept after returning.
- `Batch.BatchPipeline.FlushAfterDeadline`: runs on a finite sequence of signals with no producer in between. The source loop is unbounded and interleaves with `Add`; the `Tick` and `Stop` methods and `BatchSpec.Run` cover that interleaving.
- `Batch.BatchPipeline.Append`: grows a full backing array to twice its length plus one. Go's exact growth policy is not modelled, only that contents are copied and the new array is larger.
- internal/vectors/vectors.go: only `float32` conversions of numbers, no other logic.
- internal/server/server.go: a gRPC stub whose only decision is an empty-id check.
- cmd/app/main.go: TCP listening, OS signals and shutdown plumbing.
- internal/weaviate/weaviate_test.go: exercises an external vector database through its client library.
