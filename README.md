# teth-pipe in Dafny

A model of the state machines inside teth-pipe, a small callback-based,
promise-compatible streaming library. The model covers the live file
`pipe.js` and the earlier variant `pipe.halfway.monadic.stream.js`.

- **Values.** JavaScript values are the datatype `JsValue.Value`. Truthiness
  is spelled out as `JsValue.Truthy`.
- **Callbacks.** A callback is an opaque consumer id. Calling one appends a
  `Call(consumer, arg)` to a trace field.
- **User code.** Producers, emitters and `then` callbacks run code the
  library cannot see. Their synchronous behaviour becomes a parameter: the
  sequence of `ProducerCall`s a producer makes on its `resolve` and `reject`
  while it runs (in the halfway variant also each emitter invocation's such
  calls), an `EmitterAction`, an `Outcome`, or the function object
  returned.

Each part of the source becomes a pure step function plus a run of such
steps. Lemmas state what the source promises about those runs. A class
mirrors each object whose fields the source updates in place; its methods
are proved to move the fields exactly as the step function says.

| Dafny file | module | source |
|---|---|---|
| js_value.dfy | `JsValue` | values, truthiness, the calls a producer makes, and which of its results `processResultValue` hands on at once |
| cell.dfy | `PipeCell` | `resolveState` / `rejectState` and their four handlers (pipe.js) |
| generate_stage.dfy | `GenerateStage` | `generateEmitComposit`, `generateResolveComposit`, `generateMetaFlow` (pipe.js) |
| from_cursor.dfy | `FromCursor` | the emitter of `pipe.from` (both files) |
| combinators.dfy | `Settlements` | what `pipe.all` and `pipe.race` share |
| all.dfy | `AllCombinator` | `pipe.all` |
| race.dfy | `RaceCombinator` | `pipe.race` |
| halfway_cell.dfy | `HalfwayCell` | the closure-slot cells, `pipeUpstream` and `then` of the halfway variant |
| halfway_generate.dfy | `HalfwayGenerate` | `generateUpstream` and `pipe.emit` of the halfway variant |

`pipe.all` and `pipe.race` read the same in both files, at pipe.js:196-245
and pipe.halfway.monadic.stream.js:145-194. The rows below cite pipe.js.

## Model

| member | source | states |
|---|---|---|
| PipeCell.PutValue | pipe.js:28-31 | with a consumer stored, it is called once with the value and the cell is unchanged; otherwise the value is stored and nothing is called. `handleRejectError` (pipe.js:19-22) is the same operation on the reject cell |
| PipeCell.PutConsumer | pipe.js:32-35 | with a truthy value stored, the new consumer is called with it and not stored; with no value or a falsy one, the consumer is stored and nothing is delivered. `handleRejectCallback` (pipe.js:23-26) is the same |
| PipeCell.RunKeepsNoWaitingPair | pipe.js:19-35 | no run of operations leaves a truthy value and a consumer both waiting in a cell |
| PipeCell.RunNeverClearsConsumer | pipe.js:19-35 | once a consumer is stored, the consumer slot is never emptied |
| PipeCell.StoredValueReachesEveryConsumer | pipe.js:32-35 | a stored truthy value stays stored while consumers register, and each of them is called with it at once, in order |
| PipeCell.FeedAllRegistered | pipe.js:19-22 | with a consumer stored, each value supplied to the cell calls it, in order, and the cell is left as it was |
| PipeCell.FeedAllUnregistered | pipe.js:28-31 | with no consumer stored, supplied values call nothing and only the last one stays stored |
| PipeCell.RegisteredConsumerGetsEveryValue | pipe.js:19-22 | with a consumer registered, every further value or error calls that consumer again, in order, and the cell never changes |
| PipeCell.RunCallsComeFromOps | pipe.js:19-35 | every call a cell makes passes a stored or supplied value to a stored or registered consumer |
| PipeCell.RunCallsBounded | pipe.js:19-35 | a run makes at most one call per operation |
| PipeCell.ValueThenConsumer | pipe.js:32-35 | a value that arrives first reaches a later consumer only if it is truthy |
| PipeCell.ConsumerThenValue | pipe.js:28-31 | a consumer that arrives first gets any later value, falsy ones included |
| PipeCell.Cell.constructor | pipe.js:101-102 | a new cell has both slots empty and has called nothing |
| PipeCell.Cell.HandleValue | pipe.js:28-31 | the cell object and its record of calls move exactly as `PutValue` says |
| PipeCell.Cell.HandleCallback | pipe.js:32-35 | the cell object and its record of calls move exactly as `PutConsumer` says |
| GenerateStage.CallParam | pipe.js:63-67 | the resolve function resolves and the reject function rejects the stage; the resolve cell object, being no function, and a missing argument, being `undefined`, both throw a TypeError, and nothing else throws |
| GenerateStage.StreamingRejectThrowsAsWritten | pipe.js:67 | as written, a streaming producer's second parameter is the resolve cell object, so calling its `reject` throws a TypeError, while in single-value mode the same call rejects |
| GenerateStage.StreamingRejectEscapesAsWritten | pipe.js:54-70 | as written, that TypeError escapes the first pull after `onEmitCallback()` has switched the resolve side and before `performEmit` is rebound, so the next pull runs the producer again; with the intended arguments the call rejects and the pull switches both sides |
| GenerateStage.StreamingRejectRejects | pipe.js:63-67 | with the intended argument list, every parameter behaves the same in both modes, and the second one rejects the stage |
| GenerateStage.ModeStep | pipe.js:54-98 | only the first emit request rebinds `performEmit`; the producer runs on that request and on each resolve request while the resolve side is unswitched, and on nothing else |
| GenerateStage.ModeRunSwitchesAtFirstEmit | pipe.js:54-98 | from a fresh stage, `performEmit` is `performEmitFn` exactly when an emit request has come, and that happens exactly when the resolve side reads the resolve cell |
| GenerateStage.ProducerRuns | pipe.js:54-98 | the producer runs once for each `then` before the first pull, once for the first pull, and never again |
| GenerateStage.StreamCallsSplit | pipe.js:56-66 | in streaming mode the resolve cell is supplied exactly the producer's plain results, in order, and the reject cell exactly its errors; one awaiting event is logged per thenable; `isFinished` is set exactly when some plain result or error came, and stays set |
| GenerateStage.StreamErrorsReachRegistered | pipe.js:63-66 | a `reject` callback registered before the pull receives every error the streaming producer rejects with, in order, and the reject cell is left as it was |
| GenerateStage.DirectCallsSplit | pipe.js:79-89 | before any pull, every plain result the rerun producer resolves with reaches the `then` callback, in order, however many there are; the reject cell is supplied exactly the errors; the log only grows, by one event per resolution |
| GenerateStage.Stage.constructor | pipe.js:100-106 | a new stage has empty cells that have called nothing, both closures at their initial bindings and `isFinished` unset |
| GenerateStage.Stage.ProducerResolve | pipe.js:56-62 | both cells with their calls, `isFinished` and the log move exactly as `StreamCall` says for a resolution: a plain result goes through `handleResolveValue` and latches `isFinished`; a thenable is only awaited |
| GenerateStage.Stage.ProducerReject | pipe.js:63-66 | both cells with their calls, `isFinished` and the log move exactly as `StreamCall` says for a rejection: the error goes through `handleRejectError` and `isFinished` latches |
| GenerateStage.Stage.RunStreaming | pipe.js:56-67 | the producer's calls during the first pull, taken in order, move the cells, their calls, `isFinished` and the log exactly as `StreamCalls` says |
| GenerateStage.Stage.PerformEmit | pipe.js:39-53 | once `isFinished` is set, nothing is scheduled and the result is true; otherwise one deferred emitter call is queued and the result is false |
| GenerateStage.Stage.Emit | pipe.js:54-74 | the first pull runs the producer once, with its calls acting on both cells as `StreamCalls` says, keeps its return value as the emitter, rebinds `performEmit` and switches the resolve side; later pulls leave the cells and their calls alone and only schedule; after `isFinished` nothing is scheduled |
| GenerateStage.Stage.RunDirect | pipe.js:79-89 | the rerun producer's calls, taken in order, move the reject cell, its calls and the log exactly as `DirectCalls` says |
| GenerateStage.Stage.Resolve | pipe.js:77-98 | before any pull, the producer is run again, its calls act as `DirectCalls` says and the resolve cell is untouched; after it, the callback is registered on the resolve cell, with the calls that makes, and the reject cell is untouched |
| GenerateStage.Stage.Reject | pipe.js:110-112 | the callback is registered on the reject cell, with the calls that makes; the resolve cell is untouched |
| GenerateStage.Stage.RunDeferred | pipe.js:41-50 | a fired timer consumes the oldest queued pull; a plain emitted value reaches that pull's callback and a thenable is awaited; an emitter that calls the producer's `resolve` or `reject` acts on the cells, their calls, `isFinished` and the log as in streaming mode |
| FromCursor.Pull | pipe.js:250-253 | while `idx` is below the length, the emitter passes `collection[idx]` to `next` and advances `idx` by one; at the length it calls `resolve()` and `idx` stays |
| FromCursor.ExhaustedAlwaysResolves | pipe.js:251 | once exhausted, every further call resolves |
| FromCursor.PullsFrom | pipe.js:250-253 | from any position, the calls emit the remaining elements in order and then resolve |
| FromCursor.FromEmitsInOrder | pipe.js:247-255 | `length + m` calls emit the whole collection in order, then resolve `m` times |
| FromCursor.Cursor.constructor | pipe.js:249 | the cursor starts at index 0 with nothing emitted |
| FromCursor.Cursor.Emit | pipe.js:250-253 | one emitter call moves `idx` and yields the signal exactly as `Pull` says, and the record stays the in-order sequence of pulls |
| FromCursor.Cursor.DrainedInOrder | pipe.js:247-255 | a cursor pulled `length + m` times has emitted the collection in order and then resolved `m` times |
| Settlements.FirstNullish | pipe.js:213-220 | the item walk throws at the first `null` or `undefined` item, the first item on which `item.then` fails |
| AllCombinator.AllStep | pipe.js:202-212 | after a rejection nothing changes or is called; otherwise a value is stored at its item's index and bumps the count, and `resolve` is called with the accumulator exactly when the count reaches the length; a rejection latches, leaves the accumulator and count alone and calls `reject` with its error |
| AllCombinator.AllIgnoresAfterRejection | pipe.js:203-209 | after a rejection, every later resolution or rejection is ignored |
| AllCombinator.AllNotRejectedWithoutFailure | pipe.js:208-211 | only a rejection sets `wasRejected` |
| AllCombinator.AllFirstRejectionWins | pipe.js:208-212 | the first rejection calls `reject` once with its error, and nothing after it calls anything |
| AllCombinator.AllEmptyNeverResolves | pipe.js:199-206 | with no items, `resolve` is never called |
| AllCombinator.AllPrefix | pipe.js:202-207 | settling distinct indices counts them and fills exactly those indices, each with its value (every key of the accumulator is a settled index below the length), and `resolve` is called only when the count reaches the length |
| AllCombinator.AllPrefixCount | pipe.js:202-207 | settling distinct indices counts each settlement, never rejects, and calls `resolve` exactly once the count reaches the length |
| AllCombinator.EveryIndexSettles | pipe.js:202-207 | `length` settlements with no index settled twice settle every index below `length` |
| AllCombinator.AllResolvesInInputOrder | pipe.js:202-207 | when each of the `length` items settles once, `resolve` is called once with each value at its item's index, whatever the settlement order |
| AllCombinator.All.constructor | pipe.js:198-201 | empty accumulator, zero count, not rejected |
| AllCombinator.All.OnValue | pipe.js:202-207 | the closure state moves exactly as `AllStep` says for a value |
| AllCombinator.All.OnError | pipe.js:208-212 | the closure state moves exactly as `AllStep` says for a rejection |
| AllCombinator.All.Start | pipe.js:213-220 | the walk settles the plain items in order and registers on the thenables, up to the first nullish item, where it throws a TypeError |
| RaceCombinator.RaceStep | pipe.js:226-235 | once `value` or `error` is truthy nothing happens; otherwise the settlement is forwarded, and it latches exactly when its value or error is truthy |
| RaceCombinator.RaceForwardsUntilTruthy | pipe.js:225-243 | `race` forwards every settlement up to and including the first with a truthy value or error, and ignores the rest; a falsy first value does not latch |
| RaceCombinator.RaceOnlyLastIsTruthy | pipe.js:226-235 | among the forwarded settlements, only the last can carry a truthy value or error |
| RaceCombinator.Race.constructor | pipe.js:225 | `value` and `error` start undefined |
| RaceCombinator.Race.OnValue | pipe.js:226-230 | the closure state moves exactly as `RaceStep` says for a value |
| RaceCombinator.Race.OnError | pipe.js:231-235 | the closure state moves exactly as `RaceStep` says for an error |
| RaceCombinator.Race.Start | pipe.js:236-243 | the walk handles items in order until a truthy plain value latches or a nullish item throws a TypeError |
| HalfwayCell.Invoke | pipe.halfway.monadic.stream.js:23-33 | a stored consumer is called with the argument; a delivery closure calls its argument with the pending value, which throws a TypeError when that argument is no function |
| HalfwayCell.Deposit | pipe.halfway.monadic.stream.js:23-44 | a vacant slot gets a delivery closure for the value; a stored consumer is called and the flag is set; a pending value is handed to a function argument and the flag is set; the slot is never emptied; it throws exactly when a value is already pending and the new one is no function |
| HalfwayCell.Withdraw | pipe.halfway.monadic.stream.js:93-96 | a vacant slot stores the consumer; a pending value is delivered to it and the flag is set; the slot is never emptied and nothing throws |
| HalfwayCell.SlotNeverCleared | pipe.halfway.monadic.stream.js:23-44 | whatever fills a slot stays there for good |
| HalfwayCell.FirstOperationFillsSlot | pipe.halfway.monadic.stream.js:23-44 | the first value or consumer to arrive decides the slot's content forever |
| HalfwayCell.FlagNeverReset | pipe.halfway.monadic.stream.js:23-44 | `resolved` and `rejected` are never reset |
| HalfwayCell.FlagNeverRead | pipe.halfway.monadic.stream.js:23-44 | `resolved` and `rejected` are never read: runs from different flags make the same calls and leave the same slot |
| HalfwayCell.ValueMeetsConsumer | pipe.halfway.monadic.stream.js:93-96 | a value and a consumer meet in either arrival order, falsy values included, and the meeting sets the flag |
| HalfwayCell.ConsumerReceivesEveryValue | pipe.halfway.monadic.stream.js:23-27 | a consumer that arrived first is called with every later value, in order, without throwing |
| HalfwayCell.ValueReachesEveryConsumer | pipe.halfway.monadic.stream.js:28-31 | a value that arrived first is delivered to every later consumer |
| HalfwayCell.SecondValueIsCalled | pipe.halfway.monadic.stream.js:23-33 | a second value arriving before any consumer is called as if it were a consumer of the first; unless it is a function, this throws a TypeError |
| HalfwayCell.UpstreamRejectStep | pipe.halfway.monadic.stream.js:97-103 | the callback is forwarded upstream exactly when the reject slot was vacant; otherwise it is handed to the slot |
| HalfwayCell.ForwardedOnlyIfFirst | pipe.halfway.monadic.stream.js:97-103 | over any run, the list of forwarded callbacks is exactly the first operation's callback when that operation is a registration, and empty otherwise |
| HalfwayCell.ThenCatches | pipe.halfway.monadic.stream.js:118-129 | an exception thrown by the bound callback goes to the reject side, and the resolve side is untouched; it escapes only when an error is already pending there and the new one is no function |
| HalfwayCell.ThenForwardsResult | pipe.halfway.monadic.stream.js:118-129 | a plain result goes to the resolve side; when that side throws, a TypeError goes to the reject side instead |
| HalfwayCell.PipeState.constructor | pipe.halfway.monadic.stream.js:112 | a new stage state has both slots vacant and both flags unset |
| HalfwayCell.PipeState.HandlePerformResolve | pipe.halfway.monadic.stream.js:23-33 | the resolve side moves exactly as `Deposit` says; the reject side is unchanged |
| HalfwayCell.PipeState.HandlePerformReject | pipe.halfway.monadic.stream.js:34-44 | the reject side moves exactly as `Deposit` says; the resolve side is unchanged |
| HalfwayCell.PipeState.UpstreamResolve | pipe.halfway.monadic.stream.js:93-96 | the resolve side moves exactly as `Withdraw` says |
| HalfwayCell.PipeState.UpstreamReject | pipe.halfway.monadic.stream.js:97-103 | the reject side and the calls move as `UpstreamRejectStep` says, and its forwarded callbacks are appended to the record |
| HalfwayCell.PipeState.ThenCallback | pipe.halfway.monadic.stream.js:118-129 | the stage moves exactly as `ThenRun` says |
| HalfwayGenerate.ProducerStep | pipe.halfway.monadic.stream.js:54-74 | one call of the producer's `resolve` or `reject` touches only the cells and the calls, and a call that throws changes nothing; when `resolve(k)` runs the producer, the resolve side is untouched |
| HalfwayGenerate.ProducerRun | pipe.halfway.monadic.stream.js:54-74 | a run of the producer's calls leaves the emitter, the run count and the invocations alone, and leaves the resolve side alone when `resolve(k)` runs it |
| HalfwayGenerate.ThrowEndsProducer | pipe.halfway.monadic.stream.js:69-74 | an exception from the producer's `resolve` or `reject` leaves the producer, so nothing it would do afterwards has any effect |
| HalfwayGenerate.ResolveStep | pipe.halfway.monadic.stream.js:50-62 | once the emitter is bound, the callback is registered on the resolve side, with the calls that makes, and nothing throws; before that, the producer runs again and the resolve side is untouched |
| HalfwayGenerate.ResolveBeforeEmitDelivers | pipe.halfway.monadic.stream.js:54-60 | for a producer that does not reject, before the emitter is bound: a `then` receives every plain result its rerun of the producer resolves with, in order, however many there are, and nothing else changes but the run count |
| HalfwayGenerate.SecondResultThrowsOnFirstPull | pipe.halfway.monadic.stream.js:23-33 | on the first pull, a producer resolving twice with plain values calls the first value's delivery closure with the second, which throws unless the second is a function; the first value stays pending and nothing is called |
| HalfwayGenerate.RejectStep | pipe.halfway.monadic.stream.js:63-66 | the callback is registered on the reject side, the calls that makes are appended, and the resolve side, emitter, run count and invocations are unchanged |
| HalfwayGenerate.InvokeEmitter | pipe.halfway.monadic.stream.js:67-85 | an emitter invocation is recorded with its callback, leaves the emitter and run count alone, and one that calls neither `resolve` nor `reject` changes nothing else and does not throw |
| HalfwayGenerate.EmittingPullsInvokeOnce | pipe.halfway.monadic.stream.js:83-84 | once the emitter is bound, each pull invokes it once with its own callback and never reruns the producer or rebinds, whatever the emitter does |
| HalfwayGenerate.QuietPullsOnlyInvoke | pipe.halfway.monadic.stream.js:83-84 | once the emitter is bound, pulls whose emitter calls neither `resolve` nor `reject` do not throw and change nothing but the invocations |
| HalfwayGenerate.RegisteredSidesNeverThrow | pipe.halfway.monadic.stream.js:23-44 | with a callback registered on both sides, the emitter's calls of `resolve` and `reject` never throw and leave both slots as they are |
| HalfwayGenerate.RegisteredPullsNeverThrow | pipe.halfway.monadic.stream.js:23-44 | once the emitter is bound and a callback is registered on both sides, no pull throws, whatever the emitter calls |
| HalfwayGenerate.UnmarkedPullsRerunProducer | pipe.halfway.monadic.stream.js:68-80 | a producer without a marked emitter is rerun by every pull, every pull throws, and the emitter is never bound or invoked |
| HalfwayGenerate.FirstPullBinds | pipe.halfway.monadic.stream.js:68-84 | the first pull with a marked emitter runs the producer once and binds the emitter, even when the emitter throws; it invokes the emitter with the same callback twice, or once when the first invocation throws, and twice whenever the pull completes |
| HalfwayGenerate.QuietFirstPull | pipe.halfway.monadic.stream.js:68-84 | with an emitter that calls neither `resolve` nor `reject`, the first pull completes and changes nothing but the producer's effects, the binding and the two invocations |
| HalfwayGenerate.EmitterTwiceThenOnce | pipe.halfway.monadic.stream.js:67-85 | over a run of pulls, the producer runs exactly once and the emitter stays bound; when the first pull completes, its callback gets two emitter invocations and each later pull's gets one |
| HalfwayGenerate.QuietEmitterNeverThrows | pipe.halfway.monadic.stream.js:67-85 | when the emitter never calls `resolve` or `reject`, no pull throws |
| HalfwayGenerate.EmitterCalls | pipe.halfway.monadic.stream.js:203-206 | the `pipe.from` emitter calls `resolve` exactly when the collection is exhausted, with the signal's `undefined` |
| HalfwayGenerate.FromLaterPullsThrow | pipe.halfway.monadic.stream.js:23-33 | after the first pull of a `pipe.from` stream, a pull throws exactly when its `resolve()` is not the stream's first: the first parks `undefined` in a delivery closure, and each later one calls that closure with `undefined` |
| HalfwayGenerate.FromPullsThrowPastTheEnd | pipe.halfway.monadic.stream.js:200-208 | pulled through `next` alone, a halfway `pipe.from(collection)` stream completes its first `length` pulls and every pull after them throws a TypeError out of `next` |
| HalfwayGenerate.FromFirstPullTakesTwo | pipe.halfway.monadic.stream.js:200-208 | so the first pull of a `pipe.from` stream over two or more elements completes and hands the first two elements of the collection to the same callback |
| HalfwayGenerate.Emit | pipe.halfway.monadic.stream.js:196-199 | `pipe.emit` marks the function and returns that same function |
| HalfwayGenerate.FunctionObject.constructor | pipe.halfway.monadic.stream.js:196-199 | a function starts without the emit marker |
| HalfwayGenerate.GenerateUpstream.constructor | pipe.halfway.monadic.stream.js:47 | a new upstream has both slots vacant, no emitter, and has run nothing |
| HalfwayGenerate.GenerateUpstream.Next | pipe.halfway.monadic.stream.js:67-85 | a pull moves the state exactly as `NextStep` says for the marker found on the producer's return value and the emitter's calls at each invocation |
| HalfwayGenerate.GenerateUpstream.RunProducer | pipe.halfway.monadic.stream.js:54-74 | the producer's calls, taken in order until one throws, move the state exactly as `ProducerRun` says |
| HalfwayGenerate.GenerateUpstream.Resolve | pipe.halfway.monadic.stream.js:50-62 | the state moves exactly as `ResolveStep` says |
| HalfwayGenerate.GenerateUpstream.Reject | pipe.halfway.monadic.stream.js:63-66 | the state moves exactly as `RejectStep` says |

## Left out

- The `setTimeout` of `performEmitFn` (pipe.js:41-50) is host scheduling. It is modelled as a queue of pending emitter calls that `GenerateStage.Stage.RunDeferred` consumes, oldest first.
- GenerateStage.Stage.RunDeferred: does not model the TypeError thrown inside the timer when the producer returned no function.
- GenerateStage.Stage.RunDeferred: takes one emitter action per fired timer. An emitter that calls `next` or the producer's `resolve`/`reject` several times in one run is not modelled; the emitter of `pipe.from` makes exactly one call.
- Producers are taken not to catch exceptions: in the halfway variant a call of `resolve` or `reject` that throws ends the producer's run (`HalfwayGenerate.ProducerRun`).
- Thenables are foreign objects awaited through their `then`/`catch`. A thenable result is recorded as awaited. Its later settlement is not modelled. A settlement can still be fed to `All.OnValue` / `All.OnError` and `Race.OnValue` / `Race.OnError`.
- Thenables that settle synchronously during the `all` / `race` item walk are not interleaved with the walk.
- The `forEach` drain of pipe.js (pipe.js:140-155) is left out. It is correct only because of the timer deferral, so it is not a sequential algorithm.
- `composeThenFn`, `flowPipe`, the `catch` wiring and the `pipe` dispatcher of pipe.js are plumbing between stages. They are not modelled. pipe.js has no try/catch around a `then` callback (pipe.js:120-121), so no claim is made that it catches throws.
- `pipe.resolve` and `pipe.reject` are producers that make a single call. They are covered by the producer-call parameter rather than modelled separately.
- `pipe.wrap` (pipe.js:257-266) adapts error-first callbacks. It is not modelled.
- `pipe.buffer`, `pipe.event`, `.map`, `.filter` and `.reduce` are defined in none of these files. They are not part of this model.
- pipe.1st-monadic-forEach.bckp1.js, pipe.1st-monadic-forEach.bckp2.js and pipe.broken.js are unreferenced variants. They are not part of this model.
- Console logging (pipe.halfway.monadic.stream.js:81, 83) is left out.
- Numbers are integers. NaN, negative zero and fractions are not modelled; only their truthiness would matter, and `Num(0)` is the falsy number.
- `HalfwayCell.PipeState.UpstreamReject` records a forwarded callback rather than calling the previous upstream. The chain of upstreams is not modelled as linked objects.
- HalfwayGenerate.GenerateUpstream.Next: of what the foreign emitter does during an invocation, only its calls of the producer's `resolve` and `reject` are modelled, as a parameter. What it hands to the `next` callback is recorded only as the invocation. For `pipe.from`, `HalfwayGenerate.FromPulls` derives those calls from `FromCursor`, and `HalfwayGenerate.FromPullsThrowPastTheEnd` gives the result.
- HalfwayGenerate.MarkedEmitter: only function objects carry the emit marker. A non-function object with the `EMIT` property would also pass the check at line 75.
- Exceptions thrown by consumers and by user callbacks other than a `then` callback are not modelled. Consumers always return.

## Findings

| source | as written | input that shows it | evidently intended | confidence | as-written member | corrected member |
|---|---|---|---|---|---|---|
| pipe.js:67 | On the first pull, the producer gets the resolve function, then the resolve cell object, then the reject function. | A streaming producer `(resolve, reject) => { reject(e); return emitter }`: its `reject(e)` calls the resolve cell object and throws a TypeError instead of rejecting. | The producer gets `(resolveFn, rejectFn)`, as in single-value mode (pipe.js:89) and in the backup pipe.1st-monadic-forEach.bckp1.js. | high; not executed | GenerateStage.StreamingRejectEscapesAsWritten | GenerateStage.StreamingRejectRejects |

The stage in `GenerateStage` runs the producer with the corrected
argument list `GenerateStage.EmitArgs`. A producer's `RejectsWith` call
therefore rejects the stage in both modes. `GenerateStage.StreamingRejectThrowsAsWritten`
shows the throw at the call itself.
