# LoopLoad: a self-refreshing cached slot

This project models the refresh/read state machine of `LoopLoad[T]`, a slot that holds
the last value produced by a user-supplied loader, reloads it on demand or on a timer,
and serves reads of the current value at any time.

The slot has three pieces of state that its operations change. `value` is the current T. It starts
as the zero value of T and is replaced only by a successful load. `loadState` is 0 (not
loaded), 1 (loaded) or 2 (loading). `startState` is 0 (not started) or 1 (started). `start` and
`Load` first compare `loadState` with an expected value and swap it in one atomic step, then run
the loader, commit on success, and finally restore the flag in a deferred store. `close` swaps
`startState` from 1 to 0 and then does a channel handshake with the ticker. It calls no loader
and has no deferred store. `Get` tests no flag and only reads `value`.

- `opts.dfy`, module `Opts` (loopload/opts.go): the options record is a class whose
  `reloadTime` field each option's closure overwrites. `NewOptions` builds a fresh record
  holding one minute and applies the options in order in a loop. A `time.Duration` is an
  `int` count of nanoseconds.
- `loopload.dfy`, module `LoopLoad` (loopload/loopload.go):
  - The class `LoopLoad` has the fields `value`, `loadState` and `startState`. A ghost
    field `outcomes` logs the metric label recorded for each loader invocation.
  - Each compare-and-swap is one sequential step: if the flag holds the expected value it
    is replaced, otherwise the method returns at once.
  - Each method's `ensures` equates the new state and the returned error with a pure step
    function over the `State` datatype: `StartStep`, `ReloadStep`, `LoadStep` or `CloseStep`.
  - `Run` applies a sequence of calls. The lemmas about `Run` describe every sequence of
    calls made on a new slot.
  - The loader is not stored. Every operation that may call it takes the `LoaderResult`
    that the loader would return if called now: `Ok(v)`, or `Failure(e)` where `e` is
    `Canceled`, `DeadlineExceeded`, `Panicked(..)` (a panic recovered at the call boundary)
    or any other error.
  - The constructor takes the zero value of T as a parameter `zero`, because Dafny
    cannot name a generic zero value.

## Behaviour as written

The model follows the code. In two places the code does not do what a reader of the
slot's description would expect:

- A failed `start` leaves the slot marked loaded. The deferred store at
  loopload/loopload.go:65 sets `loadState` to 1 on every return path, including when the
  first load fails. After a failed start the slot holds the zero value with
  `loadState = 1`. A retried `start` is refused with `loadStateNotZero`, and reloads
  through `Load` are accepted (`FailedStartLeavesLoaded`, `SecondStartFails`). One might
  expect the slot to go back to "not loaded" so that a start can be retried.
- `close` never acts. Nothing stores 1 into `startState`: it is set to 0 at
  loopload/loopload.go:44 and only swapped from 1 at loopload/loopload.go:90. So the
  shutdown handshake is never reached (`Valid`, `Run`, `CloseNeverActs`).

## Model

| member | source | states |
|---|---|---|
| `Opts.Options.constructor` | loopload/opts.go:7-9 | the record holds exactly the reload interval it is built with |
| `Opts.Apply` | loopload/opts.go:23-26 | the closure made by `WithReloadTime(t)` sets `reloadTime` to exactly `t`, with no validation or clamping |
| `Opts.LastOptionWins` | loopload/opts.go:15-17 | options applied in order leave the duration of the last one, or the starting value when there are none |
| `Opts.NewOptions` | loopload/opts.go:11-19 | returns a freshly allocated record. Its interval is one minute (60·10⁹ ns) when no option is given, otherwise that of the last `WithReloadTime` in the list |
| `LoopLoad.Classify` | loopload/loopload.go:115-129 | success maps to `success`. Cancellation, an expired deadline and a recovered panic map to `exception`. Every other error maps to `fail`. Each is an if-and-only-if |
| `LoopLoad.LoadStep` | loopload/loopload.go:108-132 | one loader call appends exactly one classified outcome and leaves both flags alone. On success the value becomes exactly the loader's result and nil is returned. On any failure the value is unchanged and that error is returned |
| `LoopLoad.StartStep` | loopload/loopload.go:61-71 | when `loadState != 0` it returns `loadStateNotZero` and changes nothing. Otherwise it loads once and returns with `loadState = 1` whether the load succeeded or failed, with `startState` untouched |
| `LoopLoad.ReloadStep` | loopload/loopload.go:99-106 | when `loadState != 1` (also while loading) it returns nil with no loader call and no change. Otherwise it loads once and returns with `loadState = 1` again, on success or failure |
| `LoopLoad.CloseStep` | loopload/loopload.go:89-92 | does nothing unless `startState = 1`, and then sets `startState` to exactly 0, changing nothing else |
| `LoopLoad.Run` | loopload/loopload.go:61-106 | over any sequence of calls the outcome log only grows, by at most one entry per call, and `Valid` is kept. So `loadState` is 0 or 1 between calls and `startState` stays 0 |
| `LoopLoad.LastOk` | loopload/loopload.go:129-131 | the value after a series of loads is the last successful result, even when failures follow it, or the old value when every load failed |
| `LoopLoad.RunBeforeStart` | loopload/loopload.go:99-102 | before the first start, reloads and closes change nothing and never call the loader |
| `LoopLoad.RunWhileLoaded` | loopload/loopload.go:99-106 | once loaded the slot stays loaded. Starts are refused. Each reload calls the loader exactly once, logs its outcome, and commits the value only on success |
| `LoopLoad.RunFromNew` | loopload/loopload.go:61-106 | exact final state of a new slot after any call sequence containing a start. The value is the last successful result of the start and the later reloads, or zero. The log holds one code per loader call, in order. `loadState` is 1 and `startState` is 0 |
| `LoopLoad.SecondStartFails` | loopload/loopload.go:62-65 | after a start, whether it succeeded or failed, every later start is refused and changes nothing |
| `LoopLoad.FailedStartLeavesLoaded` | loopload/loopload.go:65-71 | a failed first load leaves the slot holding zero with `loadState = 1` and returns the loader's error |
| `LoopLoad.FailedReloadsKeepValue` | loopload/loopload.go:115-128 | after a start, when every reload fails (starts and closes may be interleaved), the slot keeps the last good value for as long as they go on |
| `LoopLoad.NoSecondLoaderWhileLoading` | loopload/loopload.go:99-102 | while a load is in flight, a reentrant or concurrent reload returns nil without calling the loader and a start is refused, so reloads collapse and are not queued |
| `LoopLoad.CloseNeverActs` | loopload/loopload.go:89-92 | after any sequence of calls on a new slot, close changes nothing |
| `LoopLoad.LoopLoad.constructor` | loopload/loopload.go:32-46 | a new slot holds the zero value with `loadState = 0`, `startState = 0` and an empty log. Its options are fresh and built from the given option list. `metricsName` is `"loopload_" + name` |
| `LoopLoad.LoopLoad.Start` | loopload/loopload.go:61-88 | the new state and the returned error are those of `StartStep` |
| `LoopLoad.LoopLoad.Close` | loopload/loopload.go:89-96 | the new state is that of `CloseStep` |
| `LoopLoad.LoopLoad.Load` | loopload/loopload.go:99-106 | the new state and the returned error are those of `ReloadStep` |
| `LoopLoad.LoopLoad.Tick` | loopload/loopload.go:77-78 | a timer tick is a reload whose error is dropped. The new state is that of `ReloadStep` |
| `LoopLoad.LoopLoad.RunLoader` | loopload/loopload.go:108-132 | classifies the outcome by comparing errors in the source's order and logs it. The value is committed only on success. New state and error are those of `LoadStep`. Only `value` and the log may change |
| `LoopLoad.LoopLoad.Get` | loopload/loopload.go:134-142 | returns the current value and changes nothing |

## Left out

- The background ticker goroutine and the `done` channel handshake (loopload/loopload.go:73-85, 94-95) involve concurrency and timers. `Tick` models the state change one tick makes. `reloadTime` is stored but no timer reads it. The handshake in `close` would come after its flag check, and that check never passes.
- Atomicity and interleaving: each compare-and-swap is one sequential step. A load in flight shows up only as `loadState = 2`, and `NoSecondLoaderWhileLoading` covers what any other call does in that state.
- LoopLoad.LoopLoad.constructor: takes the zero value of T as a parameter `zero` instead of producing it as `new(T)` does, because Dafny cannot name a generic zero value.
- LoopLoad.LoopLoad.Start: does not model launching the ticker goroutine after a successful first load, because that is concurrency.
- LoopLoad.LoopLoad.Close: does not model the `done` channel handshake, because it is concurrency and, as written, unreachable.
- LoopLoad.LoopLoad.Get: the filter/interceptor chain around the read (loopload/loopload.go:135-140) is an opaque pass-through; `Get` is a direct read.
- Metrics registration and counter increments (loopload/loopload.go:33-34, 118-129) are foreign calls. They appear as appends to the ghost `outcomes` log.
- Lifecycle registration with `handler.AddHandler` and `app.Fatal` (loopload/loopload.go:48-56) is framework glue. `Start` and `Close` are plain methods.
- `utils.Recover.WrapCall`, `IsRecoverError` and `zutils.AtomicValue` are library code. A recovered panic is the loader result `Failure(Panicked(..))`, and the atomic value is a plain field.
- `context`: there is no context parameter. Cancellation and expired deadlines are the error values `Canceled` and `DeadlineExceeded`. The source compares errors with `==`, so a wrapped cancellation error is an ordinary error classified `fail`. Here that is any `Failed(..)` value.
- The loader function `loadFn` is not stored. Each call that may invoke it takes the result of that invocation as a parameter.
- A nil `Option` in the option list would make `newOptions` panic. `Option` here has only the `WithReloadTime` form, so that case is not modelled.
- The `int32` flags are `int`s. Only 0, 1 and 2 are ever stored, so no wrap-around can occur.
- loopload/example/main.go is a demo program with no logic of its own.
