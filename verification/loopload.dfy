/** A self-refreshing cached slot (loopload/loopload.go): one value, a
    user-supplied loader, and two small integer flags. `start` and `Load` test
    and set `loadState` in one atomic step before they call the loader; `close`
    does the same with `startState`; `Get` only reads the value.

    Each compare-and-swap of the source is one sequential step here: if the
    flag holds the expected value it is replaced, otherwise the operation
    returns at once. The loader is not a stored function: every operation that
    may invoke it takes the result the loader would give if invoked now. The
    metric counter is a ghost log of outcome codes, one entry per invocation. */
module LoopLoad {
  import Opts

  // loadState values
  const NotLoaded := 0
  const Loaded := 1
  const Loading := 2

  // startState values
  const NotStarted := 0
  const Started := 1

  /** Go error values met by the slot. `LoadStateNotZero` is the one `start`
      creates; the others are what a loader may end with. A recovered panic
      reaches the slot as an error of its own kind, `Panicked`. */
  datatype Error =
    | LoadStateNotZero
    | Canceled
    | DeadlineExceeded
    | Panicked(reason: string)
    | Failed(msg: string)

  /** A Go `error` result: nil or an error value. */
  datatype MaybeError = Nil | Err(error: Error)

  /** What one invocation of the loader ends with. */
  datatype LoaderResult<T> = Ok(value: T) | Failure(error: Error)

  /** The label of the metric counter (`code_type`). */
  datatype Code = Success | Fail | Exception

  /** The outcome label `load` records for one loader invocation: context
      cancellation, an expired deadline and a recovered panic are exceptions,
      any other error is a failure. */
  function Classify<T>(r: LoaderResult<T>): (c: Code)
    ensures c == Success <==> r.Ok?
    ensures c == Exception <==>
              r.Failure? && (r.error == Canceled || r.error == DeadlineExceeded || r.error.Panicked?)
    ensures c == Fail <==>
              r.Failure? && r.error != Canceled && r.error != DeadlineExceeded && !r.error.Panicked?
  {
    match r
    case Ok(_) => Success
    case Failure(e) =>
      if e == DeadlineExceeded || e == Canceled then Exception
      else if e.Panicked? then Exception
      else Fail
  }

  /** The state of a slot: its value, both flags, and the outcome log. */
  datatype State<T> = State(value: T, loadState: int, startState: int, outcomes: seq<Code>)

  /** A state together with the error an operation returned. */
  datatype Transition<T> = Transition(state: State<T>, err: MaybeError)

  /** The state `New` builds: the zero value, not loaded, not started. */
  function New<T>(zero: T): State<T>
  {
    State(zero, NotLoaded, NotStarted, [])
  }

  /** The states a slot can be in between operations. `startState` is never
      anything but `NotStarted`, because no operation stores `Started`. */
  predicate Valid<T>(s: State<T>)
  {
    (s.loadState == NotLoaded || s.loadState == Loaded) && s.startState == NotStarted
  }

  /** The value held after one loader invocation ending with `r`. */
  function Committed<T>(v: T, r: LoaderResult<T>): T
  {
    if r.Ok? then r.value else v
  }

  /** `load`: invoke the loader once, record its outcome, commit the value
      only on success, and return the loader's error. The flags are not
      touched. */
  function LoadStep<T>(s: State<T>, r: LoaderResult<T>): (t: Transition<T>)
    ensures t.state.loadState == s.loadState && t.state.startState == s.startState
    ensures t.state.outcomes == s.outcomes + [Classify(r)]
    ensures r.Ok? ==> t.state.value == r.value && t.err == Nil
    ensures r.Failure? ==> t.state.value == s.value && t.err == Err(r.error)
  {
    var logged := s.(outcomes := s.outcomes + [Classify(r)]);
    match r
    case Ok(v) => Transition(logged.(value := v), Nil)
    case Failure(e) => Transition(logged, Err(e))
  }

  /** `start`: only a slot that was never loaded gets past the check; it then
      loads once and is left marked loaded whether the load succeeded or not. */
  function StartStep<T>(s: State<T>, r: LoaderResult<T>): (t: Transition<T>)
    ensures s.loadState != NotLoaded ==> t == Transition(s, Err(LoadStateNotZero))
    ensures s.loadState == NotLoaded ==>
              && t.state.loadState == Loaded
              && t.state.startState == s.startState
              && t.state.value == Committed(s.value, r)
              && t.state.outcomes == s.outcomes + [Classify(r)]
              && (t.err == Nil <==> r.Ok?)
              && (r.Failure? ==> t.err == Err(r.error))
  {
    if s.loadState != NotLoaded then
      Transition(s, Err(LoadStateNotZero))
    else
      var loaded := LoadStep(s.(loadState := Loading), r);
      Transition(loaded.state.(loadState := Loaded), loaded.err)
  }

  /** `Load`: a reload runs only from the loaded state; in any other state,
      a load or a start in progress included, it returns nil at once without
      invoking the loader. A reload that runs always leaves the slot loaded. */
  function ReloadStep<T>(s: State<T>, r: LoaderResult<T>): (t: Transition<T>)
    ensures s.loadState != Loaded ==> t == Transition(s, Nil)
    ensures s.loadState == Loaded ==>
              && t.state.loadState == Loaded
              && t.state.startState == s.startState
              && t.state.value == Committed(s.value, r)
              && t.state.outcomes == s.outcomes + [Classify(r)]
              && (t.err == Nil <==> r.Ok?)
              && (r.Failure? ==> t.err == Err(r.error))
  {
    if s.loadState != Loaded then
      Transition(s, Nil)
    else
      var loaded := LoadStep(s.(loadState := Loading), r);
      Transition(loaded.state.(loadState := Loaded), loaded.err)
  }

  /** `close`: acts only on a started slot, and then only clears `startState`. */
  function CloseStep<T>(s: State<T>): (t: State<T>)
    ensures s.startState != Started ==> t == s
    ensures s.startState == Started ==> t == s.(startState := NotStarted)
    ensures t.value == s.value && t.loadState == s.loadState && t.outcomes == s.outcomes
  {
    if s.startState != Started then s else s.(startState := NotStarted)
  }

  /** One call made on a slot by its owner or by the background ticker. */
  datatype Call<T> = StartCall(result: LoaderResult<T>) | LoadCall(result: LoaderResult<T>) | CloseCall

  function Step<T>(s: State<T>, c: Call<T>): State<T>
  {
    match c
    case StartCall(r) => StartStep(s, r).state
    case LoadCall(r) => ReloadStep(s, r).state
    case CloseCall => CloseStep(s)
  }

  /** The state after `calls`, one after another. The outcome log only grows,
      by at most one entry per call, and every call keeps `Valid`. */
  function Run<T>(s: State<T>, calls: seq<Call<T>>): (t: State<T>)
    ensures s.outcomes <= t.outcomes && |t.outcomes| <= |s.outcomes| + |calls|
    ensures Valid(s) ==> Valid(t)
    decreases |calls|
  {
    if calls == [] then s else Run(Step(s, calls[0]), calls[1..])
  }

  /** The loader results of the reload calls in `calls`, in order. */
  function Reloads<T>(calls: seq<Call<T>>): seq<LoaderResult<T>>
  {
    if calls == [] then []
    else (if calls[0].LoadCall? then [calls[0].result] else []) + Reloads(calls[1..])
  }

  /** The outcome codes of a series of loader results. */
  function Codes<T>(rs: seq<LoaderResult<T>>): seq<Code>
  {
    if rs == [] then [] else [Classify(rs[0])] + Codes(rs[1..])
  }

  /** The value left after loader invocations ending with `rs`, starting from
      `v`: the last successful result, or `v` when none succeeded. */
  function LastOk<T>(v: T, rs: seq<LoaderResult<T>>): (w: T)
    ensures w == v || Ok(w) in rs
    ensures (forall i :: 0 <= i < |rs| ==> rs[i].Failure?) ==> w == v
    ensures rs != [] && rs[|rs| - 1].Ok? ==> w == rs[|rs| - 1].value
    ensures forall i :: 0 <= i < |rs| && rs[i].Ok? && (forall j :: i < j < |rs| ==> rs[j].Failure?) ==>
              w == rs[i].value
    decreases |rs|
  {
    if rs == [] then v else LastOk(Committed(v, rs[0]), rs[1..])
  }

  lemma {:induction false} RunAppend<T>(s: State<T>, a: seq<Call<T>>, b: seq<Call<T>>)
    ensures Run(s, a + b) == Run(Run(s, a), b)
    decreases |a|
  {
    if a != [] {
      assert (a + b)[1..] == a[1..] + b;
      RunAppend(Step(s, a[0]), a[1..], b);
    } else {
      assert a + b == b;
    }
  }

  /** Before the first start nothing happens: reloads are declined without
      invoking the loader, and close has nothing to stop. */
  lemma {:induction false} RunBeforeStart<T>(s: State<T>, calls: seq<Call<T>>)
    requires Valid(s) && s.loadState == NotLoaded
    requires forall i :: 0 <= i < |calls| ==> !calls[i].StartCall?
    ensures Run(s, calls) == s
    decreases |calls|
  {
    if calls != [] {
      assert Step(s, calls[0]) == s;
      RunBeforeStart(s, calls[1..]);
    }
  }

  /** Once loaded, a slot stays loaded: every start is refused, every close is
      a no-op, and every reload invokes the loader exactly once, logs its
      outcome and commits its value only on success. */
  lemma {:induction false} RunWhileLoaded<T>(s: State<T>, calls: seq<Call<T>>)
    requires Valid(s) && s.loadState == Loaded
    ensures Run(s, calls) == s.(value := LastOk(s.value, Reloads(calls)),
                                outcomes := s.outcomes + Codes(Reloads(calls)))
    decreases |calls|
  {
    if calls != [] {
      var next := Step(s, calls[0]);
      var rest := Reloads(calls[1..]);
      RunWhileLoaded(next, calls[1..]);
      match calls[0]
      case LoadCall(r) =>
        assert ([r] + rest)[1..] == rest;
        assert next == s.(value := Committed(s.value, r), outcomes := s.outcomes + [Classify(r)]);
        assert s.outcomes + [Classify(r)] + Codes(rest) == s.outcomes + Codes([r] + rest);
      case StartCall(_) =>
        assert next == s && Reloads(calls) == rest;
      case CloseCall =>
        assert next == s && Reloads(calls) == rest;
    }
  }

  /** Every sequence of calls from a new slot that contains a start: the calls
      before the first start do nothing, the start invokes the loader once and
      leaves the slot loaded, and from then on each reload invokes it once.
      The slot holds the last successful result among those invocations (or
      the zero value), and the log holds one code per invocation, in order. */
  lemma {:induction false} RunFromNew<T>(zero: T, before: seq<Call<T>>, r: LoaderResult<T>, after: seq<Call<T>>)
    requires forall i :: 0 <= i < |before| ==> !before[i].StartCall?
    ensures Run(New(zero), before + [StartCall(r)] + after)
         == State(LastOk(zero, [r] + Reloads(after)), Loaded, NotStarted, Codes([r] + Reloads(after)))
  {
    var s0 := New(zero);
    RunAppend(s0, before + [StartCall(r)], after);
    RunAppend(s0, before, [StartCall(r)]);
    RunBeforeStart(s0, before);
    var started := Step(s0, StartCall(r));
    assert started == State(Committed(zero, r), Loaded, NotStarted, [Classify(r)]);
    RunWhileLoaded(started, after);
    assert ([r] + Reloads(after))[1..] == Reloads(after);
  }

  /** A start, successful or not, can never be followed by another start that
      gets past the check. */
  lemma SecondStartFails<T>(zero: T, before: seq<Call<T>>, r: LoaderResult<T>, after: seq<Call<T>>,
                            r2: LoaderResult<T>)
    requires forall i :: 0 <= i < |before| ==> !before[i].StartCall?
    ensures var s := Run(New(zero), before + [StartCall(r)] + after);
            StartStep(s, r2) == Transition(s, Err(LoadStateNotZero))
  {
    RunFromNew(zero, before, r, after);
  }

  /** A failed first load still leaves the slot marked loaded, holding the
      zero value, and the error is returned. */
  lemma FailedStartLeavesLoaded<T>(zero: T, r: LoaderResult<T>)
    requires r.Failure?
    ensures StartStep(New(zero), r) == Transition(State(zero, Loaded, NotStarted, [Classify(r)]), Err(r.error))
  {
  }

  /** After a successful start, reload failures of any kind keep the last
      good value for as long as they go on. */
  lemma {:induction false} FailedReloadsKeepValue<T>(s: State<T>, calls: seq<Call<T>>)
    requires Valid(s) && s.loadState == Loaded
    requires forall i :: 0 <= i < |calls| ==> !calls[i].LoadCall? || calls[i].result.Failure?
    ensures Run(s, calls).value == s.value
    decreases |calls|
  {
    if calls != [] {
      FailedReloadsKeepValue(Step(s, calls[0]), calls[1..]);
    }
  }

  /** While a load is in flight (from a start or a reload), a reentrant or
      concurrent reload returns nil without invoking the loader, and a start
      is refused: at most one loader invocation runs at a time. */
  lemma NoSecondLoaderWhileLoading<T>(s: State<T>, r: LoaderResult<T>)
    requires s.loadState == Loading
    ensures ReloadStep(s, r) == Transition(s, Nil)
    ensures StartStep(s, r) == Transition(s, Err(LoadStateNotZero))
  {
  }

  /** Whatever calls a new slot has seen, close changes nothing. */
  lemma CloseNeverActs<T>(zero: T, calls: seq<Call<T>>)
    ensures CloseStep(Run(New(zero), calls)) == Run(New(zero), calls)
  {
    assert Valid(New(zero));
  }

  /** A slot in memory. `value` is read by `Get` and replaced only by a
      successful load; `loadState` and `startState` are the two flags. */
  class LoopLoad<T> {
    const name: string
    const metricsName: string
    const opts: Opts.Options

    var value: T
    var startState: int
    var loadState: int
    ghost var outcomes: seq<Code>

    ghost function Snapshot(): State<T>
      reads this
    {
      State(value, loadState, startState, outcomes)
    }

    /** `New`: `zero` stands for the zero value of T. */
    constructor (name: string, zero: T, options: seq<Opts.Option>)
      ensures this.name == name && metricsName == "loopload_" + name
      ensures Snapshot() == New(zero) && Valid(Snapshot())
      ensures fresh(opts) && opts.reloadTime == Opts.Configured(Opts.Minute, options)
    {
      this.name := name;
      metricsName := "loopload_" + name;
      var o := Opts.NewOptions(options);
      opts := o;
      value := zero;
      startState := NotStarted;
      loadState := NotLoaded;
      outcomes := [];
    }

    /** `start`: the first load, run synchronously. The background ticker it
        launches on success is not part of this model. */
    method Start(r: LoaderResult<T>) returns (err: MaybeError)
      modifies this
      ensures Transition(Snapshot(), err) == StartStep(old(Snapshot()), r)
    {
      if loadState != NotLoaded {
        return Err(LoadStateNotZero);
      }
      loadState := Loading;
      err := RunLoader(r);
      // the deferred store runs on both return paths
      loadState := Loaded;
    }

    /** `close`. */
    method Close()
      modifies this
      ensures Snapshot() == CloseStep(old(Snapshot()))
    {
      if startState != Started {
        return;
      }
      startState := NotStarted;
    }

    /** `Load`: an on-demand reload. */
    method Load(r: LoaderResult<T>) returns (err: MaybeError)
      modifies this
      ensures Transition(Snapshot(), err) == ReloadStep(old(Snapshot()), r)
    {
      if loadState != Loaded {
        return Nil;
      }
      loadState := Loading;
      err := RunLoader(r);
      // the deferred store
      loadState := Loaded;
    }

    /** One tick of the background ticker: a reload whose error is dropped. */
    method Tick(r: LoaderResult<T>)
      modifies this
      ensures Snapshot() == ReloadStep(old(Snapshot()), r).state
    {
      var ignored := Load(r);
    }

    /** `load`: one loader invocation and its outcome. */
    method RunLoader(r: LoaderResult<T>) returns (err: MaybeError)
      modifies this`value, this`outcomes
      ensures Transition(Snapshot(), err) == LoadStep(old(Snapshot()), r)
    {
      match r
      case Failure(e) =>
        if e == DeadlineExceeded || e == Canceled {
          outcomes := outcomes + [Exception];
          return Err(e);
        }
        if e.Panicked? {
          outcomes := outcomes + [Exception];
        } else {
          outcomes := outcomes + [Fail];
        }
        return Err(e);
      case Ok(v) =>
        outcomes := outcomes + [Success];
        value := v;
        return Nil;
    }

    /** `Get`: a plain read of the current value. */
    method Get() returns (v: T)
      ensures v == value
    {
      v := value;
    }
  }
}
