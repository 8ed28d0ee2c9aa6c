/** The options of a self-refreshing slot: a record holding the reload
    interval, built from a default and then changed in place by each option
    in turn (loopload/opts.go). */
module Opts {

  /** A Go `time.Duration`: a signed count of nanoseconds. */
  type Duration = int

  const Nanosecond: Duration := 1
  const Second: Duration := 1_000_000_000 * Nanosecond
  const Minute: Duration := 60 * Second

  /** An option. The package exports one way to make one, `WithReloadTime(t)`,
      whose closure stores `t` into the record it is given. */
  datatype Option = WithReloadTime(t: Duration)

  /** The options record (`options`). */
  class Options {
    var reloadTime: Duration

    constructor (reloadTime: Duration)
      ensures this.reloadTime == reloadTime
    {
      this.reloadTime := reloadTime;
    }
  }

  /** Runs an option's closure on `opts`: the reload interval becomes exactly
      the option's duration, with no validation or clamping. */
  method Apply(o: Option, opts: Options)
    modifies opts
    ensures opts.reloadTime == o.t
  {
    match o
    case WithReloadTime(t) =>
      opts.reloadTime := t;
  }

  /** The reload interval left in a record that held `reloadTime` once
      `opts` have been applied to it, first to last. */
  function Configured(reloadTime: Duration, opts: seq<Option>): Duration
    decreases |opts|
  {
    if opts == [] then reloadTime else Configured(opts[0].t, opts[1..])
  }

  /** Applying options in order means the last one decides. */
  lemma {:induction false} LastOptionWins(reloadTime: Duration, opts: seq<Option>)
    ensures Configured(reloadTime, opts) == if opts == [] then reloadTime else opts[|opts| - 1].t
    decreases |opts|
  {
    if |opts| > 1 {
      LastOptionWins(opts[0].t, opts[1..]);
    }
  }

  /** `newOptions`: a fresh record holding one minute, then every option
      applied to it in order. The option list itself is a value and is not
      changed. */
  method NewOptions(opts: seq<Option>) returns (r: Options)
    ensures fresh(r)
    ensures r.reloadTime == Configured(Minute, opts)
    ensures opts == [] ==> r.reloadTime == Minute
    ensures opts != [] ==> r.reloadTime == opts[|opts| - 1].t
  {
    r := new Options(Minute);
    for i := 0 to |opts|
      invariant Configured(r.reloadTime, opts[i..]) == Configured(Minute, opts)
    {
      assert opts[i..][1..] == opts[i + 1..];
      Apply(opts[i], r);
    }
    assert opts[|opts|..] == [];
    LastOptionWins(Minute, opts);
  }
}
