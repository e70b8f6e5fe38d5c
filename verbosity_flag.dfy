/**
 * The repeated `-v`/`-q` counters that `GlobalArguments` flattens in through
 * `Verbosity<InfoLevel>`, and the filter they stand for.
 *
 * This behaviour belongs to the `clap_verbosity_flag` crate (and to the
 * `log` crate's `LevelFilter`, which it re-exports); neither is part of the
 * repository. Everything in this module is therefore a stated ASSUMPTION
 * about that crate: the count starts at the baseline level, each `-v` goes
 * one step towards `Trace`, each `-q` one step towards `Off`, and the net
 * result is clamped to `Off..Trace`.
 */
module VerbosityFlag {

  /** `log::LevelFilter`, listed from least to most verbose. */
  datatype LevelFilter = Off | Error | Warn | Info | Debug | Trace

  /** Position in the derived order of `log::LevelFilter`: `Off` is 0, `Trace` is 5. */
  function Rank(f: LevelFilter): (n: nat)
    ensures n <= 5
    ensures f == Off <==> n == 0
    ensures f == Trace <==> n == 5
  {
    match f
    case Off => 0
    case Error => 1
    case Warn => 2
    case Info => 3
    case Debug => 4
    case Trace => 5
  }

  /** The `<` of the derived ordering: `a` lets fewer records through than `b`. */
  predicate Below(a: LevelFilter, b: LevelFilter)
  {
    Rank(a) < Rank(b)
  }

  /** `LevelFilter::as_str`: the upper-case name of the filter. */
  function AsStr(f: LevelFilter): string
  {
    match f
    case Off => "OFF"
    case Error => "ERROR"
    case Warn => "WARN"
    case Info => "INFO"
    case Debug => "DEBUG"
    case Trace => "TRACE"
  }

  /** Numeric verbosity of a filter: `Off` is -1, `Error` 0, up to `Trace` 4. */
  function Value(f: LevelFilter): int
  {
    Rank(f) - 1
  }

  /** The filter for a numeric verbosity; values past either end are clamped. */
  function FromValue(v: int): (f: LevelFilter)
    ensures -1 <= v <= 4 ==> Value(f) == v
    ensures v <= -1 ==> f == Off
    ensures 4 <= v ==> f == Trace
  {
    if v <= -1 then Off
    else if v == 0 then Error
    else if v == 1 then Warn
    else if v == 2 then Info
    else if v == 3 then Debug
    else Trace
  }

  /** `FromValue` undoes `Value`: every filter is reached by exactly its own value. */
  lemma FromValueOfValue(f: LevelFilter)
    ensures FromValue(Value(f)) == f
  {
  }

  /** The default level of `Verbosity<InfoLevel>`, before any `-v` or `-q`. */
  const Baseline: LevelFilter := Info

  /** The flag counters of `Verbosity<InfoLevel>`: how often `-v` and `-q` were given. */
  datatype Verbosity = Verbosity(verbose: nat, quiet: nat)

  /** `Verbosity::log_level_filter`: the baseline moved by the net count, then clamped. */
  function LogLevelFilter(v: Verbosity): LevelFilter
  {
    FromValue(Value(Baseline) + v.verbose - v.quiet)
  }

  /** One step more verbose; `Trace` stays `Trace`. */
  function Up(f: LevelFilter): (g: LevelFilter)
    ensures f != Trace ==> Rank(g) == Rank(f) + 1
    ensures f == Trace ==> g == Trace
  {
    match f
    case Off => Error
    case Error => Warn
    case Warn => Info
    case Info => Debug
    case Debug => Trace
    case Trace => Trace
  }

  /** One step less verbose; `Off` stays `Off`. */
  function Down(f: LevelFilter): (g: LevelFilter)
    ensures f != Off ==> Rank(g) + 1 == Rank(f)
    ensures f == Off ==> g == Off
  {
    match f
    case Off => Off
    case Error => Off
    case Warn => Error
    case Info => Warn
    case Debug => Info
    case Trace => Debug
  }

  /** `n` repeated steps up: the reference reading of "each `-v` raises one step". */
  function Raise(f: LevelFilter, n: nat): LevelFilter
    decreases n
  {
    if n == 0 then f else Raise(Up(f), n - 1)
  }

  /** `n` repeated steps down: the reference reading of "each `-q` lowers one step". */
  function Lower(f: LevelFilter, n: nat): LevelFilter
    decreases n
  {
    if n == 0 then f else Lower(Down(f), n - 1)
  }

  /** Adding `n` to a value inside or above the range is `n` steps up. */
  lemma {:induction false} RaiseIsAddition(v: int, n: nat)
    requires -1 <= v
    ensures FromValue(v + n) == Raise(FromValue(v), n)
    decreases n
  {
    if n > 0 {
      assert FromValue(v + 1) == Up(FromValue(v));
      RaiseIsAddition(v + 1, n - 1);
    }
  }

  /** Subtracting `n` from a value inside or below the range is `n` steps down. */
  lemma {:induction false} LowerIsSubtraction(v: int, n: nat)
    requires v <= 4
    ensures FromValue(v - n) == Lower(FromValue(v), n)
    decreases n
  {
    if n > 0 {
      assert FromValue(v - 1) == Down(FromValue(v));
      LowerIsSubtraction(v - 1, n - 1);
    }
  }

  /**
   * The count-derived filter is the baseline moved by the NET count: `k` more
   * `-v` than `-q` is `k` steps up, `k` more `-q` than `-v` is `k` steps down.
   * With no flags at all it is the `Info` baseline.
   */
  lemma CountIsNetSteps(v: Verbosity)
    ensures v.verbose >= v.quiet ==> LogLevelFilter(v) == Raise(Baseline, v.verbose - v.quiet)
    ensures v.verbose < v.quiet ==> LogLevelFilter(v) == Lower(Baseline, v.quiet - v.verbose)
    ensures v.verbose == v.quiet ==> LogLevelFilter(v) == Info
  {
    FromValueOfValue(Baseline);
    if v.verbose >= v.quiet {
      RaiseIsAddition(Value(Baseline), v.verbose - v.quiet);
    } else {
      LowerIsSubtraction(Value(Baseline), v.quiet - v.verbose);
    }
  }

  /** One more `-v` never makes the filter less verbose; one more `-q` never makes it more. */
  lemma CountIsMonotone(v: Verbosity)
    ensures Rank(LogLevelFilter(Verbosity(v.verbose + 1, v.quiet))) >= Rank(LogLevelFilter(v))
    ensures Rank(LogLevelFilter(Verbosity(v.verbose, v.quiet + 1))) <= Rank(LogLevelFilter(v))
  {
  }
}
