/**
 * The `tracing` crate's `LevelFilter` and its `FromStr` conversion, through
 * which the command line turns a `log` filter name into the filter handed to
 * the logging sink.
 *
 * The `tracing` crate is not part of the repository; this module is a
 * stated ASSUMPTION about it: a name parses when it equals one of the six
 * filter names ignoring ASCII case, and the empty string parses as `ERROR`.
 */
module Tracing {

  import opened Wrappers

  /** `tracing::level_filters::LevelFilter`, listed from least to most verbose. */
  datatype LevelFilter = OFF | ERROR | WARN | INFO | DEBUG | TRACE

  /** Position from least to most verbose: `OFF` is 0, `TRACE` is 5. */
  function Rank(f: LevelFilter): (n: nat)
    ensures n <= 5
    ensures f == OFF <==> n == 0
    ensures f == TRACE <==> n == 5
  {
    match f
    case OFF => 0
    case ERROR => 1
    case WARN => 2
    case INFO => 3
    case DEBUG => 4
    case TRACE => 5
  }

  /** The more verbose of two filters. */
  function Max(a: LevelFilter, b: LevelFilter): (m: LevelFilter)
    ensures m == a || m == b
    ensures Rank(m) >= Rank(a) && Rank(m) >= Rank(b)
  {
    if Rank(a) >= Rank(b) then a else b
  }

  /** The name each filter is recognised by. */
  function Name(f: LevelFilter): string
  {
    match f
    case OFF => "off"
    case ERROR => "error"
    case WARN => "warn"
    case INFO => "info"
    case DEBUG => "debug"
    case TRACE => "trace"
  }

  /** ASCII lower-casing of one character; every other character is kept. */
  function AsciiLower(c: char): (d: char)
    ensures 'A' <= c <= 'Z' ==> 'a' <= d <= 'z'
    ensures !('A' <= c <= 'Z') ==> d == c
  {
    if 'A' <= c <= 'Z' then (c as int + 32) as char else c
  }

  /** `str::eq_ignore_ascii_case`. */
  predicate EqIgnoreAsciiCase(a: string, b: string)
  {
    |a| == |b| && forall i :: 0 <= i < |a| ==> AsciiLower(a[i]) == AsciiLower(b[i])
  }

  /** `LevelFilter::from_str` on filter names. */
  function FromStr(s: string): (r: Option<LevelFilter>)
    ensures r.Some? ==> s == "" || EqIgnoreAsciiCase(s, Name(r.value))
    ensures r == None ==> forall f :: !EqIgnoreAsciiCase(s, Name(f))
  {
    if s == "" then Some(ERROR)
    else if EqIgnoreAsciiCase(s, "error") then Some(ERROR)
    else if EqIgnoreAsciiCase(s, "warn") then Some(WARN)
    else if EqIgnoreAsciiCase(s, "info") then Some(INFO)
    else if EqIgnoreAsciiCase(s, "debug") then Some(DEBUG)
    else if EqIgnoreAsciiCase(s, "trace") then Some(TRACE)
    else if EqIgnoreAsciiCase(s, "off") then Some(OFF)
    else None
  }

  /** No string matches the names of two different filters. */
  lemma NamesAreDistinct(s: string, f: LevelFilter, g: LevelFilter)
    requires f != g
    ensures !(EqIgnoreAsciiCase(s, Name(f)) && EqIgnoreAsciiCase(s, Name(g)))
  {
    if |s| == |Name(f)| == |Name(g)| {
      var i := DifferingIndex(f, g);
      assert AsciiLower(s[i]) != AsciiLower(Name(f)[i]) || AsciiLower(s[i]) != AsciiLower(Name(g)[i]);
    }
  }

  /** An index at which the names of two different filters of equal length differ. */
  lemma DifferingIndex(f: LevelFilter, g: LevelFilter) returns (i: nat)
    requires f != g && |Name(f)| == |Name(g)|
    ensures i < |Name(f)| && AsciiLower(Name(f)[i]) != AsciiLower(Name(g)[i])
  {
    i := 0;
  }

  /** Every filter's name parses back to that filter, in any ASCII case. */
  lemma ParsesOwnName(f: LevelFilter, s: string)
    requires EqIgnoreAsciiCase(s, Name(f))
    ensures FromStr(s) == Some(f)
  {
    assert s != "";
    var g := FromStr(s).value;
    if g != f {
      NamesAreDistinct(s, f, g);
    }
  }
}
