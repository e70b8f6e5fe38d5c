# Verbosity resolution of the `aldm` command line

This project models the verbosity-resolution policy of the `aldm` command
line (`CliModifier for GlobalArguments`). The global flags are `--json`,
`--plain`, `--debug` and the repeated `-v`/`-q` counters of
`Verbosity<InfoLevel>`. The policy merges them into the one optional
`tracing` level filter given to the logging sink. It also decides whether
output is uncoloured and whether it is JSON.

Modules:

- `Cli` (`cli.dfy`): the `GlobalArguments` record and `verbosity_filter`,
  `is_uncolored` and `is_json` as functions. Lemmas give each precedence
  case and a flat reference rule equal to the precedence chain.
- `VerbosityFlag` (`verbosity_flag.dfy`): `log::LevelFilter` with its order
  and names, and the `-v`/`-q` count-to-filter step of `clap_verbosity_flag`.
  This crate is not in the repository, so the module states an assumption:
  start at the `Info` baseline, go one step up per `-v` and one step down per
  `-q`, and clamp the net result to `Off..Trace`. Lemmas tie this to repeated
  single steps.
- `Tracing` (`tracing_filter.dfy`): `tracing`'s `LevelFilter` and its
  `FromStr` on names. This is also an assumption about a foreign crate: a
  name matching one of the six filter names, ignoring ASCII case, parses to
  that filter, and the empty string parses as `ERROR`.
- `Wrappers` (`wrappers.dfy`): `Option`.

The code never returns `None`: the name round trip at the end of
`verbosity_filter` always succeeds (`Cli.VerbosityFilterIsSome`). So with no
flags at all the result is `Some(INFO)`, the `Info` baseline, and not "no
filter, use the ambient default". The model follows the code. The `Off`
filter, reachable with `-q`, is modelled too.

## Model

| member | source | states |
|---|---|---|
| Cli.MachineReadableForcesInfo | src/ui/cli.rs:36-38 | with `--plain` or `--json` the result is `Some(INFO)`, and changing `--debug` or the counters does not change it |
| Cli.DebugRaisesToDebug | src/ui/cli.rs:40-46 | with no machine-readable flag, `--debug` set and a count-derived filter below `Debug`, the result is `Some(DEBUG)` |
| Cli.DebugNoEffectWhenDeep | src/ui/cli.rs:44-51 | when the count already gives `Debug` or `Trace`, the result is that same-named filter and toggling `--debug` does not change it |
| Cli.PlainCountCarriedOver | src/ui/cli.rs:48-51 | with no `--json`/`--plain`/`--debug`, the result is the count-derived filter carried over by name; with equal `-v` and `-q` counts (none at all included) it is `INFO` |
| Cli.NeverLessVerboseThanCount | src/ui/cli.rs:40-51 | outside machine-readable modes the result is never less verbose than the count-derived filter, and it differs from that filter only when `--debug` is set |
| Cli.MatchesReferenceRule | src/ui/cli.rs:35-52 | the early-return chain equals a flat rule: `INFO` in machine-readable modes, otherwise the count's filter, raised to at least `DEBUG` under `--debug` |
| Cli.VerbosityFilterIsSome | src/ui/cli.rs:35-52 | `verbosity_filter` is total and always returns a filter, never `None` |
| Cli.ConvertByNameKeepsLevel | src/ui/cli.rs:48-51 | printing a `log` filter's name and parsing it as a `tracing` filter gives the same-named filter for all six levels, so this step never gives `None` |
| Cli.SameNamed | src/ui/cli.rs:48-51 | the name-for-name correspondence between the two filter types keeps the verbosity order |
| Cli.UncoloredMeansInfo | src/ui/cli.rs:54-56 | `is_uncolored` holds exactly when `--plain` or `--json` is set, and then `verbosity_filter` is `Some(INFO)` |
| Cli.IsJsonOnlyFollowsJsonFlag | src/ui/cli.rs:58-60 | `is_json` equals `--json`, depends on no other flag, and implies `is_uncolored` |
| VerbosityFlag.CountIsNetSteps | src/ui/cli.rs:119-120 | the count-derived filter is the `Info` baseline moved up by `-v` minus `-q` steps, or down by `-q` minus `-v` steps; equal counts give `Info` |
| VerbosityFlag.RaiseIsAddition | src/ui/cli.rs:40-42 | adding `n` to a numeric verbosity at or above `Off` equals taking `n` single clamped steps up |
| VerbosityFlag.LowerIsSubtraction | src/ui/cli.rs:40-42 | subtracting `n` from a numeric verbosity at or below `Trace` equals taking `n` single clamped steps down |
| VerbosityFlag.CountIsMonotone | src/ui/cli.rs:40-42 | one more `-v` never gives a less verbose filter, and one more `-q` never gives a more verbose one |
| VerbosityFlag.FromValue | src/ui/cli.rs:40-42 | numeric verbosities from -1 to 4 map back to the filter with that value, and values past either end clamp to `Off` or `Trace` |
| VerbosityFlag.FromValueOfValue | src/ui/cli.rs:40-42 | every filter is recovered from its own numeric value |
| VerbosityFlag.Rank | src/ui/cli.rs:44 | the derived order of `log::LevelFilter` used by the `< Debug` test runs from `Off` (0) to `Trace` (5) |
| Tracing.FromStr | src/ui/cli.rs:48-51 | a successful parse means the input was empty or matched that filter's name ignoring ASCII case, and `None` means it matched no name |
| Tracing.ParsesOwnName | src/ui/cli.rs:48-51 | any string equal to a filter's name, ignoring ASCII case, parses to that filter |
| Tracing.NamesAreDistinct | src/ui/cli.rs:48-51 | no string matches the names of two different filters, so the parse is unambiguous |

## Left out

- `Cli::run_app` (src/ui/cli.rs:3-24): argument parsing through clap, the call to `init_log`, and the `tracing` log emissions with ANSI colours are I/O.
- The logging sink (`InitLog`, its non-blocking writer and the `WorkerGuard` flush-on-drop lifetime): `app/logging` is not part of this model, and the background writer is concurrency inside a foreign crate.
- The clap derive attributes and `CliTemplate` (src/ui/cli.rs:91-129) are parser configuration. Only the flag fields of `GlobalArguments` are modelled.
- The snafu error enums (src/ui/cli.rs:63-69, src/app/mod.rs:9-19), the `RunApp` trait and the `APP_NAME` constant (src/app/mod.rs:1-7) declare things and do nothing.
- VerbosityFlag.LogLevelFilter: `clap_verbosity_flag`'s count arithmetic is foreign code and is modelled as the stated assumption above. The counters are unbounded naturals, so the crate's 8-bit counters and signed 8-bit sum are not modelled. Nor is any wrap-around or saturation for hundreds of repeated flags.
- Tracing.FromStr: `tracing`'s numeric spellings (`"0"` to `"5"`) are not modelled. `verbosity_filter` only ever parses the six upper-case names, so this does not change any result here.
