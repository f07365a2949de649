# Simulation launcher, modelled in Dafny

This project models the core of a simulation launcher, `src/simulation.rs`. The launcher loads a JSON config, validates it, and provisions a fresh numbered run directory. It writes a copy of the config into that directory and opens a line-delimited result file beside it. It builds a `Simulation` from the config. `launch` then runs the simulation's integrator. In batch mode it does this for every `conf` file in an input directory, stopping at the first failure. A run ends with one of three log outcomes:

- success, logged as info;
- the integrator's step limit, logged as a warning;
- any other error, reported with its whole cause chain on stderr and in the log.

A fresh run whose integrator fails to initialise logs nothing: `launch` returns that error at once (`Properties.LaunchStopsWhenInitialiseFails`).

## How the model is built

- **Collaborators.** Every call the launcher makes is recorded as an `Event` in a history (`Lifecycle.Trace`). This covers:
  - the file helpers `collect_files_from_dir_path`, `deserialize_json_from_path`, `create_incremented_directory`, `serialize_json_to_path` and `OutputFile::new`;
  - the integrator's `initialise` and `integrate`;
  - the log;
  - stderr.

  A `Lifecycle.World` answers each call as a function of the history before it. Results are therefore proved for any deterministic file system and any integrator.
- **Specification functions.** `Lifecycle` states each operation as a pure function of the world and the history. The function returns the result together with the new history:
  - `SetupRun`/`ProvisionRun` for `setup`;
  - `Collect`/`SetupBatch` and `Resolve` for `new`;
  - `LaunchRun`, `FailureReport` and `Flattened` for `launch`, `log_failure` and `log_error_chain`.
- **Imperative model.** In `Launcher`, the class `Host` keeps the history in a field and runs the source's steps one at a time. For example, `Provision` mutates `outpath` in place with two `set_extension` calls, `SetupEach` is the batch loop, and `FlattenChain` is the `push_str` loop. Each method is proved to produce exactly its specification function's result and history.
- **Paths (`Paths`).** Rust's `Path` on a Unix host is modelled as the component sequence `components()` yields, with names as bytes. The model covers `file_name`, `file_stem`, `extension` (via `rsplit_file_at_dot`), `set_extension` and the push of a single name that `join` does here. It keeps Rust's exact behaviour for dotted stems: the input `a.b.conf` is run as `a.b`, and its files are `a.conf` and `a.jsonl`. The run name is the stem when it is valid UTF-8 (`Text.IsUtf8`, following Table 3-7 of the Unicode Standard).
- **Errors (`Errors`).** An `anyhow::Error` is reduced to the messages of its cause chain. The integrator's error is either `StepLimitReached { x, n_step }` or some other failure.
- **Properties.** `Properties` holds the properties as lemmas. The batch property is proved once for any setup routine that keeps the per-entry footprint (`Properties.WellBehaved`), and then for the launcher's own setup.

Two behaviours of the code are easy to miss, and the model keeps both:

- **A failed batch is not atomic.** Batch mode sets its entries up one after another, so a failing entry leaves behind the run directory, the config copy and the result file of every entry before it (`Properties.BatchIsNotAtomic`). Validation comes before directory creation only within a single entry.
- **Dot-only names escape the run directory.** An input named `..conf` has the run name `.`, and `join(".")` adds nothing. Its config copy and its result file are therefore written beside the run directory, as `<run_dir>.conf` and `<run_dir>.jsonl` (`Properties.DotRunNameEscapesRunDir`). An input named `...conf` has the run name `..`, which `join` keeps as `run_dir/..`. That path has no file name, so neither `set_extension` changes it, and both the config copy and the result file are aimed at `run_dir/..`, the output directory itself (`Properties.DoubleDotRunNameTargetsOutputDir`).

## Model

| member | source | states |
|---|---|---|
| `Lifecycle.InputConfig` | src/simulation.rs:35-44 | the config record with `resume`, `initial_time`, `final_time`, `integrator` and `universe`; the integrator and universe types are parameters |
| `Lifecycle.Simulation` | src/simulation.rs:47-57 | the prepared run with `name`, `resume`, `initial_time`, `final_time`, `integrator` and `system`; the `_phantom` marker is dropped |
| `Lifecycle.System` | src/simulation.rs:123 | `System::new(outfile, universe)`: the result file bundled with the universe |
| `Errors.IntegratorError` | src/simulation.rs:173-175 | the integrator's error: `StepLimitReached { x, n_step }`, or any other failure with its chain |
| `Launcher.Host.CollectFiles` | src/simulation.rs:81 | records the listing of the input directory; the world answers it with any list or error |
| `Launcher.Host.DeserializeConfig` | src/simulation.rs:94 | records the read of the config; the world answers it with any config or error |
| `Launcher.Host.CreateIncrementedDirectory` | src/simulation.rs:111 | records the request for a fresh run directory under the output path; the world answers it with any path or error |
| `Launcher.Host.SerializeConfig` | src/simulation.rs:115 | records the write of the config copy to its path; the world answers it with success or any error |
| `Launcher.Host.OpenOutputFile` | src/simulation.rs:119 | records the opening of the result file; the world answers it with success or any error |
| `Launcher.Host.Initialise` | src/simulation.rs:141 | records `initialise` with the time span and initial values; the world answers it with any new integrator state or error |
| `Launcher.Host.Integrate` | src/simulation.rs:146 | records the integration run on the system; the world answers it with any stats or integrator error |
| `Launcher.Host.Log` | src/simulation.rs:145-190 | appends one log record to the history |
| `Launcher.Host.Eprint` | src/simulation.rs:189 | appends one stderr line to the history |
| `Launcher.Host.Setup` | src/simulation.rs:92-134 | makes exactly the calls of `SetupRun`, in its order, and returns its result: read, validate, then provision |
| `Launcher.Host.Provision` | src/simulation.rs:110-133 | one run directory, then the config copy at `run_dir/name` set to `conf`, then the result file at the same path re-set to `jsonl`, then the simulation |
| `Launcher.Host.New` | src/simulation.rs:80-89 | batch mode lists the input and sets up its `conf` entries; single mode yields a one-element list or the setup error |
| `Launcher.Host.SetupEach` | src/simulation.rs:81-85 | the loop sets the entries up in order and stops at the first error, with the history of `SetupBatch` |
| `Launcher.Host.Launch` | src/simulation.rs:137-152 | initialises only a fresh run and propagates that error, then logs the start, integrates once, logs the outcome and returns `Ok` |
| `Launcher.Host.LogFailure` | src/simulation.rs:172-182 | a step-limit stop is one warning; any other error is reported through the error chain with the abort prefix |
| `Launcher.Host.LogErrorChain` | src/simulation.rs:185-191 | stderr gets `Error: ` plus the flattened message, then the log gets the same message |
| `Launcher.FlattenChain` | src/simulation.rs:185-188 | the loop yields the prefix followed by `": " + cause` for every cause, in chain order |
| `Lifecycle.RunName` | src/simulation.rs:104-108 | a name exists iff the input has a file stem that is valid UTF-8; it is that stem, non-empty and slash-free |
| `Lifecycle.ConfigEntries` | src/simulation.rs:83 | a path is kept iff it was listed and its extension is exactly `conf`; no more entries than listed |
| `Lifecycle.ExtensionsAreSimple` | src/simulation.rs:114-118 | `conf` and `jsonl` are non-empty and hold no separator and no dot |
| `Lifecycle.SetupBatchUnfold` | src/simulation.rs:84-85 | one step of the collection: a failing first entry ends it, otherwise its simulation leads the rest |
| `Errors.Message` | src/simulation.rs:99-102 | an `ensure!`/`anyhow!` error has a one-message chain |
| `Errors.Context` | src/simulation.rs:94-97 | `.context(msg)` puts `msg` in front of the inner chain |
| `Text.LeadingSequenceLength` | src/simulation.rs:106 | the byte ranges of Table 3-7 for the sequence at the front; the contract bounds the length by 4 and by the input |
| `Text.Utf8BoundaryCases` | src/simulation.rs:106 | a lone continuation byte, an overlong form, a surrogate, a code point above U+10FFFF and a truncated sequence are rejected; the last forms inside the table are accepted |
| `Text.AsciiIsUtf8` | src/simulation.rs:106 | every ASCII byte string passes the UTF-8 check |
| `Text.LeadingSequenceInPrefix` | src/simulation.rs:106 | a well-formed sequence at the front of a string is read the same whatever follows it |
| `Text.Utf8Concat` | src/simulation.rs:106 | after a valid prefix, a string is valid iff the rest is: valid strings concatenate and a valid prefix can be split off |
| `Paths.FileNameOfJoin` | src/simulation.rs:111 | `file_name` of `p.join(name)` is `name` for a normal name, and a path with a file name is its parent joined with it |
| `Paths.SplitAtDot` | src/simulation.rs:105 | `rsplit_file_at_dot`: `..` and names whose only dot leads stay whole, otherwise the name splits at its last dot; stated by `Paths.SplitName` and `Paths.SplitNameUnique` |
| `Paths.StemOf` | src/simulation.rs:105 | the stem of a file name, `before.or(after)` of the split; stated by `Paths.SplitName` |
| `Paths.ExtensionOf` | src/simulation.rs:83 | the extension of a file name, `before.and(after)` of the split; stated by `Paths.SplitName` and `Paths.SplitNameUnique` |
| `Paths.FileStem` | src/simulation.rs:105 | `file_stem`: the stem of the file name, none without one; stated by `Lifecycle.RunName` and `Properties.DottedInputRunName` |
| `Paths.Extension` | src/simulation.rs:83 | `extension`: the extension of the file name, none without one; stated by `Lifecycle.ConfigEntries` and `Paths.SetExtensionReplacesLastDotSegment` |
| `Paths.Join` | src/simulation.rs:111 | `join` of one slash-free name: a normal name is appended, `.` adds nothing to a non-empty path and gives `.` on an empty one, `..` adds a parent step; stated by `Paths.FileNameOfJoin` |
| `Paths.SetExtension` | src/simulation.rs:114-118 | `set_extension`: cut after the stem and append `.ext`, or leave a path without a file name as it is; stated by the three `Paths.SetExtension*` lemmas |
| `Paths.Render` | src/simulation.rs:96 | `display`: the components joined by `/`; it appears in the load error of `Properties.SetupRejectionMessages` |
| `Text.IsUtf8` | src/simulation.rs:106 | `to_str` succeeds iff the bytes split into well-formed sequences; stated by `Text.Utf8Concat`, `Text.AsciiIsUtf8` and `Text.Utf8BoundaryCases` |
| `Lifecycle.SetupRun` | src/simulation.rs:92-134 | `setup` as a function of the world and the history; `Launcher.Host.Setup` is proved equal to it and `Properties.Setup*` state its behaviour |
| `Lifecycle.ProvisionRun` | src/simulation.rs:110-133 | the provisioning half of `setup`; `Launcher.Host.Provision` is proved equal to it and `Properties.ProvisionFootprint` states its calls |
| `Lifecycle.ConfigCopyPath` | src/simulation.rs:111-114 | `run_dir.join(name)` with extension `conf`; stated by `Properties.RunFilesSitInRunDir` and the dotted-name lemmas |
| `Lifecycle.ResultFilePath` | src/simulation.rs:111-118 | the same path re-set to `jsonl`; stated by `Properties.RunFilesSitInRunDir` and the dotted-name lemmas |
| `Lifecycle.Collect` | src/simulation.rs:84-85 | the short-circuiting `collect` of setups over a list of entries; stated by the `Properties.Collect*` lemmas |
| `Lifecycle.SetupBatch` | src/simulation.rs:84-85 | `Collect` with the launcher's own setup; `Launcher.Host.SetupEach` is proved equal to it and `Properties.Batch*` state its behaviour |
| `Lifecycle.Resolve` | src/simulation.rs:80-89 | `new` for batch and single mode; `Launcher.Host.New` is proved equal to it and `Properties.ResolveModes` states both modes |
| `Lifecycle.LaunchRun` | src/simulation.rs:137-152 | `launch` as a function of the world and the history; `Launcher.Host.Launch` is proved equal to it and `Properties.Launch*` state its behaviour |
| `Lifecycle.FailureReport` | src/simulation.rs:172-182 | `log_failure`'s output; `Launcher.Host.LogFailure` is proved equal to it and `Properties.FailureIsClassified` states its two forms |
| `Lifecycle.AbortPrefix` | src/simulation.rs:180 | the text `Aborting simulation <name> due to failure.` that starts the flattened message |
| `Lifecycle.Suffixes` | src/simulation.rs:186-188 | the `": " + cause` pieces pushed for the causes, in order; stated by `Properties.SuffixesConcat` and `Properties.CauseAt` |
| `Lifecycle.Flattened` | src/simulation.rs:185-188 | the prefix followed by the suffixes; `Launcher.FlattenChain` is proved equal to it and `Properties.CauseAt` places every cause in it |
| `Lifecycle.ErrorReport` | src/simulation.rs:189-190 | the stderr line `Error: m` and then the error record `m`; `Launcher.Host.LogErrorChain` is proved equal to it |
| `Paths.LastDot` | src/simulation.rs:105 | the index of the last dot, or -1; no dot follows it |
| `Paths.SplitName` | src/simulation.rs:105 | a normal file name is its non-empty stem, or its stem, a dot and a dot-free extension |
| `Paths.SplitNameUnique` | src/simulation.rs:83 | a non-empty stem, a dot and a dot-free tail split back into that stem and that extension |
| `Paths.SplitNameHasNoSlash` | src/simulation.rs:104-108 | stems and extensions of slash-free names are slash-free |
| `Paths.SetExtensionReplacesLastDotSegment` | src/simulation.rs:114 | only the last component changes; it keeps its stem and reads back the new extension |
| `Paths.SetExtensionWithoutFileName` | src/simulation.rs:114 | without a file name `set_extension` leaves the path as it was |
| `Paths.SetExtensionTwice` | src/simulation.rs:114-118 | setting `conf` and then `jsonl` on the same path is setting `jsonl` once |
| `Properties.SetupValidatesBeforeCreating` | src/simulation.rs:94-111 | an unreadable config, an empty span or a missing/non-UTF-8 name fails after the read alone; a run directory is requested iff all three checks pass |
| `Properties.SetupRejectionMessages` | src/simulation.rs:94-108 | the error chain of each of the three rejections |
| `Properties.SetupSucceeds` | src/simulation.rs:92-134 | a successful setup made exactly read, mkdir, write-copy, open-results, and copies name, resume, times, integrator and universe into the simulation |
| `Properties.OutputPathInRunDir` | src/simulation.rs:111-118 | for a normal name (not `.` or `..`), `run_dir.join(name)` with an extension is `run_dir/<stem>.<ext>` |
| `Properties.RunFilesSitInRunDir` | src/simulation.rs:111-119 | for a normal run name (not `.` or `..`), the copy and the result file are `run_dir/<stem of name>.conf` and `.jsonl`; a dot-free name keeps its whole self |
| `Properties.ProvisionFootprint` | src/simulation.rs:110-119 | provisioning requests the run directory, then at most writes the config copy, then at most opens the result file; all three when it succeeds |
| `Properties.SetupFootprint` | src/simulation.rs:92-119 | each setup reads only its own input and requests at most one run directory, writes at most one config copy and opens at most one result file, exactly one of each when it succeeds |
| `Properties.ConfigEntriesConcat` | src/simulation.rs:81-83 | the filter keeps listing order |
| `Properties.ConfigEntriesOfOne` | src/simulation.rs:83 | a single entry is kept iff its extension is `conf` |
| `Properties.RunnerIsWellBehaved` | src/simulation.rs:84 | the launcher's setup keeps the per-entry footprint and names each simulation after its entry |
| `Properties.CollectSetsUpEveryEntry` | src/simulation.rs:81-85 | a successful collection has one simulation, one read, one run directory, one config copy and one result file per entry, in order |
| `Properties.CollectNamesRuns` | src/simulation.rs:84-85 | the i-th simulation carries the run name of the i-th entry |
| `Properties.CollectStopsAtFirstFailure` | src/simulation.rs:85 | a failed collection returns the first failing entry's error, after all earlier entries succeeded, with no call for later ones |
| `Properties.CollectFailureKeepsEarlierRuns` | src/simulation.rs:84-85 | a failed collection read a prefix of the entries and kept the run directories, config copies and result files of all but the last |
| `Properties.CollectPrefix` | src/simulation.rs:85 | a collection whose first k entries succeed continues with the rest from their history |
| `Properties.BatchSetsUpEveryEntry` | src/simulation.rs:80-85 | batch mode succeeds with one named simulation, one read, one run directory, one config copy and one result file per `conf` entry |
| `Properties.BatchStopsAtFirstFailure` | src/simulation.rs:80-85 | batch mode is fail-fast and keeps the run directories, config copies and result files of earlier entries |
| `Properties.BatchIsNotAtomic` | src/simulation.rs:84-85 | two valid entries then an empty span: the batch fails with the span error, yet two run directories, two config copies and two result files were made |
| `Properties.ResolveModes` | src/simulation.rs:80-89 | single mode wraps the setup result; batch mode fails on the listing error; after a good listing a successful batch read exactly the `conf` entries in order, and a failed one read a non-empty prefix of them |
| `Properties.LaunchRunsOnce` | src/simulation.rs:145-149 | once the integrator is ready: the record `Started` with the run's name and times, one integration run, then only log and stderr output |
| `Properties.LaunchInitialisesOnlyFreshRuns` | src/simulation.rs:140-142 | `initialise` is called iff the run is not a resume, and then as the first call |
| `Properties.LaunchStopsWhenInitialiseFails` | src/simulation.rs:141 | a failing `initialise` is returned at once, with nothing logged and no integration |
| `Properties.LaunchAbsorbsIntegrationOutcome` | src/simulation.rs:145-151 | the start is logged, the integrator runs exactly once, its outcome is logged, and the result is `Ok` either way |
| `Properties.SuffixesConcat` | src/simulation.rs:186-188 | the causes' suffixes concatenate in chain order |
| `Properties.CauseAt` | src/simulation.rs:185-188 | the flattened message starts with the prefix, and every cause appears as `": " + cause` right after the causes before it |
| `Properties.FailureIsClassified` | src/simulation.rs:172-182 | a step-limit stop is one warning with its time and step count; any other error is one stderr line `Error: m` and one error record `m`, with `m` the flattened abort message |
| `Properties.DottedInputRunName` | src/simulation.rs:104-108 | the input `a.b.conf` is run as `a.b` |
| `Properties.DottedRunNameLosesLastSegment` | src/simulation.rs:111-118 | the run `a.b` writes `a.conf` and `a.jsonl` |
| `Properties.DoubleDotRunNameTargetsOutputDir` | src/simulation.rs:104-119 | the input `...conf` is run as `..`, and both the config copy and the result file are `run_dir/..` |
| `Properties.DotRunNameEscapesRunDir` | src/simulation.rs:104-115 | the input `..conf` is run as `.`, and its config copy and result file land beside the run directory as `<run_dir>.conf` and `<run_dir>.jsonl` |

## Left out

- Argument parsing (`argh`), the `create_directory` of the output path and the logger's setup, lines 64-77, are not part of this model. The log appears only as `Logged` records.
- What the collaborators do internally is not modelled: `sci_file`'s JSON reading and writing, the numbering of run directories, `OutputFile`, and the integrators. Each one is an arbitrary function of the history in `Lifecycle.World`.
- The formatted text of the info and warning lines is not modelled. Each `LogRecord` carries the values the line shows, with its level given by its kind: `Started`/`Completed` are info, `StepLimitHit` is a warning, `Aborted` is an error.
- The total period that `log_start` prints is left out. The two times it is computed from are kept.
- Times are mathematical reals, not `f64`. Rounding and NaN are not modelled; JSON numbers are finite, so NaN does not arise from a config.
- A failure's messages and `Stats` are byte strings. How `Display` renders them is not modelled.
- `Path::display` is modelled as the raw bytes of the components. Its lossy replacement of invalid UTF-8 is not modelled.
- Paths are Unix paths, kept as already-normalised components. Windows prefixes are not modelled.
- `Paths.Join` models only the push of one slash-free name, which is all `join(&name)` needs here because a stem never holds a separator.
- An extension holding a separator makes `set_extension` panic. The model excludes such extensions instead.
- `set_extension`'s boolean result is discarded by the source, and the model does not return it.
- `n_step` is an unbounded `nat`; its integer width is not modelled.
- `IntegratorError` is distinguished by shape. `downcast_ref` on the wrapped error is not modelled.
- `Simulation`'s `PhantomData` and `integrate`'s changes to the `system` it is given are not modelled; the integrator state that `initialise` returns is kept. `launch` consumes `self`; the model passes the simulation by value.
- String literals are built with `Text.Ascii`, which is exact for ASCII text; every literal in the source is ASCII.
