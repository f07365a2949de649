/**
 The lifecycle of a simulation run, stated as functions of the outside world.

 Every call the launcher makes to a collaborator (the file helpers, the
 deserializer, the integrator, the log) is an `Event`. The world answers each
 call as a function of the events that came before it, so any deterministic
 file system or integrator is a `World`. Each operation here takes the world
 and the history so far and gives its result together with the events it
 adds, in the order it makes the calls.
 */
module Lifecycle {
  import opened Text
  import opened Results
  import opened Paths
  import opened Errors

  /** `InputConfig<U>`: what one config file deserializes into. */
  datatype InputConfig<U, I> = InputConfig(
    resume: bool,
    initialTime: real,
    finalTime: real,
    integrator: I,
    universe: U)

  /** `OutputFile`: the sink for the integrator's line-delimited results, bound to its file. */
  datatype OutputFile = OutputFile(path: Path)

  /** `System::new(outfile, universe)`: the bundle the integrator works on. */
  datatype System<U> = System(output: OutputFile, universe: U)

  /** One prepared run. */
  datatype Simulation<U, I> = Simulation(
    name: Bytes,
    resume: bool,
    initialTime: real,
    finalTime: real,
    integrator: I,
    system: System<U>)

  /** What the integrator reports on success, as the text the log shows. */
  datatype Stats = Stats(summary: Bytes)

  /** The records a run writes to the process-wide log. */
  datatype LogRecord =
    | Started(name: Bytes, initialTime: real, finalTime: real)         // info
    | Completed(name: Bytes, finalTime: real, stats: Stats)            // info
    | StepLimitHit(name: Bytes, time: real, nStep: nat)                // warn
    | Aborted(message: Bytes)                                          // error

  /** One call to a collaborator; it is recorded whatever the collaborator answers. */
  datatype Event<U, I> =
    | FilesListed(dir: Path)
    | ConfigRead(path: Path)
    | RunDirCreated(base: Path)
    | ConfigWritten(config: InputConfig<U, I>, path: Path)
    | OutputFileOpened(path: Path)
    | IntegratorInitialised(integrator: I, x: real, xFinal: real, y: seq<real>)
    | IntegrationRun(integrator: I, system: System<U>)
    | Logged(record: LogRecord)
    | Eprinted(line: Bytes)

  type Trace<U, I> = seq<Event<U, I>>

  /**
   How the collaborators answer, given the history before the call:
   `collect_files_from_dir_path`, `deserialize_json_from_path`,
   `create_incremented_directory`, `serialize_json_to_path`, `OutputFile::new`,
   `initialise` (giving the integrator's new state) and `integrate`.
   */
  datatype World<!U, !I> = World(
    collectFiles: (Trace<U, I>, Path) -> Result<seq<Path>, Failure>,
    deserializeConfig: (Trace<U, I>, Path) -> Result<InputConfig<U, I>, Failure>,
    createIncrementedDirectory: (Trace<U, I>, Path) -> Result<Path, Failure>,
    serializeConfig: (Trace<U, I>, InputConfig<U, I>, Path) -> Outcome<Failure>,
    openOutputFile: (Trace<U, I>, Path) -> Outcome<Failure>,
    initialise: (Trace<U, I>, I, real, real, seq<real>) -> Result<I, Failure>,
    integrate: (Trace<U, I>, I, System<U>) -> Result<Stats, IntegratorError>)

  /** A result and the history after the calls that produced it. */
  datatype Step<R, U, I> = Step(result: R, trace: Trace<U, I>)

  /** The extensions `conf` and `jsonl`. */
  const CONF: Bytes := [0x63, 0x6F, 0x6E, 0x66]
  const JSONL: Bytes := [0x6A, 0x73, 0x6F, 0x6E, 0x6C]

  const LOAD_CONTEXT: Bytes := Ascii("unable to load config from file: ")
  const SPAN_MESSAGE: Bytes := Ascii("Simulation final_time must be greater than initial_time.")
  const NAME_CONTEXT: Bytes := Ascii("unable to create output config")
  const CAUSE_SEPARATOR: Bytes := Ascii(": ")
  const STDERR_PREFIX: Bytes := Ascii("Error: ")

  lemma ExtensionsAreSimple()
    ensures CONF != [] && NoSlash(CONF) && NoDot(CONF)
    ensures JSONL != [] && NoSlash(JSONL) && NoDot(JSONL)
  {
    assert forall i :: 0 <= i < |CONF| ==> CONF[i] in {0x63, 0x6F, 0x6E, 0x66};
    assert forall i :: 0 <= i < |JSONL| ==> JSONL[i] in {0x6A, 0x73, 0x6F, 0x6E, 0x6C};
  }

  // ---------------------------------------------------------------- setup

  /**
   The run name: the input's file stem, provided it is valid UTF-8
   (`file_stem().and_then(to_str)`). It is never empty and never holds a
   separator.
   */
  function RunName(input: Path): (r: Option<Bytes>)
    ensures r.Some? <==> FileStem(input).Some? && IsUtf8(FileStem(input).value)
    ensures r.Some? ==> r.value == FileStem(input).value && r.value != [] && NoSlash(r.value)
  {
    match FileStem(input)
    case None => None
    case Some(stem) =>
      SplitName(FileName(input).value);
      SplitNameHasNoSlash(FileName(input).value);
      if IsUtf8(stem) then Some(stem) else None
  }

  /**
   `Simulation::setup`: load the config, check the time span and derive the
   run name; only then provision the run directory and its files.
   */
  function SetupRun<U, I>(w: World<U, I>, h: Trace<U, I>, input: Path, output: Path)
    : Step<Result<Simulation<U, I>, Failure>, U, I>
  {
    var h1 := h + [ConfigRead(input)];
    match w.deserializeConfig(h, input)
    case Err(f) => Step(Err(Context(LOAD_CONTEXT + Render(input), f)), h1)
    case Ok(config) =>
      if !(config.initialTime < config.finalTime) then Step(Err(Message(SPAN_MESSAGE)), h1)
      else match RunName(input)
      case None => Step(Err(Message(NAME_CONTEXT)), h1)
      case Some(name) => ProvisionRun(w, h1, config, name, output)
  }

  /** Where the run's files go: `run_dir.join(name)` with its extension set, as the source does in place. */
  function ConfigCopyPath(runDir: Path, name: Bytes): Path
    requires NoSlash(name)
  {
    ExtensionsAreSimple();
    SetExtension(Join(runDir, name), CONF)
  }

  function ResultFilePath(runDir: Path, name: Bytes): Path
    requires NoSlash(name)
  {
    ExtensionsAreSimple();
    SetExtension(ConfigCopyPath(runDir, name), JSONL)
  }

  /**
   The second half of `Simulation::setup`: create a fresh run directory,
   write the config copy at `run_dir/name` with its extension set to `conf`,
   open the result file after setting the extension of that same path to
   `jsonl`, and assemble the simulation.
   */
  function ProvisionRun<U, I>(w: World<U, I>, h: Trace<U, I>, config: InputConfig<U, I>,
                              name: Bytes, output: Path)
    : Step<Result<Simulation<U, I>, Failure>, U, I>
    requires NoSlash(name)
  {
    var h1 := h + [RunDirCreated(output)];
    match w.createIncrementedDirectory(h, output)
    case Err(f) => Step(Err(f), h1)
    case Ok(runDir) =>
      var confPath := ConfigCopyPath(runDir, name);
      var h2 := h1 + [ConfigWritten(config, confPath)];
      match w.serializeConfig(h1, config, confPath)
      case Fail(f) => Step(Err(f), h2)
      case Pass =>
        var sinkPath := ResultFilePath(runDir, name);
        var h3 := h2 + [OutputFileOpened(sinkPath)];
        match w.openOutputFile(h2, sinkPath)
        case Fail(f) => Step(Err(f), h3)
        case Pass =>
          var system := System(OutputFile(sinkPath), config.universe);
          Step(Ok(Simulation(name, config.resume, config.initialTime, config.finalTime,
                             config.integrator, system)), h3)
  }

  // ---------------------------------------------------------------- batch and single mode

  /** The listed entries batch mode sets up: those whose extension is exactly `conf`, in listing order. */
  function ConfigEntries(files: seq<Path>): (r: seq<Path>)
    ensures forall p :: p in r <==> p in files && Extension(p) == Some(CONF)
    ensures |r| <= |files|
  {
    if files == [] then []
    else (if Extension(files[0]) == Some(CONF) then [files[0]] else []) + ConfigEntries(files[1..])
  }

  /** Places simulations already set up in front of what the rest of the batch gives. */
  function Prepend<U, I>(sims: seq<Simulation<U, I>>, rest: Step<Result<seq<Simulation<U, I>>, Failure>, U, I>)
    : Step<Result<seq<Simulation<U, I>>, Failure>, U, I>
  {
    Step(if rest.result.Ok? then Ok(sims + rest.result.value) else rest.result, rest.trace)
  }

  /** A way of setting one entry up from the history so far; `Runner` is the launcher's. */
  type Setup<!U, !I> = (Trace<U, I>, Path) -> Step<Result<Simulation<U, I>, Failure>, U, I>

  function Runner<U, I>(w: World<U, I>, output: Path): Setup<U, I>
  {
    (h: Trace<U, I>, input: Path) => SetupRun(w, h, input, output)
  }

  /**
   `map(setup).collect::<Result<Vec<_>>>()`: set the entries up in order and
   stop at the first failure, whose error becomes the batch's.
   */
  function Collect<U, I>(setup: Setup<U, I>, h: Trace<U, I>, configs: seq<Path>)
    : Step<Result<seq<Simulation<U, I>>, Failure>, U, I>
    decreases |configs|
  {
    if configs == [] then Step(Ok([]), h)
    else
      var first := setup(h, configs[0]);
      match first.result
      case Err(f) => Step(Err(f), first.trace)
      case Ok(sim) => Prepend([sim], Collect(setup, first.trace, configs[1..]))
  }

  /** Batch mode's collection with the launcher's own setup. */
  function SetupBatch<U, I>(w: World<U, I>, h: Trace<U, I>, configs: seq<Path>, output: Path)
    : Step<Result<seq<Simulation<U, I>>, Failure>, U, I>
  {
    Collect(Runner(w, output), h, configs)
  }

  /** One step of the batch: the first entry is set up, and the rest follow only if it succeeded. */
  lemma SetupBatchUnfold<U, I>(w: World<U, I>, h: Trace<U, I>, configs: seq<Path>, output: Path)
    requires configs != []
    ensures var first := SetupRun(w, h, configs[0], output);
      SetupBatch(w, h, configs, output)
        == if first.result.Err? then Step(Err(first.result.error), first.trace)
           else Prepend([first.result.value], SetupBatch(w, first.trace, configs[1..], output))
  {
  }

  lemma PrependNothing<U, I>(s: Step<Result<seq<Simulation<U, I>>, Failure>, U, I>)
    ensures Prepend([], s) == s
  {
    if s.result.Ok? {
      assert [] + s.result.value == s.result.value;
    }
  }

  /** Prepending in two steps is prepending the concatenation. */
  lemma PrependTwice<U, I>(a: seq<Simulation<U, I>>, b: seq<Simulation<U, I>>,
                           rest: Step<Result<seq<Simulation<U, I>>, Failure>, U, I>)
    ensures Prepend(a, Prepend(b, rest)) == Prepend(a + b, rest)
  {
    if rest.result.Ok? {
      assert a + (b + rest.result.value) == (a + b) + rest.result.value;
    }
  }
  /**
   The branch of `Simulation::new` that resolves its simulations: in batch
   mode, list the input directory and set up its `conf` entries; otherwise set
   up the input file alone.
   */
  function Resolve<U, I>(w: World<U, I>, h: Trace<U, I>, batch: bool, input: Path, output: Path)
    : Step<Result<seq<Simulation<U, I>>, Failure>, U, I>
  {
    if batch then
      var h1 := h + [FilesListed(input)];
      match w.collectFiles(h, input)
      case Err(f) => Step(Err(f), h1)
      case Ok(files) => SetupBatch(w, h1, ConfigEntries(files), output)
    else
      var s := SetupRun(w, h, input, output);
      Step(if s.result.Ok? then Ok([s.result.value]) else Err(s.result.error), s.trace)
  }

  // ---------------------------------------------------------------- launch and outcome

  /** `": " + cause` for every cause, in chain order: what `log_error_chain` appends. */
  function Suffixes(causes: seq<Bytes>): Bytes
  {
    if causes == [] then []
    else Suffixes(causes[..|causes| - 1]) + CAUSE_SEPARATOR + causes[|causes| - 1]
  }

  function Flattened(prefix: Bytes, causes: seq<Bytes>): Bytes
  {
    prefix + Suffixes(causes)
  }

  /** `format!("Aborting simulation {name} due to failure.")`. */
  function AbortPrefix(name: Bytes): Bytes
  {
    Ascii("Aborting simulation ") + name + Ascii(" due to failure.")
  }

  /** `log_error_chain`'s output: the flattened message on stderr, then in the log. */
  function ErrorReport<U, I>(message: Bytes): Trace<U, I>
  {
    [Eprinted(STDERR_PREFIX + message), Logged(Aborted(message))]
  }

  /** `log_failure`: a step-limit stop is a warning, any other error is flattened and reported. */
  function FailureReport<U, I>(name: Bytes, why: IntegratorError): Trace<U, I>
  {
    match why
    case StepLimitReached(x, nStep) => [Logged(StepLimitHit(name, x, nStep))]
    case Other(f) => ErrorReport(Flattened(AbortPrefix(name), f.Chain()))
  }

  /**
   `Simulation::launch`: a fresh run initialises the integrator first and
   stops with that error if it fails; then the start is logged, the
   integrator runs once, and its outcome is logged and absorbed.
   */
  function LaunchRun<U, I>(w: World<U, I>, h: Trace<U, I>, sim: Simulation<U, I>,
                           x: real, xFinal: real, y: seq<real>)
    : Step<Result<(), Failure>, U, I>
  {
    var h1 := if sim.resume then h else h + [IntegratorInitialised(sim.integrator, x, xFinal, y)];
    var initialised := if sim.resume then Ok(sim.integrator) else w.initialise(h, sim.integrator, x, xFinal, y);
    match initialised
    case Err(f) => Step(Err(f), h1)
    case Ok(integrator) =>
      var h2 := h1 + [Logged(Started(sim.name, sim.initialTime, sim.finalTime))];
      var h3 := h2 + [IntegrationRun(integrator, sim.system)];
      match w.integrate(h2, integrator, sim.system)
      case Ok(stats) => Step(Ok(()), h3 + [Logged(Completed(sim.name, sim.finalTime, stats))])
      case Err(why) => Step(Ok(()), h3 + FailureReport(sim.name, why))
  }
}
