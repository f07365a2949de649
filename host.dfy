/**
 The launcher as the program runs it: step by step against a host that
 records every call to a collaborator in `trace` and answers it from
 `world`. Each operation is proved to make exactly the calls, in exactly the
 order, that its specification function in `Lifecycle` lists, and to return
 the same result.
 */
module Launcher {
  import opened Text
  import opened Results
  import opened Paths
  import opened Errors
  import opened Lifecycle

  /**
   Builds the message `log_error_chain` reports: `prefix`, then `": " + cause`
   for each cause in the chain, outermost first.
   */
  method FlattenChain(e: Failure, prefix: Bytes) returns (s: Bytes)
    ensures s == Flattened(prefix, e.Chain())
  {
    var chain := e.Chain();
    s := prefix;
    for i := 0 to |chain|
      invariant s == prefix + Suffixes(chain[..i])
    {
      assert chain[..i + 1][..i] == chain[..i];
      s := s + CAUSE_SEPARATOR + chain[i];
    }
    assert chain[..|chain|] == chain;
  }

  class Host<U, I> {
    /** How the file system, the deserializer and the integrator answer. */
    const world: World<U, I>
    /** Every call made so far, oldest first. */
    var trace: Trace<U, I>

    constructor (world: World<U, I>, history: Trace<U, I>)
      ensures this.world == world && trace == history
    {
      this.world := world;
      trace := history;
    }

    // ---------------------------------------------------------------- collaborators

    method CollectFiles(dir: Path) returns (r: Result<seq<Path>, Failure>)
      modifies this
      ensures r == world.collectFiles(old(trace), dir)
      ensures trace == old(trace) + [FilesListed(dir)]
    {
      r := world.collectFiles(trace, dir);
      trace := trace + [FilesListed(dir)];
    }

    method DeserializeConfig(path: Path) returns (r: Result<InputConfig<U, I>, Failure>)
      modifies this
      ensures r == world.deserializeConfig(old(trace), path)
      ensures trace == old(trace) + [ConfigRead(path)]
    {
      r := world.deserializeConfig(trace, path);
      trace := trace + [ConfigRead(path)];
    }

    method CreateIncrementedDirectory(base: Path) returns (r: Result<Path, Failure>)
      modifies this
      ensures r == world.createIncrementedDirectory(old(trace), base)
      ensures trace == old(trace) + [RunDirCreated(base)]
    {
      r := world.createIncrementedDirectory(trace, base);
      trace := trace + [RunDirCreated(base)];
    }

    method SerializeConfig(config: InputConfig<U, I>, path: Path) returns (r: Outcome<Failure>)
      modifies this
      ensures r == world.serializeConfig(old(trace), config, path)
      ensures trace == old(trace) + [ConfigWritten(config, path)]
    {
      r := world.serializeConfig(trace, config, path);
      trace := trace + [ConfigWritten(config, path)];
    }

    method OpenOutputFile(path: Path) returns (r: Outcome<Failure>)
      modifies this
      ensures r == world.openOutputFile(old(trace), path)
      ensures trace == old(trace) + [OutputFileOpened(path)]
    {
      r := world.openOutputFile(trace, path);
      trace := trace + [OutputFileOpened(path)];
    }

    method Initialise(integrator: I, x: real, xFinal: real, y: seq<real>) returns (r: Result<I, Failure>)
      modifies this
      ensures r == world.initialise(old(trace), integrator, x, xFinal, y)
      ensures trace == old(trace) + [IntegratorInitialised(integrator, x, xFinal, y)]
    {
      r := world.initialise(trace, integrator, x, xFinal, y);
      trace := trace + [IntegratorInitialised(integrator, x, xFinal, y)];
    }

    method Integrate(integrator: I, system: System<U>) returns (r: Result<Stats, IntegratorError>)
      modifies this
      ensures r == world.integrate(old(trace), integrator, system)
      ensures trace == old(trace) + [IntegrationRun(integrator, system)]
    {
      r := world.integrate(trace, integrator, system);
      trace := trace + [IntegrationRun(integrator, system)];
    }

    method Log(record: LogRecord)
      modifies this
      ensures trace == old(trace) + [Logged(record)]
    {
      trace := trace + [Logged(record)];
    }

    method Eprint(line: Bytes)
      modifies this
      ensures trace == old(trace) + [Eprinted(line)]
    {
      trace := trace + [Eprinted(line)];
    }

    // ---------------------------------------------------------------- the launcher

    /** `Simulation::setup`. */
    method Setup(input: Path, output: Path) returns (r: Result<Simulation<U, I>, Failure>)
      modifies this
      ensures var s := SetupRun(world, old(trace), input, output); r == s.result && trace == s.trace
    {
      var loaded := DeserializeConfig(input);
      if loaded.Err? {
        return Err(Context(LOAD_CONTEXT + Render(input), loaded.error));
      }
      var config := loaded.value;
      if !(config.initialTime < config.finalTime) {
        return Err(Message(SPAN_MESSAGE));
      }
      var runName := RunName(input);
      if runName.None? {
        return Err(Message(NAME_CONTEXT));
      }
      r := Provision(config, runName.value, output);
    }

    /** The second half of `Simulation::setup`, once the config has passed its checks. */
    method Provision(config: InputConfig<U, I>, name: Bytes, output: Path)
      returns (r: Result<Simulation<U, I>, Failure>)
      requires NoSlash(name)
      modifies this
      ensures var s := ProvisionRun(world, old(trace), config, name, output); r == s.result && trace == s.trace
    {
      var runDir :- CreateIncrementedDirectory(output);
      ExtensionsAreSimple();
      assert ConfigCopyPath(runDir, name) == SetExtension(Join(runDir, name), CONF);
      var outpath := Join(runDir, name);
      outpath := SetExtension(outpath, CONF);
      :- SerializeConfig(config, outpath);
      outpath := SetExtension(outpath, JSONL);
      :- OpenOutputFile(outpath);
      var system := System(OutputFile(outpath), config.universe);
      return Ok(Simulation(name, config.resume, config.initialTime, config.finalTime,
                           config.integrator, system));
    }

    /** The branch of `Simulation::new` that turns its input into simulations. */
    method New(batch: bool, input: Path, output: Path) returns (r: Result<seq<Simulation<U, I>>, Failure>)
      modifies this
      ensures var s := Resolve(world, old(trace), batch, input, output); r == s.result && trace == s.trace
    {
      if !batch {
        var sim :- Setup(input, output);
        return Ok([sim]);
      }
      var files :- CollectFiles(input);
      r := SetupEach(ConfigEntries(files), output);
    }

    /** Batch mode's `map(setup).collect()`: set each entry up in turn, stopping at the first error. */
    method SetupEach(configs: seq<Path>, output: Path) returns (r: Result<seq<Simulation<U, I>>, Failure>)
      modifies this
      ensures var s := SetupBatch(world, old(trace), configs, output); r == s.result && trace == s.trace
    {
      var sims := [];
      var i := 0;
      assert configs[i..] == configs;
      PrependNothing(SetupBatch(world, trace, configs, output));
      while i < |configs|
        invariant 0 <= i <= |configs|
        invariant SetupBatch(world, old(trace), configs, output)
               == Prepend(sims, SetupBatch(world, trace, configs[i..], output))
      {
        ghost var before := trace;
        assert configs[i..][0] == configs[i] && configs[i..][1..] == configs[i + 1..];
        SetupBatchUnfold(world, before, configs[i..], output);
        var sim :- Setup(configs[i], output);
        ghost var rest := SetupBatch(world, trace, configs[i + 1..], output);
        assert SetupBatch(world, before, configs[i..], output) == Prepend([sim], rest);
        PrependTwice(sims, [sim], rest);
        sims := sims + [sim];
        i := i + 1;
      }
      assert sims + [] == sims;
      return Ok(sims);
    }

    /** `Simulation::launch`. */
    method Launch(sim: Simulation<U, I>, x: real, xFinal: real, y: seq<real>) returns (r: Result<(), Failure>)
      modifies this
      ensures var s := LaunchRun(world, old(trace), sim, x, xFinal, y); r == s.result && trace == s.trace
    {
      var integrator := sim.integrator;
      if !sim.resume {
        integrator :- Initialise(integrator, x, xFinal, y);
      }
      Log(Started(sim.name, sim.initialTime, sim.finalTime));
      var outcome := Integrate(integrator, sim.system);
      match outcome {
        case Ok(stats) => Log(Completed(sim.name, sim.finalTime, stats));
        case Err(why) => LogFailure(sim.name, why);
      }
      return Ok(());
    }

    /** `log_failure`. */
    method LogFailure(name: Bytes, why: IntegratorError)
      modifies this
      ensures trace == old(trace) + FailureReport(name, why)
    {
      match why {
        case StepLimitReached(time, nStep) => Log(StepLimitHit(name, time, nStep));
        case Other(f) => LogErrorChain(f, AbortPrefix(name));
      }
    }

    /** `log_error_chain`. */
    method LogErrorChain(e: Failure, prefix: Bytes)
      modifies this
      ensures trace == old(trace) + ErrorReport(Flattened(prefix, e.Chain()))
    {
      var s := FlattenChain(e, prefix);
      Eprint(STDERR_PREFIX + s);
      Log(Aborted(s));
    }
  }
}
