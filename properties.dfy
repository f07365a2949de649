/**
 What the launcher promises, proved about the specification in `Lifecycle`:
 validation happens before anything is created, each setup provisions one
 run directory and two files beside each other, batch mode sets up exactly
 the `conf` entries and stops at the first failure, launch initialises only
 fresh runs and absorbs the integrator's outcome, and a fatal outcome is
 reported with its whole cause chain in order.
 */
module Properties {
  import opened Text
  import opened Results
  import opened Paths
  import opened Errors
  import opened Lifecycle

  // ---------------------------------------------------------------- counting calls in a trace

  datatype Call = List | Read | MakeRunDir | WriteCopy | OpenResults | Initialise | Integrate | Log | Eprint

  function CallOf<U, I>(e: Event<U, I>): Call
  {
    match e
    case FilesListed(_) => List
    case ConfigRead(_) => Read
    case RunDirCreated(_) => MakeRunDir
    case ConfigWritten(_, _) => WriteCopy
    case OutputFileOpened(_) => OpenResults
    case IntegratorInitialised(_, _, _, _) => Initialise
    case IntegrationRun(_, _) => Integrate
    case Logged(_) => Log
    case Eprinted(_) => Eprint
  }

  /** How many calls of kind `c` the trace holds. */
  function Count<U, I>(t: Trace<U, I>, c: Call): nat
  {
    if t == [] then 0 else (if CallOf(t[0]) == c then 1 else 0) + Count(t[1..], c)
  }

  /** The inputs whose config was read, in order: the entries `setup` was called on. */
  function ReadPaths<U, I>(t: Trace<U, I>): seq<Path>
  {
    if t == [] then [] else (if t[0].ConfigRead? then [t[0].path] else []) + ReadPaths(t[1..])
  }

  /** The calls that provision a run: its directory, its config copy and its result file. */
  predicate Provisions(c: Call)
  {
    c == MakeRunDir || c == WriteCopy || c == OpenResults
  }

  /** From `h` to `t` the calls of kind `c` grew by at most one, and by exactly one when `ok`. */
  ghost predicate AddsAtMostOne<U, I>(h: Trace<U, I>, t: Trace<U, I>, c: Call, ok: bool)
  {
    && Count(h, c) <= Count(t, c) <= Count(h, c) + 1
    && (ok ==> Count(t, c) == Count(h, c) + 1)
  }

  lemma CountOne<U, I>(e: Event<U, I>, c: Call)
    ensures Count([e], c) == if CallOf(e) == c then 1 else 0
  {
    assert [e][1..] == [];
  }

  lemma {:induction false} CountConcat<U, I>(a: Trace<U, I>, b: Trace<U, I>, c: Call)
    ensures Count(a + b, c) == Count(a, c) + Count(b, c)
  {
    if a == [] {
      assert a + b == b;
    } else {
      assert (a + b)[0] == a[0] && (a + b)[1..] == a[1..] + b;
      CountConcat(a[1..], b, c);
    }
  }

  lemma {:induction false} ReadPathsConcat<U, I>(a: Trace<U, I>, b: Trace<U, I>)
    ensures ReadPaths(a + b) == ReadPaths(a) + ReadPaths(b)
  {
    if a == [] {
      assert a + b == b;
    } else {
      assert (a + b)[0] == a[0] && (a + b)[1..] == a[1..] + b;
      ReadPathsConcat(a[1..], b);
    }
  }

  // ---------------------------------------------------------------- setup

  /**
   A config that cannot be read, has `initial_time >= final_time`, or whose
   input has no UTF-8 file stem is rejected right after it is read: the
   history gains only the read, so no run directory is requested and no file
   is written or opened; conversely, a run directory is requested exactly
   when all three checks pass.
   */
  lemma SetupValidatesBeforeCreating<U, I>(w: World<U, I>, h: Trace<U, I>, input: Path, output: Path)
    ensures var s := SetupRun(w, h, input, output);
      var loaded := w.deserializeConfig(h, input);
      var valid := loaded.Ok? && loaded.value.initialTime < loaded.value.finalTime && RunName(input).Some?;
      && |s.trace| > |h| && s.trace[..|h| + 1] == h + [ConfigRead(input)]
      && (!valid ==> s.result.Err? && s.trace == h + [ConfigRead(input)])
      && (valid <==> |s.trace| > |h| + 1 && s.trace[|h| + 1] == RunDirCreated(output))
  {
    var loaded := w.deserializeConfig(h, input);
    if loaded.Ok? && loaded.value.initialTime < loaded.value.finalTime && RunName(input).Some? {
      ProvisionFootprint(w, h + [ConfigRead(input)], loaded.value, RunName(input).value, output);
    }
  }

  /** The errors of the three checks, outermost message first. */
  lemma SetupRejectionMessages<U, I>(w: World<U, I>, h: Trace<U, I>, input: Path, output: Path)
    ensures var s := SetupRun(w, h, input, output);
      var loaded := w.deserializeConfig(h, input);
      && (loaded.Err? ==>
            s.result.Err? && s.result.error.Chain() == [LOAD_CONTEXT + Render(input)] + loaded.error.Chain())
      && (loaded.Ok? && !(loaded.value.initialTime < loaded.value.finalTime) ==>
            s.result.Err? && s.result.error.Chain() == [SPAN_MESSAGE])
      && (loaded.Ok? && loaded.value.initialTime < loaded.value.finalTime && RunName(input).None? ==>
            s.result.Err? && s.result.error.Chain() == [NAME_CONTEXT])
  {
  }

  /** `run_dir.join(name)` with an extension set, when the name is an ordinary file name. */
  lemma OutputPathInRunDir(runDir: Path, name: Bytes, ext: Bytes)
    requires IsNormalName(name)
    requires ext != [] && NoSlash(ext) && NoDot(ext)
    ensures SetExtension(Join(runDir, name), ext) == runDir + [Normal(StemOf(name) + [DOT] + ext)]
  {
    var joined := Join(runDir, name);
    assert joined == runDir + [Normal(name)];
    SetExtensionReplacesLastDotSegment(joined, ext);
    assert joined[..|joined| - 1] == runDir;
  }

  /**
   The config copy and the result file sit side by side in the run
   directory, named after the stem of the run name with extensions `conf`
   and `jsonl`; a run name without a dot keeps its whole self.
   */
  lemma RunFilesSitInRunDir(runDir: Path, name: Bytes)
    requires IsNormalName(name)
    ensures ConfigCopyPath(runDir, name) == runDir + [Normal(StemOf(name) + [DOT] + CONF)]
    ensures ResultFilePath(runDir, name) == runDir + [Normal(StemOf(name) + [DOT] + JSONL)]
    ensures ExtensionOf(name).None? ==> StemOf(name) == name
  {
    ExtensionsAreSimple();
    OutputPathInRunDir(runDir, name, CONF);
    OutputPathInRunDir(runDir, name, JSONL);
    SetExtensionTwice(Join(runDir, name), CONF, JSONL);
    SplitName(name);
  }

  /**
   A successful setup made exactly four calls: it read the config, requested
   one run directory, wrote the config it read to `run_dir/name` with
   extension `conf`, and opened the result file at the same base with
   extension `jsonl`. The simulation carries the run name, copies `resume`,
   the times and the integrator from the config, and bundles the universe
   with that result file.
   */
  lemma SetupSucceeds<U, I>(w: World<U, I>, h: Trace<U, I>, input: Path, output: Path)
    requires SetupRun(w, h, input, output).result.Ok?
    ensures var s := SetupRun(w, h, input, output);
      && w.deserializeConfig(h, input).Ok? && RunName(input).Some?
      && w.createIncrementedDirectory(h + [ConfigRead(input)], output).Ok?
      && var config := w.deserializeConfig(h, input).value;
         var name := RunName(input).value;
         var runDir := w.createIncrementedDirectory(h + [ConfigRead(input)], output).value;
         var sink := ResultFilePath(runDir, name);
         && config.initialTime < config.finalTime
         && s.trace == h + [ConfigRead(input), RunDirCreated(output),
                            ConfigWritten(config, ConfigCopyPath(runDir, name)), OutputFileOpened(sink)]
         && s.result.value == Simulation(name, config.resume, config.initialTime, config.finalTime,
                                         config.integrator, System(OutputFile(sink), config.universe))
  {
  }

  /**
   The calls provisioning makes: a run directory request, then possibly the
   config write, then possibly the result file's opening; all three when it
   succeeds (`ok`).
   */
  ghost predicate ProvisionShape<U, I>(t: Trace<U, I>, ok: bool)
  {
    && 1 <= |t| <= 3 && t[0].RunDirCreated?
    && (|t| >= 2 ==> t[1].ConfigWritten?)
    && (|t| == 3 ==> t[2].OutputFileOpened?)
    && (ok ==> |t| == 3)
  }

  lemma ProvisionFootprint<U, I>(w: World<U, I>, h: Trace<U, I>, config: InputConfig<U, I>, name: Bytes, output: Path)
    requires NoSlash(name)
    ensures var s := ProvisionRun(w, h, config, name, output);
      |s.trace| > |h| && s.trace[..|h|] == h && ProvisionShape(s.trace[|h|..], s.result.Ok?)
  {
    var s := ProvisionRun(w, h, config, name, output);
    var t := s.trace[|h|..];
    assert s.trace == h + t;
    match w.createIncrementedDirectory(h, output)
    case Err(_) =>
      assert t == [RunDirCreated(output)];
    case Ok(runDir) =>
      var h1 := h + [RunDirCreated(output)];
      var copy := ConfigWritten(config, ConfigCopyPath(runDir, name));
      var open := OutputFileOpened(ResultFilePath(runDir, name));
      if w.serializeConfig(h1, config, ConfigCopyPath(runDir, name)).Fail? {
        assert t == [RunDirCreated(output), copy];
      } else {
        assert t == [RunDirCreated(output), copy, open];
      }
  }

  lemma ProvisionShapeCounts<U, I>(t: Trace<U, I>, ok: bool)
    requires ProvisionShape(t, ok)
    ensures ReadPaths(t) == []
    ensures forall c :: Provisions(c) ==> AddsAtMostOne([], t, c, ok)
  {
    var e0: Trace<U, I> := [t[0]];
    var e1: Trace<U, I> := if |t| >= 2 then [t[1]] else [];
    var e2: Trace<U, I> := if |t| == 3 then [t[2]] else [];
    assert t == e0 + e1 + e2;
    assert e0[1..] == [];
    ReadPathsConcat(e0 + e1, e2);
    ReadPathsConcat(e0, e1);
    if |t| >= 2 {
      assert e1[1..] == [];
    }
    if |t| == 3 {
      assert e2[1..] == [];
    }
    forall c | Provisions(c)
      ensures AddsAtMostOne([], t, c, ok)
    {
      CountConcat(e0 + e1, e2, c);
      CountConcat(e0, e1, c);
      CountOne(t[0], c);
      if |t| >= 2 {
        CountOne(t[1], c);
      }
      if |t| == 3 {
        CountOne(t[2], c);
      }
    }
  }

  /**
   Every setup reads exactly its own input and only adds to the history; it
   requests at most one run directory, writes at most one config copy and
   opens at most one result file, and exactly one of each when it succeeds.
   */
  lemma SetupFootprint<U, I>(w: World<U, I>, h: Trace<U, I>, input: Path, output: Path)
    ensures var s := SetupRun(w, h, input, output);
      && h < s.trace
      && ReadPaths(s.trace) == ReadPaths(h) + [input]
      && forall c :: Provisions(c) ==> AddsAtMostOne(h, s.trace, c, s.result.Ok?)
  {
    var s := SetupRun(w, h, input, output);
    var read: Trace<U, I> := [ConfigRead(input)];
    assert read[1..] == [];
    ReadPathsConcat(h, read);
    var loaded := w.deserializeConfig(h, input);
    if loaded.Ok? && loaded.value.initialTime < loaded.value.finalTime && RunName(input).Some? {
      var rest := ProvisionedCalls(w, h, input, output);
      ReadPathsConcat(h + read, rest);
      ProvisionShapeCounts(rest, s.result.Ok?);
      forall c | Provisions(c)
        ensures AddsAtMostOne(h, s.trace, c, s.result.Ok?)
      {
        CountConcat(h, read, c);
        CountOne<U, I>(ConfigRead(input), c);
        CountConcat(h + read, rest, c);
      }
    } else {
      SetupValidatesBeforeCreating(w, h, input, output);
      assert s.trace == h + read;
      forall c | Provisions(c)
        ensures AddsAtMostOne(h, s.trace, c, s.result.Ok?)
      {
        CountConcat(h, read, c);
        CountOne<U, I>(ConfigRead(input), c);
      }
    }
  }

  /** The calls a valid setup makes after reading its config. */
  lemma ProvisionedCalls<U, I>(w: World<U, I>, h: Trace<U, I>, input: Path, output: Path) returns (rest: Trace<U, I>)
    requires var loaded := w.deserializeConfig(h, input);
      loaded.Ok? && loaded.value.initialTime < loaded.value.finalTime && RunName(input).Some?
    ensures SetupRun(w, h, input, output).trace == h + [ConfigRead(input)] + rest
    ensures ProvisionShape(rest, SetupRun(w, h, input, output).result.Ok?)
  {
    var h1 := h + [ConfigRead(input)];
    var loaded := w.deserializeConfig(h, input);
    var p := ProvisionRun(w, h1, loaded.value, RunName(input).value, output);
    ProvisionFootprint(w, h1, loaded.value, RunName(input).value, output);
    rest := p.trace[|h1|..];
    assert p.trace == h1 + rest;
  }

  // ---------------------------------------------------------------- batch and single mode

  /** Filtering keeps listing order: the entries of a concatenation are the concatenated entries. */
  lemma {:induction false} ConfigEntriesConcat(a: seq<Path>, b: seq<Path>)
    ensures ConfigEntries(a + b) == ConfigEntries(a) + ConfigEntries(b)
  {
    if a == [] {
      assert a + b == b;
    } else {
      assert (a + b)[0] == a[0] && (a + b)[1..] == a[1..] + b;
      ConfigEntriesConcat(a[1..], b);
    }
  }

  /** A single entry is kept exactly when its extension is `conf`. */
  lemma ConfigEntriesOfOne(p: Path)
    ensures ConfigEntries([p]) == if Extension(p) == Some(CONF) then [p] else []
  {
    assert [p][1..] == [];
  }

  /**
   What a setup routine guarantees about the calls it makes from history
   `h` on entry `input`: it only adds to the history, reads exactly that
   entry, and requests at most one run directory, writes at most one config
   copy and opens at most one result file, exactly one of each when it
   succeeds.
   */
  ghost predicate Footprint<U, I>(h: Trace<U, I>, input: Path, s: Step<Result<Simulation<U, I>, Failure>, U, I>)
  {
    && h < s.trace
    && ReadPaths(s.trace) == ReadPaths(h) + [input]
    && forall c :: Provisions(c) ==> AddsAtMostOne(h, s.trace, c, s.result.Ok?)
  }

  ghost predicate WellBehaved<U(!new), I(!new)>(setup: Setup<U, I>)
  {
    forall h: Trace<U, I>, input: Path :: Footprint(h, input, setup(h, input))
  }

  /** A setup routine that names each simulation after its entry's run name. */
  ghost predicate NamesAfterEntries<U(!new), I(!new)>(setup: Setup<U, I>)
  {
    forall h: Trace<U, I>, input: Path ::
      setup(h, input).result.Ok? ==> RunName(input) == Some(setup(h, input).result.value.name)
  }

  lemma RunnerIsWellBehaved<U(!new), I(!new)>(w: World<U, I>, output: Path)
    ensures WellBehaved(Runner(w, output))
    ensures NamesAfterEntries(Runner(w, output))
  {
    forall h: Trace<U, I>, input: Path
      ensures Footprint(h, input, Runner(w, output)(h, input))
    {
      SetupFootprint(w, h, input, output);
    }
    forall h: Trace<U, I>, input: Path | Runner(w, output)(h, input).result.Ok?
      ensures RunName(input) == Some(Runner(w, output)(h, input).result.value.name)
    {
      SetupSucceeds(w, h, input, output);
    }
  }

  /**
   A collection that succeeds set up every entry, in order, and nothing
   else: one simulation per entry; one read, one run directory, one config
   copy and one result file per entry; and the history only grew.
   */
  lemma {:induction false} CollectSetsUpEveryEntry<U(!new), I(!new)>(setup: Setup<U, I>, h: Trace<U, I>, configs: seq<Path>)
    requires WellBehaved(setup)
    requires Collect(setup, h, configs).result.Ok?
    ensures var s := Collect(setup, h, configs);
      && h <= s.trace
      && |s.result.value| == |configs|
      && ReadPaths(s.trace) == ReadPaths(h) + configs
      && forall c :: Provisions(c) ==> Count(s.trace, c) == Count(h, c) + |configs|
    decreases |configs|
  {
    if configs == [] {
      assert ReadPaths(h) + configs == ReadPaths(h);
    } else {
      var first := setup(h, configs[0]);
      assert Footprint(h, configs[0], first);
      CollectSetsUpEveryEntry(setup, first.trace, configs[1..]);
      assert configs == [configs[0]] + configs[1..];
      assert ReadPaths(h) + configs == ReadPaths(h) + [configs[0]] + configs[1..];
      forall c | Provisions(c)
        ensures Count(Collect(setup, h, configs).trace, c) == Count(h, c) + |configs|
      {
        assert AddsAtMostOne(h, first.trace, c, true);
      }
    }
  }

  /** The simulations of a successful collection are named after their entries, in order. */
  lemma {:induction false} CollectNamesRuns<U(!new), I(!new)>(setup: Setup<U, I>, h: Trace<U, I>, configs: seq<Path>)
    requires NamesAfterEntries(setup)
    requires Collect(setup, h, configs).result.Ok?
    ensures var sims := Collect(setup, h, configs).result.value;
      && |sims| == |configs|
      && forall i :: 0 <= i < |configs| ==> RunName(configs[i]) == Some(sims[i].name)
    decreases |configs|
  {
    if configs != [] {
      var first := setup(h, configs[0]);
      CollectNamesRuns(setup, first.trace, configs[1..]);
      var sims := Collect(setup, h, configs).result.value;
      var rest := Collect(setup, first.trace, configs[1..]).result.value;
      assert sims == [first.result.value] + rest;
      forall i | 0 < i < |configs|
        ensures RunName(configs[i]) == Some(sims[i].name)
      {
        assert configs[i] == configs[1..][i - 1] && sims[i] == rest[i - 1];
      }
    }
  }

  /**
   The first `k` entries all succeeded and entry `k` failed: the collection
   returns that failure with the history that setup left, and there is no
   call for any later entry.
   */
  ghost predicate FailsAt<U, I>(setup: Setup<U, I>, h: Trace<U, I>, configs: seq<Path>, k: nat)
    requires k < |configs|
  {
    var done := Collect(setup, h, configs[..k]);
    var failing := setup(done.trace, configs[k]);
    var s := Collect(setup, h, configs);
    && done.result.Ok?
    && failing.result.Err?
    && s.result == Err(failing.result.error)
    && s.trace == failing.trace
  }

  /** Collection is fail-fast: a failing collection failed at one entry, after all earlier ones succeeded. */
  lemma {:induction false} CollectStopsAtFirstFailure<U, I>(setup: Setup<U, I>, h: Trace<U, I>, configs: seq<Path>)
    requires Collect(setup, h, configs).result.Err?
    ensures exists k: nat :: k < |configs| && FailsAt(setup, h, configs, k)
    decreases |configs|
  {
    var first := setup(h, configs[0]);
    if first.result.Err? {
      assert configs[..0] == [];
      assert FailsAt(setup, h, configs, 0);
    } else {
      CollectStopsAtFirstFailure(setup, first.trace, configs[1..]);
      var k: nat :| k < |configs[1..]| && FailsAt(setup, first.trace, configs[1..], k);
      var prefix := configs[..k + 1];
      assert prefix[0] == configs[0] && prefix[1..] == configs[1..][..k];
      assert configs[k + 1] == configs[1..][k];
      assert FailsAt(setup, h, configs, k + 1);
    }
  }

  /**
   What a failed collection leaves behind: the entries up to and including
   the failing one were read, none after it, and every entry before it
   already has its run directory, its config copy and its result file. A
   failure aborts the batch but does not undo the runs already provisioned.
   */
  lemma CollectFailureKeepsEarlierRuns<U(!new), I(!new)>(setup: Setup<U, I>, h: Trace<U, I>, configs: seq<Path>)
    requires WellBehaved(setup)
    requires Collect(setup, h, configs).result.Err?
    ensures var s := Collect(setup, h, configs);
      && h <= s.trace
      && exists n :: 0 < n <= |configs|
           && ReadPaths(s.trace) == ReadPaths(h) + configs[..n]
           && forall c :: Provisions(c) ==> Count(h, c) + n - 1 <= Count(s.trace, c) <= Count(h, c) + n
  {
    CollectStopsAtFirstFailure(setup, h, configs);
    var k: nat :| k < |configs| && FailsAt(setup, h, configs, k);
    var done := Collect(setup, h, configs[..k]);
    var s := Collect(setup, h, configs);
    CollectSetsUpEveryEntry(setup, h, configs[..k]);
    assert Footprint(done.trace, configs[k], setup(done.trace, configs[k]));
    assert configs[..k + 1] == configs[..k] + [configs[k]];
    assert ReadPaths(h) + configs[..k + 1] == ReadPaths(h) + configs[..k] + [configs[k]];
    forall c | Provisions(c)
      ensures Count(h, c) + k <= Count(s.trace, c) <= Count(h, c) + k + 1
    {
      assert AddsAtMostOne(done.trace, s.trace, c, false);
    }
    assert ReadPaths(s.trace) == ReadPaths(h) + configs[..k + 1];
  }

  /** A collection whose first `k` entries succeed continues with the rest from the history they left. */
  lemma {:induction false} CollectPrefix<U, I>(setup: Setup<U, I>, h: Trace<U, I>, configs: seq<Path>, k: nat)
    requires k <= |configs|
    requires Collect(setup, h, configs[..k]).result.Ok?
    ensures var done := Collect(setup, h, configs[..k]);
      Collect(setup, h, configs) == Prepend(done.result.value, Collect(setup, done.trace, configs[k..]))
    decreases k
  {
    if k == 0 {
      assert configs[..0] == [] && configs[0..] == configs;
      PrependNothing(Collect(setup, h, configs));
    } else {
      var prefix := configs[..k];
      assert prefix[0] == configs[0] && prefix[1..] == configs[1..][..k - 1];
      assert configs[1..][k - 1..] == configs[k..];
      var first := setup(h, configs[0]);
      CollectPrefix(setup, first.trace, configs[1..], k - 1);
      var inner := Collect(setup, first.trace, configs[1..][..k - 1]);
      PrependTwice([first.result.value], inner.result.value, Collect(setup, inner.trace, configs[k..]));
    }
  }

  /**
   Batch mode with the launcher's setup: a successful batch has one
   simulation per entry, named after it, and one read, one run directory,
   one config copy and one result file per entry; a failed one stopped at
   some entry, keeping the run directories and files of those before it.
   */
  lemma BatchSetsUpEveryEntry<U(!new), I(!new)>(w: World<U, I>, h: Trace<U, I>, configs: seq<Path>, output: Path)
    requires SetupBatch(w, h, configs, output).result.Ok?
    ensures var s := SetupBatch(w, h, configs, output);
      && h <= s.trace
      && |s.result.value| == |configs|
      && (forall i :: 0 <= i < |configs| ==> RunName(configs[i]) == Some(s.result.value[i].name))
      && ReadPaths(s.trace) == ReadPaths(h) + configs
      && forall c :: Provisions(c) ==> Count(s.trace, c) == Count(h, c) + |configs|
  {
    RunnerIsWellBehaved(w, output);
    CollectSetsUpEveryEntry(Runner(w, output), h, configs);
    CollectNamesRuns(Runner(w, output), h, configs);
  }

  lemma BatchStopsAtFirstFailure<U(!new), I(!new)>(w: World<U, I>, h: Trace<U, I>, configs: seq<Path>, output: Path)
    requires SetupBatch(w, h, configs, output).result.Err?
    ensures var s := SetupBatch(w, h, configs, output);
      && h <= s.trace
      && (exists k: nat :: k < |configs| && FailsAt(Runner(w, output), h, configs, k))
      && exists n :: 0 < n <= |configs|
           && ReadPaths(s.trace) == ReadPaths(h) + configs[..n]
           && forall c :: Provisions(c) ==> Count(h, c) + n - 1 <= Count(s.trace, c) <= Count(h, c) + n
  {
    RunnerIsWellBehaved(w, output);
    CollectStopsAtFirstFailure(Runner(w, output), h, configs);
    CollectFailureKeepsEarlierRuns(Runner(w, output), h, configs);
  }

  /**
   Two valid entries followed by one whose span is empty: the batch fails,
   yet two run directories, two config copies and two result files exist.
   */
  lemma BatchIsNotAtomic<U(!new), I(!new)>(w: World<U, I>, h: Trace<U, I>, configs: seq<Path>, output: Path)
    requires |configs| == 3
    requires SetupBatch(w, h, configs[..2], output).result.Ok?
    requires var done := SetupBatch(w, h, configs[..2], output).trace;
      w.deserializeConfig(done, configs[2]).Ok?
      && !(w.deserializeConfig(done, configs[2]).value.initialTime
           < w.deserializeConfig(done, configs[2]).value.finalTime)
    ensures var s := SetupBatch(w, h, configs, output);
      && s.result == Err(Message(SPAN_MESSAGE))
      && forall c :: Provisions(c) ==> Count(s.trace, c) == Count(h, c) + 2
  {
    var setup := Runner(w, output);
    var done := Collect(setup, h, configs[..2]);
    RunnerIsWellBehaved(w, output);
    CollectSetsUpEveryEntry(setup, h, configs[..2]);
    CollectPrefix(setup, h, configs, 2);
    var last := configs[2..];
    assert last[0] == configs[2] && last[1..] == [];
    var read: Trace<U, I> := [ConfigRead(configs[2])];
    assert setup(done.trace, configs[2]) == Step(Err(Message(SPAN_MESSAGE)), done.trace + read);
    assert read[1..] == [];
    forall c | Provisions(c)
      ensures Count(done.trace + read, c) == Count(h, c) + 2
    {
      CountConcat(done.trace, read, c);
      CountOne<U, I>(ConfigRead(configs[2]), c);
    }
  }

  /**
   `new` in single mode returns one simulation or the setup error; in batch
   mode a listing failure is returned at once; a successful batch read
   exactly the `conf` entries of the listing, in listing order, and a failed
   one read a non-empty prefix of them.
   */
  lemma ResolveModes<U(!new), I(!new)>(w: World<U, I>, h: Trace<U, I>, input: Path, output: Path)
    ensures var single := Resolve(w, h, false, input, output);
      var s := SetupRun(w, h, input, output);
      && single.trace == s.trace
      && (single.result.Ok? <==> s.result.Ok?)
      && (single.result.Ok? ==> single.result.value == [s.result.value])
      && (single.result.Err? ==> single.result.error == s.result.error)
    ensures var batch := Resolve(w, h, true, input, output);
      var listed := w.collectFiles(h, input);
      && (listed.Err? ==> batch == Step(Err(listed.error), h + [FilesListed(input)]))
      && (listed.Ok? && batch.result.Ok? ==>
            && h + [FilesListed(input)] <= batch.trace
            && ReadPaths(batch.trace) == ReadPaths(h + [FilesListed(input)]) + ConfigEntries(listed.value)
            && |batch.result.value| == |ConfigEntries(listed.value)|)
    ensures w.collectFiles(h, input).Ok? && Resolve(w, h, true, input, output).result.Err? ==>
      exists n :: 0 < n <= |ConfigEntries(w.collectFiles(h, input).value)|
        && ReadPaths(Resolve(w, h, true, input, output).trace)
           == ReadPaths(h + [FilesListed(input)]) + ConfigEntries(w.collectFiles(h, input).value)[..n]
  {
    var listed := w.collectFiles(h, input);
    if listed.Ok? {
      var entries := ConfigEntries(listed.value);
      var h1 := h + [FilesListed(input)];
      assert Resolve(w, h, true, input, output) == SetupBatch(w, h1, entries, output);
      RunnerIsWellBehaved(w, output);
      if Resolve(w, h, true, input, output).result.Ok? {
        CollectSetsUpEveryEntry(Runner(w, output), h1, entries);
      } else {
        CollectFailureKeepsEarlierRuns(Runner(w, output), h1, entries);
        var n :| 0 < n <= |entries|
          && ReadPaths(SetupBatch(w, h1, entries, output).trace) == ReadPaths(h1) + entries[..n];
      }
    }
  }

  // ---------------------------------------------------------------- launch

  /** The calls launch makes once the integrator is ready: the start record, one integration run, then only reports. */
  ghost predicate RunShape<U, I>(t: Trace<U, I>, start: LogRecord)
  {
    && |t| >= 2 && t[0] == Logged(start) && t[1].IntegrationRun?
    && forall j :: 2 <= j < |t| ==> t[j].Logged? || t[j].Eprinted?
  }

  lemma RunShapeCounts<U, I>(t: Trace<U, I>, start: LogRecord)
    requires RunShape(t, start)
    ensures Count(t, Initialise) == 0 && Count(t, Integrate) == 1
  {
    var two := t[..2];
    assert t == two + t[2..];
    assert two[1..][1..] == [];
    CountConcat(two, t[2..], Initialise);
    CountConcat(two, t[2..], Integrate);
    NoCallsOf(t[2..], Initialise);
    NoCallsOf(t[2..], Integrate);
  }

  lemma {:induction false} NoCallsOf<U, I>(t: Trace<U, I>, c: Call)
    requires forall j :: 0 <= j < |t| ==> CallOf(t[j]) != c
    ensures Count(t, c) == 0
  {
    if t != [] {
      NoCallsOf(t[1..], c);
    }
  }

  /** Once any initialisation has succeeded, launch logs the start, runs the integrator once and reports. */
  lemma LaunchRunsOnce<U, I>(w: World<U, I>, h: Trace<U, I>, sim: Simulation<U, I>,
                             x: real, xFinal: real, y: seq<real>)
    requires sim.resume || w.initialise(h, sim.integrator, x, xFinal, y).Ok?
    ensures var s := LaunchRun(w, h, sim, x, xFinal, y);
      var h1 := if sim.resume then h else h + [IntegratorInitialised(sim.integrator, x, xFinal, y)];
      h1 < s.trace && RunShape(s.trace[|h1|..], Started(sim.name, sim.initialTime, sim.finalTime))
  {
  }

  /** `launch` calls `initialise` if and only if the run is not a resume, and then as its first call. */
  lemma LaunchInitialisesOnlyFreshRuns<U, I>(w: World<U, I>, h: Trace<U, I>, sim: Simulation<U, I>,
                                            x: real, xFinal: real, y: seq<real>)
    ensures var s := LaunchRun(w, h, sim, x, xFinal, y);
      && h < s.trace
      && Count(s.trace, Initialise) == Count(h, Initialise) + (if sim.resume then 0 else 1)
      && (!sim.resume ==> h + [IntegratorInitialised(sim.integrator, x, xFinal, y)] <= s.trace)
  {
    var s := LaunchRun(w, h, sim, x, xFinal, y);
    var h1 := if sim.resume then h else h + [IntegratorInitialised(sim.integrator, x, xFinal, y)];
    if !sim.resume {
      CountConcat(h, [IntegratorInitialised(sim.integrator, x, xFinal, y)], Initialise);
      CountOne<U, I>(IntegratorInitialised(sim.integrator, x, xFinal, y), Initialise);
    }
    assert Count(h1, Initialise) == Count(h, Initialise) + (if sim.resume then 0 else 1);
    var tail: Trace<U, I>;
    if !sim.resume && w.initialise(h, sim.integrator, x, xFinal, y).Err? {
      LaunchStopsWhenInitialiseFails(w, h, sim, x, xFinal, y);
      tail := [];
      assert s.trace == h1 + tail;
    } else {
      LaunchRunsOnce(w, h, sim, x, xFinal, y);
      tail := s.trace[|h1|..];
      assert s.trace == h1 + tail;
      CountConcat(h1, tail, Initialise);
      RunShapeCounts(tail, Started(sim.name, sim.initialTime, sim.finalTime));
    }
  }

  /**
   When `initialise` fails, `launch` returns its error at once: nothing is
   logged and the integrator never runs.
   */
  lemma LaunchStopsWhenInitialiseFails<U, I>(w: World<U, I>, h: Trace<U, I>, sim: Simulation<U, I>,
                                            x: real, xFinal: real, y: seq<real>)
    requires !sim.resume && w.initialise(h, sim.integrator, x, xFinal, y).Err?
    ensures LaunchRun(w, h, sim, x, xFinal, y)
         == Step(Err(w.initialise(h, sim.integrator, x, xFinal, y).error),
                 h + [IntegratorInitialised(sim.integrator, x, xFinal, y)])
  {
  }

  /**
   Otherwise `launch` logs the start, runs the integrator once on the
   simulation's system with the (possibly initialised) integrator, logs its
   outcome, and returns `Ok` whatever the integrator answered.
   */
  lemma LaunchAbsorbsIntegrationOutcome<U, I>(w: World<U, I>, h: Trace<U, I>, sim: Simulation<U, I>,
                                             x: real, xFinal: real, y: seq<real>)
    requires sim.resume || w.initialise(h, sim.integrator, x, xFinal, y).Ok?
    ensures var s := LaunchRun(w, h, sim, x, xFinal, y);
      var h1 := if sim.resume then h else h + [IntegratorInitialised(sim.integrator, x, xFinal, y)];
      var integrator := if sim.resume then sim.integrator else w.initialise(h, sim.integrator, x, xFinal, y).value;
      var h2 := h1 + [Logged(Started(sim.name, sim.initialTime, sim.finalTime))];
      var report := match w.integrate(h2, integrator, sim.system)
        case Ok(stats) => [Logged(Completed(sim.name, sim.finalTime, stats))]
        case Err(why) => FailureReport(sim.name, why);
      && s.result == Ok(())
      && s.trace == h2 + [IntegrationRun(integrator, sim.system)] + report
      && Count(s.trace, Integrate) == Count(h, Integrate) + 1
  {
    var s := LaunchRun(w, h, sim, x, xFinal, y);
    var h1 := if sim.resume then h else h + [IntegratorInitialised(sim.integrator, x, xFinal, y)];
    if !sim.resume {
      CountConcat(h, [IntegratorInitialised(sim.integrator, x, xFinal, y)], Integrate);
      CountOne<U, I>(IntegratorInitialised(sim.integrator, x, xFinal, y), Integrate);
    }
    assert Count(h1, Integrate) == Count(h, Integrate);
    LaunchRunsOnce(w, h, sim, x, xFinal, y);
    var tail := s.trace[|h1|..];
    assert s.trace == h1 + tail;
    CountConcat(h1, tail, Integrate);
    RunShapeCounts(tail, Started(sim.name, sim.initialTime, sim.finalTime));
  }

  // ---------------------------------------------------------------- outcome

  /** Appending causes appends their suffixes: the chain is flattened in order. */
  lemma {:induction false} SuffixesConcat(a: seq<Bytes>, b: seq<Bytes>)
    ensures Suffixes(a + b) == Suffixes(a) + Suffixes(b)
    decreases |b|
  {
    if b == [] {
      assert a + b == a;
    } else {
      var b' := b[..|b| - 1];
      assert (a + b)[..|a + b| - 1] == a + b';
      assert (a + b)[|a + b| - 1] == b[|b| - 1];
      SuffixesConcat(a, b');
    }
  }

  /**
   Every cause shows up in the flattened message as `": " + cause`, right
   after the prefix and all the causes before it.
   */
  lemma CauseAt(prefix: Bytes, causes: seq<Bytes>, k: nat)
    requires k < |causes|
    ensures var at := |prefix| + |Suffixes(causes[..k])|;
      var m := Flattened(prefix, causes);
      && at + |CAUSE_SEPARATOR| + |causes[k]| <= |m|
      && m[..|prefix|] == prefix
      && m[at..at + |CAUSE_SEPARATOR| + |causes[k]|] == CAUSE_SEPARATOR + causes[k]
  {
    assert causes == causes[..k] + ([causes[k]] + causes[k + 1..]);
    SuffixesConcat(causes[..k], [causes[k]] + causes[k + 1..]);
    SuffixesConcat([causes[k]], causes[k + 1..]);
    assert Suffixes([causes[k]]) == CAUSE_SEPARATOR + causes[k] by {
      assert [causes[k]][..0] == [];
    }
  }

  /**
   Outcome classification: a step-limit stop becomes one warning carrying
   the time and the step count, with nothing on stderr; every other error
   becomes one line on stderr, `Error: ` and the abort message, followed by
   that same message logged as an error. The message is the abort prefix
   with the causes appended in chain order (`CauseAt` locates each one).
   */
  lemma FailureIsClassified<U, I>(name: Bytes, why: IntegratorError)
    ensures var report: Trace<U, I> := FailureReport(name, why);
      && |report| == (if why.StepLimitReached? then 1 else 2)
      && (why.StepLimitReached? ==> report[0] == Logged(StepLimitHit(name, why.x, why.nStep)))
      && (why.Other? ==>
            && report[0].Eprinted? && report[1].Logged? && report[1].record.Aborted?
            && report[0].line == STDERR_PREFIX + report[1].record.message
            && report[1].record.message == Flattened(AbortPrefix(name), why.failure.Chain()))
  {
  }

  // ---------------------------------------------------------------- names

  /** The input `a.b.conf` is run under the name `a.b`. */
  lemma DottedInputRunName()
    ensures RunName([Normal([0x61, DOT, 0x62, DOT] + CONF)]) == Some([0x61, DOT, 0x62])
  {
    var name: Bytes := [0x61, DOT, 0x62];
    ExtensionsAreSimple();
    assert [0x61, DOT, 0x62, DOT] + CONF == name + [DOT] + CONF;
    SplitNameUnique(name, CONF);
    AsciiIsUtf8(name);
  }

  /**
   A run name that itself contains a dot loses its last segment when the
   extension is set: the run `a.b` writes `a.conf` and `a.jsonl`.
   */
  lemma DottedRunNameLosesLastSegment(runDir: Path)
    ensures ConfigCopyPath(runDir, [0x61, DOT, 0x62]) == runDir + [Normal([0x61, DOT] + CONF)]
    ensures ResultFilePath(runDir, [0x61, DOT, 0x62]) == runDir + [Normal([0x61, DOT] + JSONL)]
  {
    var name: Bytes := [0x61, DOT, 0x62];
    assert name == [0x61] + [DOT] + [0x62];
    SplitNameUnique([0x61], [0x62]);
    RunFilesSitInRunDir(runDir, name);
    assert [0x61] + [DOT] + CONF == [0x61, DOT] + CONF;
    assert [0x61] + [DOT] + JSONL == [0x61, DOT] + JSONL;
  }

  /**
   The input `...conf` has the run name `..`, which `join` keeps as a
   parent step and which has no file name, so `set_extension` changes
   nothing: the config copy and the result file are both aimed at
   `run_dir/..`, the output directory itself.
   */
  lemma DoubleDotRunNameTargetsOutputDir(runDir: Path)
    ensures RunName([Normal([DOT, DOT, DOT] + CONF)]) == Some(PARENT)
    ensures ConfigCopyPath(runDir, PARENT) == runDir + [ParentDir]
    ensures ResultFilePath(runDir, PARENT) == runDir + [ParentDir]
  {
    ExtensionsAreSimple();
    assert [DOT, DOT, DOT] + CONF == PARENT + [DOT] + CONF;
    SplitNameUnique(PARENT, CONF);
    AsciiIsUtf8(PARENT);
    var up := Join(runDir, PARENT);
    assert up == runDir + [ParentDir];
    SetExtensionWithoutFileName(up, CONF);
    SetExtensionWithoutFileName(up, JSONL);
  }

  /**
   Run names made only of dots escape the run directory: an input named
   `..conf` has the run name `.`, which `join` drops, so the config copy and
   the result file are written next to the run directory, as
   `<run_dir>.conf` and `<run_dir>.jsonl`.
   */
  lemma DotRunNameEscapesRunDir(parent: Path, dir: Bytes)
    requires IsNormalName(dir) && NoDot(dir)
    ensures RunName([Normal([DOT, DOT] + CONF)]) == Some(CUR)
    ensures ConfigCopyPath(parent + [Normal(dir)], CUR) == parent + [Normal(dir + [DOT] + CONF)]
    ensures ResultFilePath(parent + [Normal(dir)], CUR) == parent + [Normal(dir + [DOT] + JSONL)]
  {
    ExtensionsAreSimple();
    assert [DOT, DOT] + CONF == CUR + [DOT] + CONF;
    SplitNameUnique(CUR, CONF);
    AsciiIsUtf8(CUR);
    var runDir := parent + [Normal(dir)];
    assert Join(runDir, CUR) == runDir && Join(parent, dir) == runDir;
    assert StemOf(dir) == dir;
    OutputPathInRunDir(parent, dir, CONF);
    OutputPathInRunDir(parent, dir, JSONL);
    SetExtensionTwice(runDir, CONF, JSONL);
  }
}
