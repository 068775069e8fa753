/**
 * SimulationRunner: environment setup, engine detection, the command executor, tleap and
 * the five MD stages, and the script copy's run_all. The stage chain is a table of stage
 * descriptors, and `Execute` is the reference semantics of running it: each step in order,
 * stopping at the first one that fails.
 */
module Runner {
  import opened Wrappers
  import opened Errors
  import opened Strings
  import opened Paths
  import opened Config
  import opened Documents
  import opened Host
  import opened Generator

  const Topology: string := "system.prmtop"
  const InitialCoordinates: string := "system.inpcrd"
  const SolvatedPdb: string := "system.pdb"

  // ---------------------------------------------------------------------------------
  // Environment

  /** `AMBER_ENV_DIR / "amber.sh"` (tools) and `script_dir / "env" / "amber.sh"` (script). */
  function AmberScript(site: Site): string {
    Join(EnvDir(site), "amber.sh")
  }

  /** `bash -c "source <amber.sh> && env"`, run with the inherited environment and cwd. */
  function SourceProcess(site: Site): Process {
    Process(["/bin/bash", "-c", "source " + AmberScript(site) + " && env"], None, None)
  }

  /** The key a line of `env` output binds: the text before its first `=`, if any. */
  function LineKey(line: string): Option<string> {
    var (key, found, _) := Partition(line, '=');
    if found then Some(key) else None
  }

  function LineValue(line: string): string {
    Partition(line, '=').2
  }

  /** One pass of the loop body: a line with `=` sets its key, any other line is skipped. */
  function MergeLine(env: map<string, string>, line: string): map<string, string> {
    match LineKey(line)
    case Some(key) => env[key := LineValue(line)]
    case None => env
  }

  /** The environment after the loop has processed `lines`, in order. */
  function MergeEnv(env: map<string, string>, lines: seq<string>): map<string, string>
    decreases |lines|
  {
    if lines == [] then env
    else MergeLine(MergeEnv(env, lines[..|lines| - 1]), lines[|lines| - 1])
  }

  /** setup_environment's result: the sourced variables, then (tools copy) the GPU choice. */
  function EnvAfterSetup(c: Config, env: map<string, string>, stdout: string): map<string, string> {
    var merged := MergeEnv(env, SplitLines(stdout));
    match c.gpu
    case Some(g) => if c.useGpu then merged["CUDA_VISIBLE_DEVICES" := g.cudaDeviceId] else merged
    case None => merged
  }

  lemma MergeEnvStep(env: map<string, string>, lines: seq<string>, i: nat)
    requires i < |lines|
    ensures MergeEnv(env, lines[..i + 1]) == MergeLine(MergeEnv(env, lines[..i]), lines[i])
  {
    assert lines[..i + 1][..i] == lines[..i];
  }

  /** The keys the lines of `lines` bind. */
  function BoundKeys(lines: seq<string>): set<string> {
    set j | 0 <= j < |lines| && LineKey(lines[j]).Some? :: LineKey(lines[j]).value
  }

  // ---------------------------------------------------------------------------------
  // Engine detection

  /** Engine variants in order of preference; the CUDA build only when a GPU is wanted. */
  function EngineCandidates(useGpu: bool): seq<string> {
    (if useGpu then ["pmemd.cuda"] else []) + ["pmemd", "sander"]
  }

  function WhichProcess(name: string, env: map<string, string>): Process {
    Process(["which", name], None, Some(env))
  }

  /** `which <name>` succeeds under `env`. */
  predicate Available(world: World, env: map<string, string>, name: string) {
    world.exitOf(WhichProcess(name, env)) == 0
  }

  function Probes(names: seq<string>, env: map<string, string>): seq<Process> {
    seq(|names|, j requires 0 <= j < |names| => WhichProcess(names[j], env))
  }

  /** Priority search with early exit: the names probed, in order, and the engine chosen. */
  function Probe(names: seq<string>, world: World, env: map<string, string>)
    : (seq<string>, Option<string>)
  {
    if names == [] then ([], None)
    else if Available(world, env, names[0]) then ([names[0]], Some(names[0]))
    else
      var later := Probe(names[1..], world, env);
      ([names[0]] + later.0, later.1)
  }

  /**
   * The probes stop at the first success and choose that name; every name probed before
   * it is unavailable; when none is available, every name was probed.
   */
  lemma {:induction false} ProbeChoosesFirstAvailable(names: seq<string>, world: World, env: map<string, string>)
    ensures var r := Probe(names, world, env);
      && |r.0| <= |names| && r.0 == names[..|r.0|]
      && (r.1.Some? ==>
            && |r.0| > 0 && r.1.value == names[|r.0| - 1] && Available(world, env, r.1.value)
            && forall j :: 0 <= j < |r.0| - 1 ==> !Available(world, env, names[j]))
      && (r.1.None? ==>
            r.0 == names && forall j :: 0 <= j < |names| ==> !Available(world, env, names[j]))
    decreases |names|
  {
    if names != [] && !Available(world, env, names[0]) {
      ProbeChoosesFirstAvailable(names[1..], world, env);
      var later := Probe(names[1..], world, env);
      assert names[..|later.0| + 1] == [names[0]] + names[1..][..|later.0|];
      forall j | 0 <= j < |later.0| + 1 && j < |names| && (later.1.None? || j < |later.0|)
        ensures !Available(world, env, names[j])
      {
        if j > 0 {
          assert names[j] == names[1..][j - 1];
        }
      }
    }
  }

  // ---------------------------------------------------------------------------------
  // Stages

  /**
   * A stage descriptor: the document it runs, its log, the coordinates it starts from
   * (`-c`), the restart file it must leave (`-r`), and optional trajectory (`-x`) and
   * restraint reference (`-ref`) files.
   */
  datatype Stage = Stage(
    name: StepName,
    input: string,
    log: string,
    coords: string,
    restart: string,
    trajectory: Option<string>,
    reference: Option<string>)

  /** The k-th engine stage, in the order they run. */
  function StageAt(k: nat): Stage
    requires k < 5
  {
    match k
    case 0 => Stage(MinimizationRestrained, "min.in", "min.out", "system.inpcrd", "min.rst7",
                    None, Some("system.inpcrd"))
    case 1 => Stage(MinimizationFree, "min2.in", "min2.out", "min.rst7", "min2.rst7", None, None)
    case 2 => Stage(Heating, "heat.in", "heat.out", "min2.rst7", "heat.rst7",
                    Some("heat.nc"), Some("min2.rst7"))
    case 3 => Stage(Equilibration, "equil.in", "equil.out", "heat.rst7", "equil.rst7",
                    Some("equil.nc"), Some("heat.rst7"))
    case 4 => Stage(Production, "prod.in", "prod.out", "equil.rst7", "prod.rst7", Some("prod.nc"), None)
  }

  /** The five engine stages. */
  const MdStages: seq<Stage> := [StageAt(0), StageAt(1), StageAt(2), StageAt(3), StageAt(4)]

  /** run_minimization's descriptor: stage 1 is restrained, any other stage number is free. */
  function MinimizationStage(stage: int): Stage {
    if stage == 1 then StageAt(0) else StageAt(1)
  }

  /** The engine command line of a stage. */
  function StageArgv(engine: string, s: Stage): seq<string> {
    [engine, "-O", "-i", s.input, "-o", s.log, "-p", Topology, "-c", s.coords, "-r", s.restart]
    + (match s.trajectory case Some(x) => ["-x", x] case None => [])
    + (match s.reference case Some(r) => ["-ref", r] case None => [])
  }

  const TleapArgv: seq<string> := ["tleap", "-f", "tleap.in"]

  /** The external steps of a full run: preparation with tleap, then the engine stages. */
  datatype Step = Prepare | Simulate(stage: Stage)

  const PipelineSteps: seq<Step> := [
    Prepare, Simulate(StageAt(0)), Simulate(StageAt(1)), Simulate(StageAt(2)),
    Simulate(StageAt(3)), Simulate(StageAt(4))
  ]

  function StepNameOf(step: Step): StepName {
    match step
    case Prepare => Tleap
    case Simulate(s) => s.name
  }

  /** The files a step must leave in the output directory. */
  function DeclaredOutputs(step: Step): set<string> {
    match step
    case Prepare => {Topology, InitialCoordinates}
    case Simulate(s) => {s.restart}
  }

  /** run_command's process: argv, the output directory as cwd, the runner's environment. */
  function StepProcess(step: Step, engine: string, dir: string, env: map<string, string>): Process {
    var argv := match step
      case Prepare => TleapArgv
      case Simulate(s) => StageArgv(engine, s);
    Process(argv, Some(dir), Some(env))
  }

  /**
   * Whether a finished step failed, and how: a non-zero exit fails, and so does a zero
   * exit that leaves a declared output missing.
   */
  function StepVerdict(step: Step, exit: int, files: set<string>, dir: string): (v: Option<Error>)
    ensures v.None? <==>
      exit == 0 && forall f :: f in DeclaredOutputs(step) ==> Join(dir, f) in files
    ensures exit != 0 ==> v == Some(StepFailed(StepNameOf(step)))
  {
    if exit != 0 then Some(StepFailed(StepNameOf(step)))
    else match step
      case Prepare =>
        if Join(dir, Topology) !in files || Join(dir, InitialCoordinates) !in files
        then Some(TleapOutputsMissing) else None
      case Simulate(s) =>
        if Join(dir, s.restart) !in files
        then Some(StepOutputMissing(s.name, Join(dir, s.restart))) else None
  }

  /** The processes that ran, the files afterwards, and the error that stopped the run. */
  datatype Execution = Execution(ran: seq<Process>, files: set<string>, error: Option<Error>)

  /** Reference semantics of a strictly sequential run that aborts at the first failure. */
  function Execute(steps: seq<Step>, files: set<string>, world: World, engine: string,
                   dir: string, env: map<string, string>): Execution
    decreases |steps|
  {
    if steps == [] then Execution([], files, None)
    else
      var p := StepProcess(steps[0], engine, dir, env);
      var after := files + world.creates(p);
      var verdict := StepVerdict(steps[0], world.exitOf(p), after, dir);
      if verdict.Some? then Execution([p], after, verdict)
      else
        var rest := Execute(steps[1..], after, world, engine, dir, env);
        Execution([p] + rest.ran, rest.files, rest.error)
  }

  /** Lines of system.pdb that start with ATOM, or 0 when tleap wrote no such file. */
  function AtomCount(files: set<string>, dir: string, world: World): nat {
    var pdb := Join(dir, SolvatedPdb);
    if pdb in files then CountStartingWith(SplitLines(world.read(pdb)), "ATOM") else 0
  }

  lemma ProbesExtend(probed: seq<string>, name: string, env: map<string, string>, world: World)
    ensures Probes(probed + [name], env) == Probes(probed, env) + [WhichProcess(name, env)]
    ensures CreatedBy(Probes(probed + [name], env), world)
         == CreatedBy(Probes(probed, env), world) + world.creates(WhichProcess(name, env))
  {
    var p := WhichProcess(name, env);
    assert Probes(probed + [name], env) == Probes(probed, env) + [p];
    CreatedByAppend(Probes(probed, env), [p], world);
    assert CreatedBy([p], world) == world.creates(p) + CreatedBy([], world);
  }

  lemma ProbesPrepend(name: string, rest: seq<string>, env: map<string, string>, world: World)
    ensures Probes([name] + rest, env) == [WhichProcess(name, env)] + Probes(rest, env)
    ensures CreatedBy(Probes([name] + rest, env), world)
         == world.creates(WhichProcess(name, env)) + CreatedBy(Probes(rest, env), world)
  {
    var ps := Probes([name] + rest, env);
    assert ps == [WhichProcess(name, env)] + Probes(rest, env);
    assert ps[1..] == Probes(rest, env);
  }

  lemma ProbeTake(names: seq<string>, world: World, env: map<string, string>)
    requires |names| > 0 && Available(world, env, names[0])
    ensures Probe(names, world, env) == ([names[0]], Some(names[0]))
  {
  }

  lemma ProbeSkip(names: seq<string>, world: World, env: map<string, string>)
    requires |names| > 0 && !Available(world, env, names[0])
    ensures Probe(names, world, env)
         == ([names[0]] + Probe(names[1..], world, env).0, Probe(names[1..], world, env).1)
  {
  }

  /** Without a GPU, pmemd is preferred to sander. */
  lemma CpuEngineSearch(world: World, env: map<string, string>)
    ensures Probe(EngineCandidates(false), world, env) ==
      if Available(world, env, "pmemd") then (["pmemd"], Some("pmemd"))
      else if Available(world, env, "sander") then (["pmemd", "sander"], Some("sander"))
      else (["pmemd", "sander"], None)
  {
    var names := EngineCandidates(false);
    assert names[1..] == ["sander"];
    if !Available(world, env, "pmemd") {
      ProbeSkip(names, world, env);
      if !Available(world, env, "sander") {
        ProbeSkip(names[1..], world, env);
        assert names[1..][1..] == [];
        assert ["pmemd"] + (["sander"] + []) == ["pmemd", "sander"];
      } else {
        ProbeTake(names[1..], world, env);
        assert ["pmemd"] + ["sander"] == ["pmemd", "sander"];
      }
    }
  }

  /** With a GPU, pmemd.cuda is tried first; when it is missing the CPU search follows. */
  lemma GpuEngineSearch(world: World, env: map<string, string>)
    ensures Probe(EngineCandidates(true), world, env) ==
      if Available(world, env, "pmemd.cuda") then (["pmemd.cuda"], Some("pmemd.cuda"))
      else
        var cpu := Probe(EngineCandidates(false), world, env);
        (["pmemd.cuda"] + cpu.0, cpu.1)
  {
    assert EngineCandidates(true)[1..] == EngineCandidates(false);
  }

  // ---------------------------------------------------------------------------------
  // Properties of the environment merge

  /** The merged environment has the old keys and every key a line binds, and no other. */
  lemma {:induction false} MergeEnvKeys(env: map<string, string>, lines: seq<string>)
    ensures MergeEnv(env, lines).Keys == env.Keys + BoundKeys(lines)
    decreases |lines|
  {
    if lines != [] {
      var init := lines[..|lines| - 1];
      var last := lines[|lines| - 1];
      MergeEnvKeys(env, init);
      var extra := if LineKey(last).Some? then {LineKey(last).value} else {};
      forall k | k in BoundKeys(lines) ensures k in BoundKeys(init) + extra {
        var j :| 0 <= j < |lines| && LineKey(lines[j]).Some? && LineKey(lines[j]).value == k;
        if j < |init| {
          assert init[j] == lines[j];
        }
      }
      forall k | k in BoundKeys(init) ensures k in BoundKeys(lines) {
        var j :| 0 <= j < |init| && LineKey(init[j]).Some? && LineKey(init[j]).value == k;
        assert lines[j] == init[j];
      }
      assert BoundKeys(lines) == BoundKeys(init) + extra;
    }
  }

  /** A key no line binds keeps its old value, or stays absent; lines without `=` do nothing. */
  lemma {:induction false} MergeEnvUntouched(env: map<string, string>, lines: seq<string>, key: string)
    requires forall j :: 0 <= j < |lines| ==> LineKey(lines[j]) != Some(key)
    ensures key in MergeEnv(env, lines) <==> key in env
    ensures key in env ==> MergeEnv(env, lines)[key] == env[key]
    decreases |lines|
  {
    if lines != [] {
      var init := lines[..|lines| - 1];
      forall j | 0 <= j < |init| ensures LineKey(init[j]) != Some(key) {
        assert init[j] == lines[j];
      }
      MergeEnvUntouched(env, init, key);
    }
  }

  /** The last line that binds a key decides its value. */
  lemma {:induction false} MergeEnvLastWins(env: map<string, string>, lines: seq<string>, j: int)
    requires 0 <= j < |lines| && LineKey(lines[j]).Some?
    requires forall i :: j < i < |lines| ==> LineKey(lines[i]) != LineKey(lines[j])
    ensures LineKey(lines[j]).value in MergeEnv(env, lines)
    ensures MergeEnv(env, lines)[LineKey(lines[j]).value] == LineValue(lines[j])
    decreases |lines|
  {
    if j < |lines| - 1 {
      var init := lines[..|lines| - 1];
      assert init[j] == lines[j];
      forall i | j < i < |init| ensures LineKey(init[i]) != LineKey(init[j]) {
        assert init[i] == lines[i];
      }
      MergeEnvLastWins(env, init, j);
    }
  }

  /** The tools copy pins CUDA_VISIBLE_DEVICES after sourcing; the script copy does not. */
  lemma CudaOverride(c: Config, env: map<string, string>, stdout: string)
    requires Valid(c)
    ensures c.variant == ToolsCopy && c.useGpu ==>
      EnvAfterSetup(c, env, stdout)["CUDA_VISIBLE_DEVICES"] == c.gpu.value.cudaDeviceId
    ensures c.variant == ScriptCopy || !c.useGpu ==>
      EnvAfterSetup(c, env, stdout) == MergeEnv(env, SplitLines(stdout))
  {
  }

  // ---------------------------------------------------------------------------------
  // Properties of the stage chain

  /**
   * Each stage starts from the restart file the previous one leaves, the first from
   * tleap's coordinates; a restrained stage is restrained to its own starting structure.
   */
  lemma StageChain()
    ensures MdStages[0].coords == InitialCoordinates
    ensures forall i :: 0 < i < |MdStages| ==> MdStages[i].coords == MdStages[i - 1].restart
    ensures forall i :: 0 <= i < |MdStages| && MdStages[i].reference.Some? ==>
      MdStages[i].reference.value == MdStages[i].coords
    ensures forall i, j :: 0 <= i < j < |MdStages| ==> MdStages[i].restart != MdStages[j].restart
  {
  }

  /** Where each file name sits on an engine command line. */
  lemma StageArgvLayout(engine: string, s: Stage)
    ensures var argv := StageArgv(engine, s);
      && |argv| == 12 + (if s.trajectory.Some? then 2 else 0) + (if s.reference.Some? then 2 else 0)
      && argv[0] == engine && argv[1] == "-O"
      && argv[2] == "-i" && argv[3] == s.input && argv[4] == "-o" && argv[5] == s.log
      && argv[6] == "-p" && argv[7] == Topology && argv[8] == "-c" && argv[9] == s.coords
      && argv[10] == "-r" && argv[11] == s.restart
      && (s.trajectory.Some? ==> argv[12] == "-x" && argv[13] == s.trajectory.value)
      && (s.reference.Some? ==> argv[|argv| - 2] == "-ref" && argv[|argv| - 1] == s.reference.value)
  {
  }

  /** Consecutive command lines: the `-c` of one stage is the `-r` of the one before. */
  lemma ArgvChain(engine: string, i: int)
    requires 0 < i < |MdStages|
    ensures StageArgv(engine, MdStages[i])[9] == StageArgv(engine, MdStages[i - 1])[11]
  {
    StageChain();
    StageArgvLayout(engine, MdStages[i]);
    StageArgvLayout(engine, MdStages[i - 1]);
  }

  /**
   * The stage table agrees with the documents: stage k runs the (k+1)-th generated file,
   * which enables positional restraints exactly when the stage passes `-ref`, and writes
   * trajectory frames exactly when the stage passes `-x`.
   */
  lemma StagesMatchDocuments(c: Config, k: int)
    requires 0 <= k < |MdStages|
    ensures MdStages[k].input == InputNames[k + 1]
    ensures DocumentFor(c, k + 1).MdInput? && ntr in DocumentFor(c, k + 1).cntrl
    ensures DocumentFor(c, k + 1).cntrl[ntr] == Int(1) <==> MdStages[k].reference.Some?
    ensures ntwx in DocumentFor(c, k + 1).cntrl <==> MdStages[k].trajectory.Some?
  {
    if k == 0 {
    } else if k == 1 {
    } else if k == 2 {
    } else if k == 3 {
    } else {
    }
  }

  /** tleap saves exactly the two files the first stage reads. */
  lemma TleapFeedsFirstStage(c: Config)
    ensures SaveAmberParm("mol", Topology, InitialCoordinates) in TleapInput(c).commands
    ensures DeclaredOutputs(Prepare) == {Topology, MdStages[0].coords}
  {
    assert TleapInput(c).commands[7] == SaveAmberParm("mol", Topology, InitialCoordinates);
  }

  // ---------------------------------------------------------------------------------
  // Properties of Execute

  function AsOutcome(v: Option<Error>): (o: Outcome<Error>)
    ensures o.Pass? <==> v.None?
  {
    match v
    case Some(e) => Fail(e)
    case None => Pass
  }

  /** Execute on a non-empty chain: run the first step, then the rest unless it failed. */
  lemma ExecuteUnfold(steps: seq<Step>, files: set<string>, world: World, engine: string,
                      dir: string, env: map<string, string>)
    requires steps != []
    ensures
      var p := StepProcess(steps[0], engine, dir, env);
      var after := files + world.creates(p);
      var v := StepVerdict(steps[0], world.exitOf(p), after, dir);
      var rest := Execute(steps[1..], after, world, engine, dir, env);
      Execute(steps, files, world, engine, dir, env) ==
        if v.Some? then Execution([p], after, v) else Execution([p] + rest.ran, rest.files, rest.error)
  {
  }

  /** Execute from the i-th step on: run that step, then the ones after it unless it failed. */
  lemma ExecuteUnfoldAt(steps: seq<Step>, i: nat, files: set<string>, world: World, engine: string,
                        dir: string, env: map<string, string>)
    requires i < |steps|
    ensures
      var p := StepProcess(steps[i], engine, dir, env);
      var after := files + world.creates(p);
      var v := StepVerdict(steps[i], world.exitOf(p), after, dir);
      var rest := Execute(steps[i + 1..], after, world, engine, dir, env);
      Execute(steps[i..], files, world, engine, dir, env) ==
        if v.Some? then Execution([p], after, v) else Execution([p] + rest.ran, rest.files, rest.error)
  {
    assert steps[i..][0] == steps[i];
    assert steps[i..][1..] == steps[i + 1..];
    ExecuteUnfold(steps[i..], files, world, engine, dir, env);
  }

  /** When the i-th step passes, the run from it on is that step followed by the run of the rest. */
  lemma ExecuteContinuesAt(steps: seq<Step>, i: nat, files: set<string>, world: World,
                           engine: string, dir: string, env: map<string, string>)
    requires i < |steps|
    requires var p := StepProcess(steps[i], engine, dir, env);
      StepVerdict(steps[i], world.exitOf(p), files + world.creates(p), dir).None?
    ensures var p := StepProcess(steps[i], engine, dir, env);
      Execute(steps[i..], files, world, engine, dir, env)
        == Resume([p], Execute(steps[i + 1..], files + world.creates(p), world, engine, dir, env))
  {
    ExecuteUnfoldAt(steps, i, files, world, engine, dir, env);
  }

  /** A run of which the processes `done` have happened and `rest` is still to come. */
  function Resume(done: seq<Process>, rest: Execution): Execution {
    Execution(done + rest.ran, rest.files, rest.error)
  }

  /** Spawned-process logs concatenate associatively. */
  lemma LogsConcat(a: seq<Process>, b: seq<Process>, c: seq<Process>)
    ensures a + b + c == a + (b + c)
  {
  }

  lemma ResumeResume(a: seq<Process>, b: seq<Process>, x: Execution)
    ensures Resume(a, Resume(b, x)) == Resume(a + b, x)
  {
    assert a + (b + x.ran) == (a + b) + x.ran;
  }

  /** The processes of the first n steps, and the files once they have all run. */
  function Trace(steps: seq<Step>, files: set<string>, world: World, engine: string, dir: string,
                 env: map<string, string>, n: nat): (seq<Process>, set<string>)
    requires n <= |steps|
  {
    if n == 0 then ([], files)
    else
      var before := Trace(steps, files, world, engine, dir, env, n - 1);
      var p := StepProcess(steps[n - 1], engine, dir, env);
      (before.0 + [p], before.1 + world.creates(p))
  }

  /** Each of the first n steps succeeded. */
  predicate PassedFirst(steps: seq<Step>, files: set<string>, world: World, engine: string,
                        dir: string, env: map<string, string>, n: nat)
    requires n <= |steps|
  {
    n == 0 ||
    (&& PassedFirst(steps, files, world, engine, dir, env, n - 1)
     && StepVerdict(steps[n - 1], world.exitOf(StepProcess(steps[n - 1], engine, dir, env)),
                    Trace(steps, files, world, engine, dir, env, n).1, dir).None?)
  }

  /** One more step of a traced run: the new processes and files extend the trace. */
  lemma TraceForward(steps: seq<Step>, files0: set<string>, world: World, engine: string, dir: string,
                     env: map<string, string>, i: nat, spawned0: seq<Process>,
                     spawnedBefore: seq<Process>, filesBefore: set<string>,
                     spawnedAfter: seq<Process>, filesAfter: set<string>)
    requires i < |steps|
    requires spawnedBefore == spawned0 + Trace(steps, files0, world, engine, dir, env, i).0
    requires filesBefore == Trace(steps, files0, world, engine, dir, env, i).1
    requires spawnedAfter == spawnedBefore + [StepProcess(steps[i], engine, dir, env)]
    requires filesAfter == filesBefore + world.creates(StepProcess(steps[i], engine, dir, env))
    ensures spawnedAfter == spawned0 + Trace(steps, files0, world, engine, dir, env, i + 1).0
    ensures filesAfter == Trace(steps, files0, world, engine, dir, env, i + 1).1
    ensures PassedFirst(steps, files0, world, engine, dir, env, i) &&
      StepVerdict(steps[i], world.exitOf(StepProcess(steps[i], engine, dir, env)), filesAfter, dir).None?
      ==> PassedFirst(steps, files0, world, engine, dir, env, i + 1)
  {
    var t := Trace(steps, files0, world, engine, dir, env, i);
    assert spawned0 + t.0 + [StepProcess(steps[i], engine, dir, env)]
        == spawned0 + (t.0 + [StepProcess(steps[i], engine, dir, env)]);
  }

  /** Once the first n steps have succeeded, the rest of the run is the run of the rest. */
  lemma {:induction false} ExecuteResumes(steps: seq<Step>, files: set<string>, world: World,
      engine: string, dir: string, env: map<string, string>, n: nat)
    requires n <= |steps| && PassedFirst(steps, files, world, engine, dir, env, n)
    ensures var t := Trace(steps, files, world, engine, dir, env, n);
      Execute(steps, files, world, engine, dir, env)
        == Resume(t.0, Execute(steps[n..], t.1, world, engine, dir, env))
    decreases n
  {
    if n == 0 {
      assert steps[0..] == steps;
    } else {
      ExecuteResumes(steps, files, world, engine, dir, env, n - 1);
      var t := Trace(steps, files, world, engine, dir, env, n - 1);
      var p := StepProcess(steps[n - 1], engine, dir, env);
      var t1 := Trace(steps, files, world, engine, dir, env, n);
      assert t1 == (t.0 + [p], t.1 + world.creates(p));
      ExecuteContinuesAt(steps, n - 1, t.1, world, engine, dir, env);
      var rest := Execute(steps[n..], t1.1, world, engine, dir, env);
      ResumeResume(t.0, [p], rest);
    }
  }

  /**
   * A run traced step by step: when all its steps succeed, or when the first n succeed and
   * the next fails, Execute is exactly what the trace shows.
   */
  lemma ExecuteFollowsTrace(steps: seq<Step>, files: set<string>, world: World, engine: string,
                            dir: string, env: map<string, string>, n: nat)
    requires n <= |steps| && PassedFirst(steps, files, world, engine, dir, env, n)
    ensures n == |steps| ==>
      var t := Trace(steps, files, world, engine, dir, env, n);
      Execute(steps, files, world, engine, dir, env) == Execution(t.0, t.1, None)
    ensures n < |steps| ==>
      var t := Trace(steps, files, world, engine, dir, env, n + 1);
      var v := StepVerdict(steps[n], world.exitOf(StepProcess(steps[n], engine, dir, env)), t.1, dir);
      v.Some? ==> Execute(steps, files, world, engine, dir, env) == Execution(t.0, t.1, v)
  {
    ExecuteResumes(steps, files, world, engine, dir, env, n);
    var t := Trace(steps, files, world, engine, dir, env, n);
    if n == |steps| {
      assert steps[n..] == [];
      assert t.0 + [] == t.0;
    } else {
      ExecuteUnfoldAt(steps, n, t.1, world, engine, dir, env);
    }
  }

  /**
   * The steps run in order, one process each, the run ends early only on an error, and
   * the files afterwards are the ones the processes that ran created.
   */
  lemma {:induction false} ExecuteRunsAPrefix(steps: seq<Step>, files: set<string>, world: World,
                                               engine: string, dir: string, env: map<string, string>)
    ensures var ex := Execute(steps, files, world, engine, dir, env);
      && |ex.ran| <= |steps|
      && (forall i :: 0 <= i < |ex.ran| ==> ex.ran[i] == StepProcess(steps[i], engine, dir, env))
      && (ex.error.None? ==> |ex.ran| == |steps|)
      && (ex.error.Some? ==> |ex.ran| > 0)
      && ex.files == files + CreatedBy(ex.ran, world)
    decreases |steps|
  {
    if steps != [] {
      var p := StepProcess(steps[0], engine, dir, env);
      var after := files + world.creates(p);
      var ex := Execute(steps, files, world, engine, dir, env);
      if StepVerdict(steps[0], world.exitOf(p), after, dir).Some? {
        assert ex.ran == [p];
        assert CreatedBy([p], world) == world.creates(p) + CreatedBy([], world);
      } else {
        ExecuteRunsAPrefix(steps[1..], after, world, engine, dir, env);
        var rest := Execute(steps[1..], after, world, engine, dir, env);
        assert ex.ran == [p] + rest.ran;
        assert ([p] + rest.ran)[1..] == rest.ran;
        forall i | 0 < i < |ex.ran| ensures ex.ran[i] == StepProcess(steps[i], engine, dir, env) {
          assert ex.ran[i] == rest.ran[i - 1];
          assert steps[i] == steps[1..][i - 1];
        }
      }
    }
  }

  /** The files present when the i-th process of a run has finished. */
  function FilesAfter(files: set<string>, ran: seq<Process>, i: int, world: World): set<string>
    requires 0 <= i < |ran|
  {
    files + CreatedBy(ran[..i + 1], world)
  }

  lemma FilesAfterShift(files: set<string>, p: Process, rest: seq<Process>, i: int, world: World)
    requires 0 < i <= |rest|
    ensures FilesAfter(files, [p] + rest, i, world) == FilesAfter(files + world.creates(p), rest, i - 1, world)
  {
    assert ([p] + rest)[..i + 1] == [p] + rest[..i];
    CreatedByAppend([p], rest[..i], world);
    assert CreatedBy([p], world) == world.creates(p) + CreatedBy([], world);
  }

  /** Every step that ran passed, except the last one when the run reports an error. */
  lemma {:induction false} ExecutePassesBeforeFailure(steps: seq<Step>, files: set<string>,
      world: World, engine: string, dir: string, env: map<string, string>)
    ensures var ex := Execute(steps, files, world, engine, dir, env);
      && |ex.ran| <= |steps|
      && (forall i :: 0 <= i < |ex.ran| && (i < |ex.ran| - 1 || ex.error.None?) ==>
            StepVerdict(steps[i], world.exitOf(ex.ran[i]), FilesAfter(files, ex.ran, i, world), dir).None?)
    decreases |steps|
  {
    if steps != [] {
      var p := StepProcess(steps[0], engine, dir, env);
      var after := files + world.creates(p);
      if StepVerdict(steps[0], world.exitOf(p), after, dir).None? {
        ExecutePassesBeforeFailure(steps[1..], after, world, engine, dir, env);
        var rest := Execute(steps[1..], after, world, engine, dir, env);
        var ran := [p] + rest.ran;
        assert FilesAfter(files, ran, 0, world) == after by {
          assert ran[..1] == [p];
          assert CreatedBy([p], world) == world.creates(p) + CreatedBy([], world);
        }
        forall i | 0 < i < |ran|
          ensures FilesAfter(files, ran, i, world) == FilesAfter(after, rest.ran, i - 1, world)
          ensures steps[i] == steps[1..][i - 1] && ran[i] == rest.ran[i - 1]
        {
          FilesAfterShift(files, p, rest.ran, i, world);
        }
      }
    }
  }

  /** When the run reports an error, it is the verdict on the last step that ran. */
  lemma {:induction false} ExecuteReportsFailingStep(steps: seq<Step>, files: set<string>,
      world: World, engine: string, dir: string, env: map<string, string>)
    ensures var ex := Execute(steps, files, world, engine, dir, env);
      && |ex.ran| <= |steps|
      && (ex.error.Some? ==>
            |ex.ran| > 0 &&
            StepVerdict(steps[|ex.ran| - 1], world.exitOf(ex.ran[|ex.ran| - 1]),
                        FilesAfter(files, ex.ran, |ex.ran| - 1, world), dir) == ex.error)
    decreases |steps|
  {
    if steps != [] {
      var p := StepProcess(steps[0], engine, dir, env);
      var after := files + world.creates(p);
      if StepVerdict(steps[0], world.exitOf(p), after, dir).Some? {
        assert FilesAfter(files, [p], 0, world) == after by {
          assert [p][..1] == [p];
          assert CreatedBy([p], world) == world.creates(p) + CreatedBy([], world);
        }
      } else {
        ExecuteReportsFailingStep(steps[1..], after, world, engine, dir, env);
        var rest := Execute(steps[1..], after, world, engine, dir, env);
        if rest.error.Some? {
          var i := |rest.ran|;
          FilesAfterShift(files, p, rest.ran, i, world);
          assert steps[i] == steps[1..][i - 1] && ([p] + rest.ran)[i] == rest.ran[i - 1];
        }
      }
    }
  }

  // ---------------------------------------------------------------------------------
  // run_all, as a function of the starting state

  /**
   * What a run leaves behind: the processes it spawned, the files afterwards, whether it
   * got as far as writing the input documents, the environment and engine it ended with,
   * and how it ended.
   */
  datatype Report = Report(
    spawned: seq<Process>,
    files: set<string>,
    wroteInputs: bool,
    env: map<string, string>,
    engine: Option<string>,
    outcome: Outcome<Error>)

  /**
   * The tail of run_all once an engine is known: the output directory and the six inputs
   * are written; a dry run stops there, otherwise tleap and the five stages run.
   */
  function PreparedRun(c: Config, files: set<string>, env: map<string, string>, engine: string,
                       world: World): (r: (seq<Process>, set<string>, Outcome<Error>))
  {
    var prepared := files + {c.outputDir} + InputPaths(c.outputDir);
    if c.dryRun then ([], prepared, Pass)
    else
      var ex := Execute(PipelineSteps, prepared, world, engine, c.outputDir, env);
      (ex.ran, ex.files, AsOutcome(ex.error))
  }

  /**
   * run_all once the environment is set up: the engine search, then (an engine found)
   * the prepared run. `spawned` is relative to the state after setup.
   */
  function DetectedRun(c: Config, files: set<string>, env: map<string, string>,
                       world: World): Report
  {
    var found := Probe(EngineCandidates(c.useGpu), world, env);
    var probes := Probes(found.0, env);
    var files1 := files + CreatedBy(probes, world);
    if found.1.None? then Report(probes, files1, false, env, None, Fail(NoEngineFound))
    else
      var tail := PreparedRun(c, files1, env, found.1.value, world);
      Report(probes + tail.0, tail.1, true, env, found.1, tail.2)
  }

  /** The script copy's run_all: setup, engine detection, input files, then the steps. */
  function ScriptRun(c: Config, site: Site, files: set<string>, env: map<string, string>,
                     world: World): Report
  {
    var src := SourceProcess(site);
    if AmberScript(site) !in files then
      Report([], files, false, env, None, Fail(AmberEnvironmentMissing(AmberScript(site))))
    else
      var files1 := files + world.creates(src);
      if world.exitOf(src) != 0 then Report([src], files1, false, env, None, Fail(SourcingFailed))
      else
        var d := DetectedRun(c, files1, EnvAfterSetup(c, env, world.stdoutOf(src)), world);
        Report([src] + d.spawned, d.files, d.wroteInputs, d.env, d.engine, d.outcome)
  }

  /** A dry run stops after writing the inputs: nothing is run in the output directory. */
  lemma DryRunRunsNoStep(c: Config, site: Site, files: set<string>, env: map<string, string>,
                         world: World)
    requires c.dryRun
    ensures var r := ScriptRun(c, site, files, env, world);
      forall i :: 0 <= i < |r.spawned| ==> r.spawned[i].cwd == None
  {
  }

  /** A run of all the steps, after any prefix, leaves those steps as the last processes. */
  lemma EndsWithSteps(pre: seq<Process>, ran: seq<Process>, steps: seq<Step>, engine: string,
                      dir: string, env: map<string, string>)
    requires |ran| == |steps|
    requires forall i :: 0 <= i < |ran| ==> ran[i] == StepProcess(steps[i], engine, dir, env)
    ensures |pre + ran| >= |steps|
    ensures forall i :: 0 <= i < |steps| ==>
      (pre + ran)[|pre + ran| - |steps| + i] == StepProcess(steps[i], engine, dir, env)
  {
    forall i | 0 <= i < |steps|
      ensures (pre + ran)[|pre + ran| - |steps| + i] == StepProcess(steps[i], engine, dir, env)
    {
      assert (pre + ran)[|pre| + i] == ran[i];
    }
  }

  /** A run that completes has run tleap and all five stages, in order, last. */
  lemma CompletedRunRanEveryStep(c: Config, site: Site, files: set<string>, env: map<string, string>,
                                 world: World)
    requires !c.dryRun
    ensures var r := ScriptRun(c, site, files, env, world);
      r.outcome.Pass? ==>
        && r.engine.Some? && |r.spawned| >= |PipelineSteps|
        && forall i :: 0 <= i < |PipelineSteps| ==>
             r.spawned[|r.spawned| - |PipelineSteps| + i]
               == StepProcess(PipelineSteps[i], r.engine.value, c.outputDir, r.env)
  {
    var r := ScriptRun(c, site, files, env, world);
    if r.outcome.Pass? {
      var src := SourceProcess(site);
      var found := Probe(EngineCandidates(c.useGpu), world, r.env);
      var probes := Probes(found.0, r.env);
      var files3 := files + world.creates(src) + CreatedBy(probes, world) + {c.outputDir}
                    + InputPaths(c.outputDir);
      ExecuteRunsAPrefix(PipelineSteps, files3, world, r.engine.value, c.outputDir, r.env);
      var ex := Execute(PipelineSteps, files3, world, r.engine.value, c.outputDir, r.env);
      LogsConcat([src], probes, ex.ran);
      EndsWithSteps([src] + probes, ex.ran, PipelineSteps, r.engine.value, c.outputDir, r.env);
    }
  }

  /** The inputs are written exactly when the environment is set up and an engine is found. */
  lemma InputsWrittenOnceEngineFound(c: Config, site: Site, files: set<string>,
                                     env: map<string, string>, world: World)
    ensures var r := ScriptRun(c, site, files, env, world);
      r.wroteInputs <==> r.engine.Some?
    ensures var r := ScriptRun(c, site, files, env, world);
      r.outcome.Pass? ==> r.wroteInputs
  {
  }

  // ---------------------------------------------------------------------------------
  // The runner

  class SimulationRunner {
    const config: Config
    const site: Site
    var mdEngine: Option<string>
    var env: map<string, string>
    var amberEnv: Option<string>

    /** `env` starts as a copy of the process environment. */
    constructor (config: Config, site: Site, processEnv: map<string, string>)
      ensures this.config == config && this.site == site
      ensures mdEngine == None && env == processEnv && amberEnv == None
    {
      this.config := config;
      this.site := site;
      mdEngine := None;
      env := processEnv;
      amberEnv := None;
    }

    /** The loop of setup_environment: every KEY=VALUE line of `stdout` sets KEY. */
    method MergeSourcedOutput(stdout: string)
      modifies this
      ensures env == MergeEnv(old(env), SplitLines(stdout))
      ensures mdEngine == old(mdEngine) && amberEnv == old(amberEnv)
    {
      var lines := SplitLines(stdout);
      var i := 0;
      while i < |lines|
        invariant 0 <= i <= |lines|
        invariant mdEngine == old(mdEngine) && amberEnv == old(amberEnv)
        invariant env == MergeEnv(old(env), lines[..i])
      {
        MergeEnvStep(old(env), lines, i);
        var (key, found, value) := Partition(lines[i], '=');
        if found {
          env := env[key := value];
        }
        i := i + 1;
      }
      assert lines[..|lines|] == lines;
    }

    /**
     * setup_environment: fails when amber.sh is missing or sourcing it exits non-zero;
     * otherwise merges the KEY=VALUE lines of its output into `env`, and (tools copy, GPU
     * wanted) selects the CUDA device.
     */
    method SetupEnvironment(m: Machine, world: World) returns (o: Outcome<Error>)
      modifies this, m
      ensures mdEngine == old(mdEngine) && m.written == old(m.written)
      ensures AmberScript(site) !in old(m.files) ==>
        && o == Fail(AmberEnvironmentMissing(AmberScript(site)))
        && env == old(env) && amberEnv == old(amberEnv)
        && m.spawned == old(m.spawned) && m.files == old(m.files)
      ensures AmberScript(site) in old(m.files) ==>
        && m.spawned == old(m.spawned) + [SourceProcess(site)]
        && m.files == old(m.files) + world.creates(SourceProcess(site))
        && amberEnv == (if config.variant == ScriptCopy then Some(EnvDir(site)) else old(amberEnv))
        && (o.Pass? <==> world.exitOf(SourceProcess(site)) == 0)
      ensures o.Fail? ==> env == old(env)
      ensures o.Fail? && AmberScript(site) in old(m.files) ==> o == Fail(SourcingFailed)
      ensures o.Pass? ==> env == EnvAfterSetup(config, old(env), world.stdoutOf(SourceProcess(site)))
    {
      var amberSh := AmberScript(site);
      if amberSh !in m.files {
        return Fail(AmberEnvironmentMissing(amberSh));
      }
      if config.variant == ScriptCopy {
        amberEnv := Some(EnvDir(site));
      }
      var exit, stdout := m.Spawn(SourceProcess(site), world);
      if exit != 0 {
        return Fail(SourcingFailed);
      }
      MergeSourcedOutput(stdout);
      match config.gpu {
        case Some(g) =>
          if config.useGpu {
            env := env["CUDA_VISIBLE_DEVICES" := g.cudaDeviceId];
          }
        case None =>
      }
      o := Pass;
    }

    /**
     * detect_md_engine: probes with `which`, in order of preference, and keeps the first
     * engine found; fails when there is none.
     */
    method DetectMdEngine(m: Machine, world: World) returns (r: Result<string, Error>)
      modifies this, m
      ensures env == old(env) && amberEnv == old(amberEnv) && m.written == old(m.written)
      ensures
        var (probed, choice) := Probe(EngineCandidates(config.useGpu), world, env);
        && m.spawned == old(m.spawned) + Probes(probed, env)
        && m.files == old(m.files) + CreatedBy(Probes(probed, env), world)
        && (choice.Some? ==> r == Success(choice.value) && mdEngine == choice)
        && (choice.None? ==> r == Failure(NoEngineFound) && mdEngine == old(mdEngine))
    {
      if !config.useGpu {
        r := DetectCpuEngine(m, world);
        return;
      }
      GpuEngineSearch(world, env);
      var p := WhichProcess("pmemd.cuda", env);
      ghost var cpu := Probe(EngineCandidates(false), world, env);
      ProbesPrepend("pmemd.cuda", cpu.0, env, world);
      ProbesPrepend("pmemd.cuda", [], env, world);
      var exit, out := m.Spawn(p, world);
      if exit == 0 {
        mdEngine := Some("pmemd.cuda");
        return Success("pmemd.cuda");
      }
      ghost var spawned0 := old(m.spawned);
      r := DetectCpuEngine(m, world);
      LogsConcat(spawned0, [p], Probes(cpu.0, env));
    }

    /** The CPU half of detect_md_engine: pmemd, then sander. */
    method DetectCpuEngine(m: Machine, world: World) returns (r: Result<string, Error>)
      modifies this, m
      ensures env == old(env) && amberEnv == old(amberEnv) && m.written == old(m.written)
      ensures
        var (probed, choice) := Probe(EngineCandidates(false), world, env);
        && m.spawned == old(m.spawned) + Probes(probed, env)
        && m.files == old(m.files) + CreatedBy(Probes(probed, env), world)
        && (choice.Some? ==> r == Success(choice.value) && mdEngine == choice)
        && (choice.None? ==> r == Failure(NoEngineFound) && mdEngine == old(mdEngine))
    {
      CpuEngineSearch(world, env);
      ghost var probed: seq<string> := [];
      assert Probes(probed, env) == [];
      ProbesExtend(probed, "pmemd", env, world);
      var exit, out := m.Spawn(WhichProcess("pmemd", env), world);
      probed := probed + ["pmemd"];
      if exit == 0 {
        mdEngine := Some("pmemd");
        return Success("pmemd");
      }
      ProbesExtend(probed, "sander", env, world);
      exit, out := m.Spawn(WhichProcess("sander", env), world);
      probed := probed + ["sander"];
      assert probed == ["pmemd", "sander"];
      if exit == 0 {
        mdEngine := Some("sander");
        return Success("sander");
      }
      r := Failure(NoEngineFound);
    }

    /**
     * run_command: runs `argv` in the output directory with the runner's environment; a
     * non-zero exit fails, and so does a zero exit that leaves `checkOutput` missing.
     */
    method RunCommand(m: Machine, world: World, argv: seq<string>, step: StepName,
                      checkOutput: Option<string>) returns (o: Outcome<Error>)
      modifies m
      ensures var p := Process(argv, Some(config.outputDir), Some(env));
        && m.spawned == old(m.spawned) + [p]
        && m.files == old(m.files) + world.creates(p)
        && m.written == old(m.written)
        && (world.exitOf(p) != 0 ==> o == Fail(StepFailed(step)))
        && (world.exitOf(p) == 0 && checkOutput.Some? && checkOutput.value !in m.files ==>
              o == Fail(StepOutputMissing(step, checkOutput.value)))
        && (o.Pass? <==> world.exitOf(p) == 0 && (checkOutput.Some? ==> checkOutput.value in m.files))
    {
      var exit, out := m.Spawn(Process(argv, Some(config.outputDir), Some(env)), world);
      if exit != 0 {
        return Fail(StepFailed(step));
      }
      if checkOutput.Some? && checkOutput.value !in m.files {
        return Fail(StepOutputMissing(step, checkOutput.value));
      }
      o := Pass;
    }

    /**
     * run_tleap: runs tleap, requires the topology and coordinates it must save, and
     * counts the ATOM records of the solvated structure (0 when it is absent).
     */
    method RunTleap(m: Machine, world: World) returns (r: Result<nat, Error>)
      modifies m
      ensures var p := StepProcess(Prepare, "", config.outputDir, env);
        var v := StepVerdict(Prepare, world.exitOf(p), m.files, config.outputDir);
        && m.spawned == old(m.spawned) + [p]
        && m.files == old(m.files) + world.creates(p)
        && m.written == old(m.written)
        && (r.Failure? <==> v.Some?)
        && (r.Failure? ==> r.error == v.value)
        && (r.Success? ==> r.value == AtomCount(m.files, config.outputDir, world))
    {
      var o := RunCommand(m, world, TleapArgv, Tleap, None);
      if o.Fail? {
        return Failure(o.error);
      }
      var dir := config.outputDir;
      if Join(dir, Topology) !in m.files || Join(dir, InitialCoordinates) !in m.files {
        return Failure(TleapOutputsMissing);
      }
      var pdb := Join(dir, SolvatedPdb);
      var natoms := 0;
      if pdb in m.files {
        natoms := CountStartingWith(SplitLines(world.read(pdb)), "ATOM");
      }
      r := Success(natoms);
    }

    /** One engine stage: its command line, checked for the restart file it must leave. */
    method RunStage(m: Machine, world: World, s: Stage) returns (o: Outcome<Error>)
      requires mdEngine.Some?
      modifies m
      ensures var p := StepProcess(Simulate(s), mdEngine.value, config.outputDir, env);
        && m.spawned == old(m.spawned) + [p]
        && m.files == old(m.files) + world.creates(p)
        && m.written == old(m.written)
        && o == AsOutcome(StepVerdict(Simulate(s), world.exitOf(p), m.files, config.outputDir))
    {
      o := RunCommand(m, world, StageArgv(mdEngine.value, s), s.name,
                      Some(Join(config.outputDir, s.restart)));
    }

    /** run_minimization: stage 1 is the restrained minimization, any other the free one. */
    method RunMinimization(m: Machine, world: World, stage: int) returns (o: Outcome<Error>)
      requires mdEngine.Some?
      modifies m
      ensures var s := MinimizationStage(stage);
        var p := StepProcess(Simulate(s), mdEngine.value, config.outputDir, env);
        && m.spawned == old(m.spawned) + [p]
        && m.files == old(m.files) + world.creates(p)
        && m.written == old(m.written)
        && o == AsOutcome(StepVerdict(Simulate(s), world.exitOf(p), m.files, config.outputDir))
    {
      o := RunStage(m, world, MinimizationStage(stage));
    }

    method RunHeating(m: Machine, world: World) returns (o: Outcome<Error>)
      requires mdEngine.Some?
      modifies m
      ensures var p := StepProcess(Simulate(StageAt(2)), mdEngine.value, config.outputDir, env);
        && m.spawned == old(m.spawned) + [p]
        && m.files == old(m.files) + world.creates(p)
        && m.written == old(m.written)
        && o == AsOutcome(StepVerdict(Simulate(StageAt(2)), world.exitOf(p), m.files, config.outputDir))
    {
      o := RunStage(m, world, StageAt(2));
    }

    method RunEquilibration(m: Machine, world: World) returns (o: Outcome<Error>)
      requires mdEngine.Some?
      modifies m
      ensures var p := StepProcess(Simulate(StageAt(3)), mdEngine.value, config.outputDir, env);
        && m.spawned == old(m.spawned) + [p]
        && m.files == old(m.files) + world.creates(p)
        && m.written == old(m.written)
        && o == AsOutcome(StepVerdict(Simulate(StageAt(3)), world.exitOf(p), m.files, config.outputDir))
    {
      o := RunStage(m, world, StageAt(3));
    }

    method RunProduction(m: Machine, world: World) returns (o: Outcome<Error>)
      requires mdEngine.Some?
      modifies m
      ensures var p := StepProcess(Simulate(StageAt(4)), mdEngine.value, config.outputDir, env);
        && m.spawned == old(m.spawned) + [p]
        && m.files == old(m.files) + world.creates(p)
        && m.written == old(m.written)
        && o == AsOutcome(StepVerdict(Simulate(StageAt(4)), world.exitOf(p), m.files, config.outputDir))
    {
      o := RunStage(m, world, StageAt(4));
    }

    /**
     * The step sequence run_all and amber_run_protein_md share: tleap, then the five
     * stages, the first failure ending the run. It does what Execute says.
     */
    method ExecuteStages(m: Machine, world: World) returns (r: Result<nat, Error>)
      requires mdEngine.Some?
      modifies m
      ensures var ex := Execute(PipelineSteps, old(m.files), world, mdEngine.value, config.outputDir, env);
        && m.spawned == old(m.spawned) + ex.ran
        && m.files == ex.files
        && m.written == old(m.written)
        && (r.Failure? <==> ex.error.Some?)
        && (r.Failure? ==> r.error == ex.error.value)
        && (r.Success? ==> r.value == AtomCount(
              old(m.files) + world.creates(StepProcess(Prepare, mdEngine.value, config.outputDir, env)),
              config.outputDir, world))
    {
      ghost var engine, dir, e := mdEngine.value, config.outputDir, env;
      ghost var steps, files0, spawned0 := PipelineSteps, m.files, m.spawned;
      ghost var spawnedBefore, filesBefore := m.spawned, m.files;
      var natoms := RunTleap(m, world);
      TraceForward(steps, files0, world, engine, dir, e, 0, spawned0, spawnedBefore, filesBefore, m.spawned, m.files);
      if natoms.Failure? {
        ExecuteFollowsTrace(steps, files0, world, engine, dir, e, 0);
        return Failure(natoms.error);
      }
      spawnedBefore, filesBefore := m.spawned, m.files;
      var o := RunMinimization(m, world, 1);
      TraceForward(steps, files0, world, engine, dir, e, 1, spawned0, spawnedBefore, filesBefore, m.spawned, m.files);
      if o.Fail? {
        ExecuteFollowsTrace(steps, files0, world, engine, dir, e, 1);
        return Failure(o.error);
      }
      spawnedBefore, filesBefore := m.spawned, m.files;
      o := RunMinimization(m, world, 2);
      TraceForward(steps, files0, world, engine, dir, e, 2, spawned0, spawnedBefore, filesBefore, m.spawned, m.files);
      if o.Fail? {
        ExecuteFollowsTrace(steps, files0, world, engine, dir, e, 2);
        return Failure(o.error);
      }
      spawnedBefore, filesBefore := m.spawned, m.files;
      o := RunHeating(m, world);
      TraceForward(steps, files0, world, engine, dir, e, 3, spawned0, spawnedBefore, filesBefore, m.spawned, m.files);
      if o.Fail? {
        ExecuteFollowsTrace(steps, files0, world, engine, dir, e, 3);
        return Failure(o.error);
      }
      spawnedBefore, filesBefore := m.spawned, m.files;
      o := RunEquilibration(m, world);
      TraceForward(steps, files0, world, engine, dir, e, 4, spawned0, spawnedBefore, filesBefore, m.spawned, m.files);
      if o.Fail? {
        ExecuteFollowsTrace(steps, files0, world, engine, dir, e, 4);
        return Failure(o.error);
      }
      spawnedBefore, filesBefore := m.spawned, m.files;
      o := RunProduction(m, world);
      TraceForward(steps, files0, world, engine, dir, e, 5, spawned0, spawnedBefore, filesBefore, m.spawned, m.files);
      if o.Fail? {
        ExecuteFollowsTrace(steps, files0, world, engine, dir, e, 5);
        return Failure(o.error);
      }
      ExecuteFollowsTrace(steps, files0, world, engine, dir, e, 6);
      r := Success(natoms.value);
    }

    /**
     * run_all (script copy): set up the environment, find an engine, write the inputs,
     * stop there on a dry run, otherwise run tleap and the five stages. It does what
     * ScriptRun says.
     */
    method RunAll(m: Machine, world: World) returns (o: Outcome<Error>)
      modifies this, m
      ensures var r := ScriptRun(config, site, old(m.files), old(env), world);
        && m.spawned == old(m.spawned) + r.spawned
        && m.files == r.files
        && o == r.outcome
        && env == r.env
        && mdEngine == (if r.engine.Some? then r.engine else old(mdEngine))
        && amberEnv == (if AmberScript(site) in old(m.files) && config.variant == ScriptCopy
                        then Some(EnvDir(site)) else old(amberEnv))
        && m.written == (if r.wroteInputs then WithInputs(old(m.written), config, config.outputDir)
                         else old(m.written))
        && (r.wroteInputs ==> forall k :: 0 <= k < |InputNames| ==>
              Join(config.outputDir, InputNames[k]) in m.written
              && m.written[Join(config.outputDir, InputNames[k])] == DocumentFor(config, k))
    {
      ghost var spawned0 := m.spawned;
      var setup := SetupEnvironment(m, world);
      if setup.Fail? {
        return setup;
      }
      ghost var d := DetectedRun(config, m.files, env, world);
      o := DetectAndRun(m, world);
      LogsConcat(spawned0, [SourceProcess(site)], d.spawned);
    }

    /** run_all after a successful setup: detect the engine, then the prepared run. */
    method DetectAndRun(m: Machine, world: World) returns (o: Outcome<Error>)
      modifies this, m
      ensures var r := DetectedRun(config, old(m.files), old(env), world);
        && m.spawned == old(m.spawned) + r.spawned
        && m.files == r.files
        && o == r.outcome
        && env == old(env)
        && mdEngine == (if r.engine.Some? then r.engine else old(mdEngine))
        && amberEnv == old(amberEnv)
        && m.written == (if r.wroteInputs then WithInputs(old(m.written), config, config.outputDir)
                         else old(m.written))
        && (r.wroteInputs ==> forall k :: 0 <= k < |InputNames| ==>
              Join(config.outputDir, InputNames[k]) in m.written
              && m.written[Join(config.outputDir, InputNames[k])] == DocumentFor(config, k))
    {
      ghost var spawned0 := m.spawned;
      ghost var found := Probe(EngineCandidates(config.useGpu), world, env);
      var engine := DetectMdEngine(m, world);
      if engine.Failure? {
        return Fail(engine.error);
      }
      ghost var tail := PreparedRun(config, m.files, env, found.1.value, world);
      o := PrepareAndRun(m, world);
      LogsConcat(spawned0, Probes(found.0, env), tail.0);
    }

    /**
     * run_all after the engine is found: create the output directory, write the inputs,
     * stop on a dry run, otherwise run tleap and the five stages.
     */
    method PrepareAndRun(m: Machine, world: World) returns (o: Outcome<Error>)
      requires mdEngine.Some?
      modifies m
      ensures var r := PreparedRun(config, old(m.files), env, mdEngine.value, world);
        && m.spawned == old(m.spawned) + r.0
        && m.files == r.1
        && o == r.2
        && m.written == WithInputs(old(m.written), config, config.outputDir)
        && (forall k :: 0 <= k < |InputNames| ==>
              Join(config.outputDir, InputNames[k]) in m.written
              && m.written[Join(config.outputDir, InputNames[k])] == DocumentFor(config, k))
    {
      m.MakeDirs(config.outputDir);
      var artifacts := WriteAllInputFiles(config, config.outputDir, m, site.resolve);
      if config.dryRun {
        return Pass;
      }
      var result := ExecuteStages(m, world);
      o := if result.Failure? then Fail(result.error) else Pass;
    }
  }
}
