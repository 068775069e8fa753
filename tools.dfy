/**
 * The three simulation tools the server exposes: the full workflow, system preparation
 * with tleap alone, and input generation alone. Each is specified by a function from the
 * starting state to what the call leaves behind, and implemented by a method over the
 * Machine that is proved to follow it.
 */
module ToolsApi {
  import opened Wrappers
  import opened Errors
  import opened Strings
  import opened Paths
  import opened Config
  import opened Documents
  import opened Host
  import opened Generator
  import opened Runner

  /** Python's `x or d` on an optional string: None and "" both give `d`. */
  function OrElse(x: Option<string>, d: string): string {
    if x.Some? && x.value != "" then x.value else d
  }

  // ---------------------------------------------------------------------------------
  // Arguments and replies

  /** The arguments of amber_run_protein_md. */
  datatype MdArgs = MdArgs(
    pdbFile: string,
    jobName: Option<string>,
    simTimeNs: real,
    temperature: real,
    boxBuffer: real,
    saltConc: real,
    forcefield: string,
    waterModel: string,
    useGpu: bool,
    gpuDevice: string,
    outputDir: Option<string>,
    dryRun: bool)

  /** The arguments of amber_prepare_system. */
  datatype PrepareArgs = PrepareArgs(
    pdbFile: string,
    jobName: Option<string>,
    boxBuffer: real,
    forcefield: string,
    waterModel: string,
    outputDir: Option<string>)

  /** The arguments of amber_generate_input_files. */
  datatype GenerateArgs = GenerateArgs(
    pdbFile: string,
    jobName: Option<string>,
    simTimeNs: real,
    temperature: real,
    boxBuffer: real,
    forcefield: string,
    waterModel: string,
    outputDir: Option<string>)

  /** The configuration each tool builds; an absent output directory becomes ".". */
  function MdRaw(a: MdArgs): RawConfig {
    RawConfig(a.pdbFile, OrElse(a.jobName, ""), a.simTimeNs, a.temperature, a.boxBuffer,
              a.saltConc, a.forcefield, a.waterModel, a.useGpu, a.gpuDevice, a.dryRun,
              OrElse(a.outputDir, "."))
  }

  function PrepareRaw(a: PrepareArgs): RawConfig {
    DefaultRaw(a.pdbFile).(jobName := OrElse(a.jobName, ""), boxBuffer := a.boxBuffer,
                           forcefield := a.forcefield, waterModel := a.waterModel,
                           outputDir := OrElse(a.outputDir, "."))
  }

  function GenerateRaw(a: GenerateArgs): RawConfig {
    DefaultRaw(a.pdbFile).(jobName := OrElse(a.jobName, ""), simTimeNs := a.simTimeNs,
                           temperature := a.temperature, boxBuffer := a.boxBuffer,
                           forcefield := a.forcefield, waterModel := a.waterModel,
                           outputDir := OrElse(a.outputDir, "."))
  }

  /** The "message" of a reply, by kind, with the values it interpolates. */
  datatype Message =
    | DryRunCompleted(dir: string)
    | SimulationCompleted(simTimeNs: real, temperature: real)
    | SystemPrepared(natoms: nat, waterBox: string)
    | InputsGenerated(dir: string)

  /**
   * A tool's reply: the message, the artifact manifest, the configuration its "config"
   * entry summarises, and the entries only some replies carry.
   */
  datatype Reply = Reply(
    message: Message,
    artifacts: seq<Artifact>,
    config: Config,
    natoms: Option<nat>,
    mdEngine: Option<string>,
    productionSteps: Option<int>)

  /** What a tool call leaves behind: the processes it ran, the files, and its reply. */
  datatype Call = Call(spawned: seq<Process>, files: set<string>, reply: Result<Reply, Error>)

  /** The five artifacts a completed workflow adds after the inputs, in order. */
  function WorkflowArtifacts(dir: string, resolve: string -> string): seq<Artifact> {
    [ Artifact("Topology file", ArtifactPath(dir, Topology, resolve)),
      Artifact("Initial coordinates", ArtifactPath(dir, InitialCoordinates, resolve)),
      Artifact("Production trajectory (NetCDF)", ArtifactPath(dir, "prod.nc", resolve)),
      Artifact("Final restart file", ArtifactPath(dir, "prod.rst7", resolve)),
      Artifact("Production output log", ArtifactPath(dir, "prod.out", resolve)) ]
  }

  /** The four artifacts of a system preparation. */
  function PrepareArtifacts(dir: string, resolve: string -> string): seq<Artifact> {
    [ Artifact("tleap input", ArtifactPath(dir, "tleap.in", resolve)),
      Artifact("Topology file", ArtifactPath(dir, Topology, resolve)),
      Artifact("Coordinate file", ArtifactPath(dir, InitialCoordinates, resolve)),
      Artifact("Solvated PDB", ArtifactPath(dir, SolvatedPdb, resolve)) ]
  }

  // ---------------------------------------------------------------------------------
  // The calls, as functions of the starting state

  /**
   * setup_environment on a fresh runner: the processes it ran, the files afterwards, and
   * the merged environment or the error it raised.
   */
  function Setup(c: Config, site: Site, files: set<string>, env: map<string, string>,
                 world: World): (seq<Process>, set<string>, Result<map<string, string>, Error>)
  {
    var src := SourceProcess(site);
    if AmberScript(site) !in files then
      ([], files, Failure(AmberEnvironmentMissing(AmberScript(site))))
    else if world.exitOf(src) != 0 then ([src], files + world.creates(src), Failure(SourcingFailed))
    else ([src], files + world.creates(src), Success(EnvAfterSetup(c, env, world.stdoutOf(src))))
  }

  /** amber_run_protein_md once the inputs are written: setup, detection, the steps. */
  function Workflow(c: Config, site: Site, files: set<string>, env: map<string, string>,
                    world: World): Call
  {
    var (ran, files1, setup) := Setup(c, site, files, env, world);
    if setup.Failure? then Call(ran, files1, Failure(setup.error))
    else
      var w := EngineWorkflow(c, site, files1, setup.value, world);
      Call(ran + w.spawned, w.files, w.reply)
  }

  /** The workflow after setup: detection, then tleap and the five stages. */
  function EngineWorkflow(c: Config, site: Site, files: set<string>, env: map<string, string>,
                          world: World): Call
  {
    var found := Probe(EngineCandidates(c.useGpu), world, env);
    var probes := Probes(found.0, env);
    var files1 := files + CreatedBy(probes, world);
    if found.1.None? then Call(probes, files1, Failure(NoEngineFound))
    else
      var ex := Execute(PipelineSteps, files1, world, found.1.value, c.outputDir, env);
      var tleap := StepProcess(Prepare, found.1.value, c.outputDir, env);
      Call(probes + ex.ran, ex.files,
           if ex.error.Some? then Failure(ex.error.value)
           else Success(Reply(SimulationCompleted(c.simTimeNs, c.temperature),
                              InputManifest(c.outputDir, site.resolve)
                                + WorkflowArtifacts(c.outputDir, site.resolve), c,
                              Some(AtomCount(files1 + world.creates(tleap), c.outputDir, world)),
                              found.1, None)))
  }

  /**
   * amber_run_protein_md: the structure must exist; the configuration is built; the
   * output directory and the six inputs are written; a dry run replies with the input
   * manifest, otherwise the workflow runs.
   */
  function ProteinMd(a: MdArgs, site: Site, files: set<string>, env: map<string, string>,
                     world: World): Call
  {
    if a.pdbFile !in files then Call([], files, Failure(PdbNotFound(a.pdbFile)))
    else
      var v := Validate(MdRaw(a), ToolsCopy, files, site);
      if v.Failure? then Call([], files, Failure(v.error))
      else
        var c := v.value;
        var files1 := files + {c.outputDir} + InputPaths(c.outputDir);
        if c.dryRun then
          Call([], files1, Success(Reply(DryRunCompleted(c.outputDir),
                                         InputManifest(c.outputDir, site.resolve), c,
                                         None, None, None)))
        else Workflow(c, site, files1, env, world)
  }

  /**
   * amber_prepare_system: the configuration (defaults for everything but the preparation
   * arguments), the output directory, tleap.in alone, setup, then tleap. No engine is
   * looked for.
   */
  function PrepareSystem(a: PrepareArgs, site: Site, files: set<string>,
                         env: map<string, string>, world: World): Call
  {
    if a.pdbFile !in files then Call([], files, Failure(PdbNotFound(a.pdbFile)))
    else
      var v := Validate(PrepareRaw(a), ToolsCopy, files, site);
      if v.Failure? then Call([], files, Failure(v.error))
      else
        PreparedSystem(v.value, site, files, env, world)
  }

  /** amber_prepare_system once the configuration is built: tleap.in, setup, tleap. */
  function PreparedSystem(c: Config, site: Site, files: set<string>, env: map<string, string>,
                          world: World): Call
  {
    var files1 := files + {c.outputDir} + {Join(c.outputDir, "tleap.in")};
    var (ran, files2, setup) := Setup(c, site, files1, env, world);
    if setup.Failure? then Call(ran, files2, Failure(setup.error))
    else
      var p := StepProcess(Prepare, "", c.outputDir, setup.value);
      var files3 := files2 + world.creates(p);
      var verdict := StepVerdict(Prepare, world.exitOf(p), files3, c.outputDir);
      var natoms := AtomCount(files3, c.outputDir, world);
      Call(ran + [p], files3,
           if verdict.Some? then Failure(verdict.value)
           else Success(Reply(SystemPrepared(natoms, c.water.box),
                              PrepareArtifacts(c.outputDir, site.resolve), c,
                              Some(natoms), None, None)))
  }

  /** amber_generate_input_files: the configuration, the output directory, the six inputs. */
  function GenerateInputFiles(a: GenerateArgs, site: Site, files: set<string>): Call {
    if a.pdbFile !in files then Call([], files, Failure(PdbNotFound(a.pdbFile)))
    else
      var v := Validate(GenerateRaw(a), ToolsCopy, files, site);
      if v.Failure? then Call([], files, Failure(v.error))
      else
        var c := v.value;
        Call([], files + {c.outputDir} + InputPaths(c.outputDir),
             Success(Reply(InputsGenerated(c.outputDir), InputManifest(c.outputDir, site.resolve),
                           c, None, None, Some(ProductionSteps(c.simTimeNs)))))
  }

  // ---------------------------------------------------------------------------------
  // Properties of the calls

  /** A missing structure file is reported before anything else happens. */
  lemma MissingStructureFirst(a: MdArgs, p: PrepareArgs, g: GenerateArgs, site: Site,
                              files: set<string>, env: map<string, string>, world: World)
    ensures a.pdbFile !in files ==>
      ProteinMd(a, site, files, env, world) == Call([], files, Failure(PdbNotFound(a.pdbFile)))
    ensures p.pdbFile !in files ==>
      PrepareSystem(p, site, files, env, world) == Call([], files, Failure(PdbNotFound(p.pdbFile)))
    ensures g.pdbFile !in files ==>
      GenerateInputFiles(g, site, files) == Call([], files, Failure(PdbNotFound(g.pdbFile)))
  {
  }

  /** A dry run runs no process and replies with exactly the six input files. */
  lemma DryRunRunsNothing(a: MdArgs, site: Site, files: set<string>, env: map<string, string>,
                          world: World)
    requires a.dryRun
    ensures var r := ProteinMd(a, site, files, env, world);
      && r.spawned == []
      && (r.reply.Success? ==>
            && r.reply.value.message.DryRunCompleted?
            && r.reply.value.artifacts == InputManifest(r.reply.value.config.outputDir, site.resolve)
            && |r.reply.value.artifacts| == 6
            && r.reply.value.mdEngine.None?)
  {
  }

  /** The dry-run reply of the workflow tool lists the same files as the generator tool. */
  lemma DryRunMatchesGenerator(a: MdArgs, site: Site, files: set<string>,
                               env: map<string, string>, world: World)
    requires a.dryRun && a.saltConc == 0.15 && a.useGpu && a.gpuDevice == "cuda:0"
    ensures var g := GenerateArgs(a.pdbFile, a.jobName, a.simTimeNs, a.temperature,
                                  a.boxBuffer, a.forcefield, a.waterModel, a.outputDir);
      var r, s := ProteinMd(a, site, files, env, world), GenerateInputFiles(g, site, files);
      && r.files == s.files
      && (r.reply.Success? <==> s.reply.Success?)
      && (r.reply.Success? ==> r.reply.value.artifacts == s.reply.value.artifacts)
  {
    var g := GenerateArgs(a.pdbFile, a.jobName, a.simTimeNs, a.temperature,
                          a.boxBuffer, a.forcefield, a.waterModel, a.outputDir);
    assert MdRaw(a) == GenerateRaw(g).(dryRun := true);
  }

  /**
   * A completed workflow ran setup, the engine search and then all six steps last, and
   * its manifest is the six inputs followed by the five workflow outputs.
   */
  lemma CompletedWorkflowRanEveryStep(c: Config, site: Site, files: set<string>,
                                      env: map<string, string>, world: World)
    ensures var r := Workflow(c, site, files, env, world);
      var env1 := EnvAfterSetup(c, env, world.stdoutOf(SourceProcess(site)));
      r.reply.Success? ==>
        && r.reply.value.mdEngine.Some?
        && r.reply.value.artifacts
             == InputManifest(c.outputDir, site.resolve) + WorkflowArtifacts(c.outputDir, site.resolve)
        && |r.reply.value.artifacts| == 11
        && |r.spawned| >= 1 + |PipelineSteps|
        && r.spawned[0] == SourceProcess(site)
        && forall i :: 0 <= i < |PipelineSteps| ==>
             r.spawned[|r.spawned| - |PipelineSteps| + i]
               == StepProcess(PipelineSteps[i], r.reply.value.mdEngine.value, c.outputDir, env1)
  {
    var r := Workflow(c, site, files, env, world);
    if r.reply.Success? {
      var src := SourceProcess(site);
      var env1 := EnvAfterSetup(c, env, world.stdoutOf(src));
      var found := Probe(EngineCandidates(c.useGpu), world, env1);
      var probes := Probes(found.0, env1);
      var files2 := files + world.creates(src) + CreatedBy(probes, world);
      ExecuteRunsAPrefix(PipelineSteps, files2, world, found.1.value, c.outputDir, env1);
      var ex := Execute(PipelineSteps, files2, world, found.1.value, c.outputDir, env1);
      EndsWithSteps([src] + probes, ex.ran, PipelineSteps, found.1.value, c.outputDir, env1);
      LogsConcat([src], probes, ex.ran);
    }
  }

  /** System preparation runs exactly the sourcing shell and tleap: it never probes an engine. */
  lemma PrepareRunsSetupAndTleapOnly(a: PrepareArgs, site: Site, files: set<string>,
                                     env: map<string, string>, world: World)
    ensures var r := PrepareSystem(a, site, files, env, world);
      && |r.spawned| <= 2
      && (|r.spawned| >= 1 ==> r.spawned[0] == SourceProcess(site))
      && (|r.spawned| == 2 ==> r.spawned[1].argv == TleapArgv)
      && (r.reply.Success? ==>
            && |r.spawned| == 2
            && r.reply.value.mdEngine.None?
            && |r.reply.value.artifacts| == 4
            && r.reply.value.natoms.Some?)
  {
    if a.pdbFile in files {
      var v := Validate(PrepareRaw(a), ToolsCopy, files, site);
      if v.Success? {
        PreparedRunsSetupAndTleapOnly(v.value, site, files, env, world);
      }
    }
  }

  lemma PreparedRunsSetupAndTleapOnly(c: Config, site: Site, files: set<string>,
                                      env: map<string, string>, world: World)
    ensures var r := PreparedSystem(c, site, files, env, world);
      && |r.spawned| <= 2
      && (|r.spawned| >= 1 ==> r.spawned[0] == SourceProcess(site))
      && (|r.spawned| == 2 ==> r.spawned[1].argv == TleapArgv)
      && (r.reply.Success? ==>
            && |r.spawned| == 2
            && r.reply.value.mdEngine.None?
            && |r.reply.value.artifacts| == 4
            && r.reply.value.natoms.Some?)
  {
  }

  /** System preparation keeps the defaults of every argument it does not take. */
  lemma PrepareUsesDefaults(a: PrepareArgs, site: Site, files: set<string>,
                            env: map<string, string>, world: World)
    ensures var r := PrepareSystem(a, site, files, env, world);
      r.reply.Success? ==>
        var c := r.reply.value.config;
        && c.simTimeNs == 10.0 && c.temperature == 300.0 && c.saltConc == 0.15
        && c.useGpu && c.gpu == Some(GpuSelection("cuda:0", "0")) && !c.dryRun
  {
    var r := PrepareSystem(a, site, files, env, world);
    if r.reply.Success? {
      var v := Validate(PrepareRaw(a), ToolsCopy, files, site);
      assert r.reply.value.config == v.value;
      assert PrepareRaw(a).gpuDevice == "cuda:0";
      DefaultDeviceId();
    }
  }

  /** The generator tool spawns nothing and reports int(sim_time_ns * 500000). */
  lemma GenerateReportsProductionSteps(a: GenerateArgs, site: Site, files: set<string>)
    ensures var r := GenerateInputFiles(a, site, files);
      && r.spawned == []
      && (r.reply.Success? <==>
            a.pdbFile in files && a.forcefield in ForceFieldMap && a.waterModel in WaterModelMap)
      && (r.reply.Success? ==>
            && r.reply.value.productionSteps == Some(ProductionSteps(a.simTimeNs))
            && |r.reply.value.artifacts| == 6)
  {
  }

  // ---------------------------------------------------------------------------------
  // The tools over the Machine

  /** amber_run_protein_md. */
  method RunProteinMd(a: MdArgs, m: Machine, world: World, site: Site,
                      processEnv: map<string, string>) returns (r: Result<Reply, Error>)
    modifies m
    ensures var call := ProteinMd(a, site, old(m.files), processEnv, world);
      && m.spawned == old(m.spawned) + call.spawned
      && m.files == call.files
      && r == call.reply
    ensures var v := Validate(MdRaw(a), ToolsCopy, old(m.files), site);
      m.written == (if v.Success? then WithInputs(old(m.written), v.value, v.value.outputDir)
                    else old(m.written))
    ensures r.Success? ==> forall k :: 0 <= k < |InputNames| ==>
      Join(r.value.config.outputDir, InputNames[k]) in m.written
      && m.written[Join(r.value.config.outputDir, InputNames[k])] == DocumentFor(r.value.config, k)
  {
    if a.pdbFile !in m.files {
      return Failure(PdbNotFound(a.pdbFile));
    }
    var v := Validate(MdRaw(a), ToolsCopy, m.files, site);
    if v.Failure? {
      return Failure(v.error);
    }
    var c := v.value;
    m.MakeDirs(c.outputDir);
    WithInputsSpec(m.written, c, c.outputDir);
    var artifacts := WriteAllInputFiles(c, c.outputDir, m, site.resolve);
    if c.dryRun {
      return Success(Reply(DryRunCompleted(c.outputDir), artifacts, c, None, None, None));
    }
    r := RunWorkflow(c, artifacts, m, world, site, processEnv);
  }

  /** The part of amber_run_protein_md after the inputs are written. */
  method RunWorkflow(c: Config, artifacts: seq<Artifact>, m: Machine, world: World, site: Site,
                     processEnv: map<string, string>) returns (r: Result<Reply, Error>)
    requires artifacts == InputManifest(c.outputDir, site.resolve)
    modifies m
    ensures var call := Workflow(c, site, old(m.files), processEnv, world);
      && m.spawned == old(m.spawned) + call.spawned
      && m.files == call.files
      && r == call.reply
    ensures m.written == old(m.written)
    ensures r.Success? ==> r.value.config == c
  {
    ghost var spawned0 := m.spawned;
    ghost var setup := Setup(c, site, m.files, processEnv, world);
    var runner := new SimulationRunner(c, site, processEnv);
    var o := runner.SetupEnvironment(m, world);
    if o.Fail? {
      return Failure(o.error);
    }
    ghost var w := EngineWorkflow(c, site, m.files, runner.env, world);
    r := RunDetected(runner, artifacts, m, world);
    LogsConcat(spawned0, setup.0, w.spawned);
  }

  /** The workflow on a runner whose environment is set up. */
  method RunDetected(runner: SimulationRunner, artifacts: seq<Artifact>, m: Machine, world: World)
      returns (r: Result<Reply, Error>)
    requires artifacts == InputManifest(runner.config.outputDir, runner.site.resolve)
    modifies runner, m
    ensures var call := EngineWorkflow(runner.config, runner.site, old(m.files), old(runner.env), world);
      && m.spawned == old(m.spawned) + call.spawned
      && m.files == call.files
      && r == call.reply
    ensures m.written == old(m.written)
    ensures r.Success? ==> r.value.config == runner.config
  {
    ghost var spawned0 := m.spawned;
    ghost var found := Probe(EngineCandidates(runner.config.useGpu), world, runner.env);
    var engine := runner.DetectMdEngine(m, world);
    if engine.Failure? {
      return Failure(engine.error);
    }
    ghost var ex := Execute(PipelineSteps, m.files, world, found.1.value, runner.config.outputDir,
                            runner.env);
    var natoms := runner.ExecuteStages(m, world);
    LogsConcat(spawned0, Probes(found.0, runner.env), ex.ran);
    if natoms.Failure? {
      return Failure(natoms.error);
    }
    var c := runner.config;
    var completed := artifacts + WorkflowArtifacts(c.outputDir, runner.site.resolve);
    r := Success(Reply(SimulationCompleted(c.simTimeNs, c.temperature), completed, c,
                       Some(natoms.value), runner.mdEngine, None));
  }

  /** amber_prepare_system. */
  method RunPrepareSystem(a: PrepareArgs, m: Machine, world: World, site: Site,
                          processEnv: map<string, string>) returns (r: Result<Reply, Error>)
    modifies m
    ensures var call := PrepareSystem(a, site, old(m.files), processEnv, world);
      && m.spawned == old(m.spawned) + call.spawned
      && m.files == call.files
      && r == call.reply
    ensures r.Success? ==>
      var tleapFile := Join(r.value.config.outputDir, "tleap.in");
      tleapFile in m.written && m.written[tleapFile] == TleapInput(r.value.config)
    ensures var v := Validate(PrepareRaw(a), ToolsCopy, old(m.files), site);
      m.written == (if v.Success?
                    then old(m.written)[Join(v.value.outputDir, "tleap.in") := TleapInput(v.value)]
                    else old(m.written))
  {
    if a.pdbFile !in m.files {
      return Failure(PdbNotFound(a.pdbFile));
    }
    var v := Validate(PrepareRaw(a), ToolsCopy, m.files, site);
    if v.Failure? {
      return Failure(v.error);
    }
    r := RunPrepareConfigured(v.value, m, world, site, processEnv);
  }

  /** amber_prepare_system after validation. */
  method RunPrepareConfigured(c: Config, m: Machine, world: World, site: Site,
                              processEnv: map<string, string>) returns (r: Result<Reply, Error>)
    modifies m
    ensures var call := PreparedSystem(c, site, old(m.files), processEnv, world);
      && m.spawned == old(m.spawned) + call.spawned
      && m.files == call.files
      && r == call.reply
    ensures r.Success? ==>
      var tleapFile := Join(c.outputDir, "tleap.in");
      tleapFile in m.written && m.written[tleapFile] == TleapInput(c)
    ensures m.written == old(m.written)[Join(c.outputDir, "tleap.in") := TleapInput(c)]
    ensures r.Success? ==> r.value.config == c
  {
    m.MakeDirs(c.outputDir);
    var tleapFile := Join(c.outputDir, "tleap.in");
    m.WriteText(tleapFile, TleapInput(c));
    var runner := new SimulationRunner(c, site, processEnv);
    var o := runner.SetupEnvironment(m, world);
    if o.Fail? {
      return Failure(o.error);
    }
    var natoms := runner.RunTleap(m, world);
    if natoms.Failure? {
      return Failure(natoms.error);
    }
    r := Success(Reply(SystemPrepared(natoms.value, c.water.box),
                       PrepareArtifacts(c.outputDir, site.resolve), c, Some(natoms.value),
                       None, None));
  }

  /** amber_generate_input_files. */
  method RunGenerateInputFiles(a: GenerateArgs, m: Machine, site: Site)
    returns (r: Result<Reply, Error>)
    modifies m
    ensures var call := GenerateInputFiles(a, site, old(m.files));
      && m.spawned == old(m.spawned) + call.spawned
      && m.files == call.files
      && r == call.reply
    ensures r.Success? ==> forall k :: 0 <= k < |InputNames| ==>
      Join(r.value.config.outputDir, InputNames[k]) in m.written
      && m.written[Join(r.value.config.outputDir, InputNames[k])] == DocumentFor(r.value.config, k)
    ensures var v := Validate(GenerateRaw(a), ToolsCopy, old(m.files), site);
      m.written == (if v.Success? then WithInputs(old(m.written), v.value, v.value.outputDir)
                    else old(m.written))
  {
    if a.pdbFile !in m.files {
      return Failure(PdbNotFound(a.pdbFile));
    }
    var v := Validate(GenerateRaw(a), ToolsCopy, m.files, site);
    if v.Failure? {
      return Failure(v.error);
    }
    var c := v.value;
    m.MakeDirs(c.outputDir);
    var artifacts := WriteAllInputFiles(c, c.outputDir, m, site.resolve);
    r := Success(Reply(InputsGenerated(c.outputDir), artifacts, c, None, None,
                       Some(ProductionSteps(c.simTimeNs))));
  }
}
