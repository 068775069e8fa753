/**
 * The command-line script's entry point: build the configuration from the parsed
 * arguments, run the whole workflow, and turn the way it ended into the exit status.
 */
module Script {
  import opened Wrappers
  import opened Errors
  import opened Config
  import opened Host
  import opened Generator
  import opened Runner

  /**
   * The command line as argparse types it; `--cpu` is the negation of use_gpu. The force
   * field and the water model are still unchecked here: `ChoicesOk` says which of them
   * argparse lets through.
   */
  datatype ScriptArgs = ScriptArgs(
    pdbFile: string,
    jobName: string,
    simTimeNs: real,
    temperature: real,
    boxBuffer: real,
    saltConc: real,
    forcefield: string,
    waterModel: string,
    useCpu: bool,
    dryRun: bool,
    outputDir: string)

  /** The force field and water model spellings argparse's `choices` accept. */
  const ForceFieldChoices: seq<string> := ["ff14SB", "ff19SB"]
  const WaterModelChoices: seq<string> := ["tip3p", "opc", "tip4pew"]

  /** parse_args succeeds only for a listed force field and a listed water model. */
  predicate ChoicesOk(a: ScriptArgs) {
    a.forcefield in ForceFieldChoices && a.waterModel in WaterModelChoices
  }

  function ScriptRaw(a: ScriptArgs): RawConfig {
    RawConfig(a.pdbFile, a.jobName, a.simTimeNs, a.temperature, a.boxBuffer, a.saltConc,
              a.forcefield, a.waterModel, !a.useCpu, "", a.dryRun, a.outputDir)
  }

  /**
   * How main ended: argparse rejected the command line (SystemExit before the try),
   * or its body ended normally, with one of the caught exceptions, or interrupted.
   */
  datatype Termination = Rejected | Completed | Raised(error: Error) | Interrupted

  /** The process exit status for each way main can end. */
  function ExitCode(t: Termination): (code: int)
    ensures code == 0 <==> t.Completed?
    ensures code == 130 <==> t.Interrupted?
    ensures t.Raised? <==> code == 1
    ensures t.Rejected? <==> code == 2
  {
    match t
    case Rejected => 2
    case Completed => 0
    case Raised(_) => 1
    case Interrupted => 130
  }

  /** Every error the model raises is of a class main catches, and each gives status 1. */
  lemma EveryErrorIsCaught(e: Error)
    ensures Kind(e) == FileNotFoundError || Kind(e) == ValueError || Kind(e) == RuntimeError
    ensures ExitCode(Raised(e)) == 1
  {
  }

  /** What main does, as a function of the starting state. */
  datatype MainRun = MainRun(spawned: seq<Process>, files: set<string>, termination: Termination)

  function Main(a: ScriptArgs, site: Site, files: set<string>, env: map<string, string>,
                world: World): MainRun
  {
    if !ChoicesOk(a) then MainRun([], files, Rejected)
    else
    var v := Validate(ScriptRaw(a), ScriptCopy, files, site);
    if v.Failure? then MainRun([], files, Raised(v.error))
    else
      var r := ScriptRun(v.value, site, files, env, world);
      MainRun(r.spawned, r.files, if r.outcome.Pass? then Completed else Raised(r.outcome.error))
  }

  /**
   * Status 0 exactly when argparse accepts the names, the configuration is accepted and
   * the whole run passes; status 2 exactly when argparse refuses the names; 1 otherwise.
   */
  lemma ExitZeroIffRunCompletes(a: ScriptArgs, site: Site, files: set<string>,
                                env: map<string, string>, world: World)
    ensures var code := ExitCode(Main(a, site, files, env, world).termination);
      var v := Validate(ScriptRaw(a), ScriptCopy, files, site);
      && (code == 0 <==>
            ChoicesOk(a) && v.Success? && ScriptRun(v.value, site, files, env, world).outcome.Pass?)
      && (code == 2 <==> !ChoicesOk(a))
      && (code != 0 ==> code == 1 || code == 2)
  {
  }

  /** Every name argparse accepts is a key of the configuration's maps. */
  lemma ChoicesAreMapped(a: ScriptArgs)
    requires ChoicesOk(a)
    ensures a.forcefield in ForceFieldMap && a.waterModel in WaterModelMap
  {
  }

  /**
   * From the command line the configuration's unknown-name ValueError cannot happen:
   * argparse refuses every other name first, even the spellings the maps also accept.
   */
  lemma UnknownNamesExitTwo(a: ScriptArgs, site: Site, files: set<string>,
                            env: map<string, string>, world: World)
    requires !ChoicesOk(a)
    ensures var run := Main(a, site, files, env, world);
      run.spawned == [] && run.files == files && ExitCode(run.termination) == 2
  {
  }

  /** The tables' other spellings are known to the configuration, yet refused by argparse. */
  lemma TableSpellingsExitTwo(a: ScriptArgs, site: Site, files: set<string>,
                              env: map<string, string>, world: World)
    requires a.forcefield in ["ff14sb", "ff19sb"] || a.waterModel in ["TIP3P", "OPC", "TIP4PEW"]
    ensures a.forcefield in ["ff14sb", "ff19sb"] ==> a.forcefield in ForceFieldMap
    ensures a.waterModel in ["TIP3P", "OPC", "TIP4PEW"] ==> a.waterModel in WaterModelMap
    ensures !ChoicesOk(a) && ExitCode(Main(a, site, files, env, world).termination) == 2
  {
  }

  /**
   * Once argparse has accepted the names, a configuration error (missing structure, a
   * non-positive time, temperature or box, a negative salt) exits 1 before any process runs.
   */
  lemma ConfigErrorsRunNothing(a: ScriptArgs, site: Site, files: set<string>,
                               env: map<string, string>, world: World)
    requires ChoicesOk(a)
    requires a.pdbFile !in files || a.simTimeNs <= 0.0 || a.temperature <= 0.0
             || a.boxBuffer <= 0.0 || a.saltConc < 0.0
    ensures var run := Main(a, site, files, env, world);
      run.spawned == [] && run.files == files && ExitCode(run.termination) == 1
  {
  }

  /** A dry run that argparse accepts and that gets past setup and detection exits 0. */
  lemma DryRunExitsZeroOnceEngineFound(a: ScriptArgs, site: Site, files: set<string>,
                                       env: map<string, string>, world: World)
    requires a.dryRun
    ensures var v := Validate(ScriptRaw(a), ScriptCopy, files, site);
      ChoicesOk(a) && v.Success? && ScriptRun(v.value, site, files, env, world).engine.Some? ==>
        ExitCode(Main(a, site, files, env, world).termination) == 0
  {
  }

  /** main, argument parsing included, with the KeyboardInterrupt branch left to ExitCode. */
  method RunMain(a: ScriptArgs, m: Machine, world: World, site: Site,
                 processEnv: map<string, string>) returns (code: int)
    modifies m
    ensures var run := Main(a, site, old(m.files), processEnv, world);
      && m.spawned == old(m.spawned) + run.spawned
      && m.files == run.files
      && code == ExitCode(run.termination)
    ensures var v := Validate(ScriptRaw(a), ScriptCopy, old(m.files), site);
      m.written ==
        (if ChoicesOk(a) && v.Success? && ScriptRun(v.value, site, old(m.files), processEnv, world).wroteInputs
         then WithInputs(old(m.written), v.value, v.value.outputDir)
         else old(m.written))
  {
    if !ChoicesOk(a) {
      return ExitCode(Rejected);
    }
    var v := Validate(ScriptRaw(a), ScriptCopy, m.files, site);
    if v.Failure? {
      return ExitCode(Raised(v.error));
    }
    var runner := new SimulationRunner(v.value, site, processEnv);
    var o := runner.RunAll(m, world);
    code := ExitCode(if o.Pass? then Completed else Raised(o.error));
  }
}
