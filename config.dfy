/**
 * The simulation configuration: the closed force-field and water-model tables, GPU
 * device parsing, defaults for the job name and output directory, and (in the script
 * copy only) range checks on the numeric inputs.
 */
module Config {
  import opened Wrappers
  import opened Errors
  import opened Strings
  import opened Paths

  /** Force-field spelling -> tleap source script. */
  const ForceFieldMap: map<string, string> := map[
    "ff14SB" := "leaprc.protein.ff14SB",
    "ff14sb" := "leaprc.protein.ff14SB",
    "ff19SB" := "leaprc.protein.ff19SB",
    "ff19sb" := "leaprc.protein.ff19SB"
  ]

  /** What a water model resolves to: its tleap source script and its solvent box. */
  datatype WaterModel = WaterModel(source: string, box: string)

  const WaterModelMap: map<string, WaterModel> := map[
    "tip3p" := WaterModel("leaprc.water.tip3p", "TIP3PBOX"),
    "TIP3P" := WaterModel("leaprc.water.tip3p", "TIP3PBOX"),
    "opc" := WaterModel("leaprc.water.opc", "OPCBOX"),
    "OPC" := WaterModel("leaprc.water.opc", "OPCBOX"),
    "tip4pew" := WaterModel("leaprc.water.tip4pew", "TIP4PEWBOX"),
    "TIP4PEW" := WaterModel("leaprc.water.tip4pew", "TIP4PEWBOX")
  ]

  /** The repository holds two copies of the configuration logic that differ in places. */
  datatype Variant = ToolsCopy | ScriptCopy

  /** The constructor arguments of SimulationConfig; paths are plain strings. */
  datatype RawConfig = RawConfig(
    pdbFile: string,
    jobName: string,
    simTimeNs: real,
    temperature: real,
    boxBuffer: real,
    saltConc: real,
    forcefield: string,
    waterModel: string,
    useGpu: bool,
    gpuDevice: string,   // ignored by the script copy, which has no such field
    dryRun: bool,
    outputDir: string)

  /** The dataclass defaults for every argument but the structure file. */
  function DefaultRaw(pdbFile: string): RawConfig {
    RawConfig(pdbFile, "", 10.0, 300.0, 12.0, 0.15, "ff19SB", "opc", true, "cuda:0", false, ".")
  }

  /**
   * What the model leaves abstract about paths and time: `Path.resolve`, `Path.stem`, the
   * project root the repository is installed under, and the wall-clock timestamp.
   */
  datatype Site = Site(
    resolve: string -> string,
    stem: string -> string,
    projectRoot: string,
    timestamp: string)

  /** `PROJECT_ROOT / "results"` and `PROJECT_ROOT / "env"`. */
  function ResultsDir(site: Site): string { Join(site.projectRoot, "results") }
  function EnvDir(site: Site): string { Join(site.projectRoot, "env") }

  /** The GPU request of the tools copy: the device string and the id parsed from it. */
  datatype GpuSelection = GpuSelection(device: string, cudaDeviceId: string)

  /** A constructed SimulationConfig, with its derived fields. */
  datatype Config = Config(
    variant: Variant,
    pdbFile: string,
    jobName: string,
    simTimeNs: real,
    temperature: real,
    boxBuffer: real,
    saltConc: real,
    forcefield: string,
    waterModel: string,
    useGpu: bool,
    gpu: Option<GpuSelection>,
    dryRun: bool,
    outputDir: string,
    ffSource: string,
    water: WaterModel)

  predicate HasCudaPrefix(device: string) {
    StartsWith(Lower(device), "cuda:")
  }

  /**
   * The CUDA device id: after a `cuda:` prefix (any letter case) the text after the last
   * colon, otherwise the device string itself.
   */
  function CudaDeviceId(device: string): (id: string)
    ensures HasCudaPrefix(device) ==>
      ':' !in id && |id| < |device| && device[..|device| - |id|] + id == device
      && device[|device| - |id| - 1] == ':'
    ensures !HasCudaPrefix(device) ==> id == device
  {
    if HasCudaPrefix(device) then
      assert device[4] == ':' by {
        assert Lower(device)[..5][4] == LowerChar(device[4]);
      }
      AfterLast(device, ':')
    else device
  }

  /** The output directory used when none is given, as pathlib prints it. */
  function DefaultOutputDir(variant: Variant, jobName: string, site: Site): string {
    match variant
    case ToolsCopy => Normalize(Join(ResultsDir(site), "md_" + jobName + "_" + site.timestamp))
    case ScriptCopy => Normalize("./md_" + jobName)
  }

  /** The default output directory is never the current directory, whatever the job name. */
  lemma DefaultOutputDirIsNotCurrent(variant: Variant, jobName: string, site: Site)
    ensures !IsCurrentDir(DefaultOutputDir(variant, jobName, site))
  {
    match variant
    case ToolsCopy =>
      var p := Join(ResultsDir(site), "md_" + jobName + "_" + site.timestamp);
      assert p[|JoinPrefix(ResultsDir(site))|] == 'm';
      NamedPathIsNotCurrent(p, |JoinPrefix(ResultsDir(site))|);
    case ScriptCopy =>
      assert ("./md_" + jobName)[2] == 'm';
      NamedPathIsNotCurrent("./md_" + jobName, 2);
  }

  /** An output directory that is not the current one keeps not being it once printed. */
  lemma GivenOutputDirIsNotCurrent(d: string)
    requires !IsCurrentDir(d)
    ensures !IsCurrentDir(Normalize(d))
  {
    NormalFormStaysPut(d);
  }

  /** The script copy's numeric range checks, in the order it makes them. */
  function NumericError(raw: RawConfig): (e: Option<Error>)
    ensures e.None? <==>
      raw.simTimeNs > 0.0 && raw.temperature > 0.0 && raw.boxBuffer > 0.0 && raw.saltConc >= 0.0
  {
    if raw.simTimeNs <= 0.0 then Some(NonPositiveSimTime)
    else if raw.temperature <= 0.0 then Some(NonPositiveTemperature)
    else if raw.boxBuffer <= 0.0 then Some(NonPositiveBoxBuffer)
    else if raw.saltConc < 0.0 then Some(NegativeSaltConcentration)
    else None
  }

  /** The keys the script copy's ValueError message lists; the tools copy lists none. */
  function Supported<T>(variant: Variant, table: map<string, T>): Option<set<string>> {
    if variant == ScriptCopy then Some(table.Keys) else None
  }

  /** What every constructed configuration satisfies. */
  predicate Valid(c: Config) {
    && c.forcefield in ForceFieldMap && c.ffSource == ForceFieldMap[c.forcefield]
    && c.waterModel in WaterModelMap && c.water == WaterModelMap[c.waterModel]
    && !IsCurrentDir(c.outputDir)
    && (c.variant == ToolsCopy <==> c.gpu.Some?)
    && (c.variant == ScriptCopy ==>
          c.simTimeNs > 0.0 && c.temperature > 0.0 && c.boxBuffer > 0.0 && c.saltConc >= 0.0)
  }

  /**
   * `SimulationConfig.__post_init__`: the structure file must exist (in `existing`); the
   * path is resolved, an empty job name becomes the file stem, an output directory whose
   * pathlib form is "." ("", ".", "./", "./.", ...) becomes the default and any other one is
   * kept in its pathlib form; then the force field, the water model and (script)
   * the numbers are checked, and the first failing check is the exception raised.
   */
  function Validate(raw: RawConfig, variant: Variant, existing: set<string>, site: Site)
    : (r: Result<Config, Error>)
    ensures r.Success? <==>
      && raw.pdbFile in existing
      && raw.forcefield in ForceFieldMap
      && raw.waterModel in WaterModelMap
      && (variant == ScriptCopy ==> NumericError(raw).None?)
    ensures r.Success? ==> Valid(r.value) && r.value.variant == variant
    ensures r.Success? ==>
      var c := r.value;
      && c.pdbFile == site.resolve(raw.pdbFile)
      && c.jobName == (if raw.jobName == "" then site.stem(c.pdbFile) else raw.jobName)
      && c.outputDir ==
           (if IsCurrentDir(raw.outputDir) then DefaultOutputDir(variant, c.jobName, site)
            else Normalize(raw.outputDir))
      && (variant == ToolsCopy ==>
            c.gpu == Some(GpuSelection(raw.gpuDevice, CudaDeviceId(raw.gpuDevice))))
      && c.simTimeNs == raw.simTimeNs && c.temperature == raw.temperature
      && c.boxBuffer == raw.boxBuffer && c.saltConc == raw.saltConc
      && c.forcefield == raw.forcefield && c.waterModel == raw.waterModel
      && c.useGpu == raw.useGpu && c.dryRun == raw.dryRun
    ensures raw.pdbFile !in existing ==> r == Failure(PdbNotFound(raw.pdbFile))
    ensures raw.pdbFile in existing && raw.forcefield !in ForceFieldMap ==>
      r == Failure(UnknownForceField(raw.forcefield, Supported(variant, ForceFieldMap)))
    ensures raw.pdbFile in existing && raw.forcefield in ForceFieldMap
            && raw.waterModel !in WaterModelMap ==>
      r == Failure(UnknownWaterModel(raw.waterModel, Supported(variant, WaterModelMap)))
    ensures r.Failure? && Kind(r.error) == ValueError ==> raw.pdbFile in existing
  {
    if raw.pdbFile !in existing then Failure(PdbNotFound(raw.pdbFile))
    else
      var pdb := site.resolve(raw.pdbFile);
      var job := if raw.jobName == "" then site.stem(pdb) else raw.jobName;
      var out := if IsCurrentDir(raw.outputDir)
                 then (DefaultOutputDirIsNotCurrent(variant, job, site);
                       DefaultOutputDir(variant, job, site))
                 else (GivenOutputDirIsNotCurrent(raw.outputDir);
                       Normalize(raw.outputDir));
      if raw.forcefield !in ForceFieldMap then
        Failure(UnknownForceField(raw.forcefield, Supported(variant, ForceFieldMap)))
      else if raw.waterModel !in WaterModelMap then
        Failure(UnknownWaterModel(raw.waterModel, Supported(variant, WaterModelMap)))
      else
        var gpu := if variant == ToolsCopy
                   then Some(GpuSelection(raw.gpuDevice, CudaDeviceId(raw.gpuDevice)))
                   else None;
        if variant == ScriptCopy && NumericError(raw).Some? then Failure(NumericError(raw).value)
        else
          Success(Config(variant, pdb, job, raw.simTimeNs, raw.temperature, raw.boxBuffer,
                         raw.saltConc, raw.forcefield, raw.waterModel, raw.useGpu, gpu,
                         raw.dryRun, out, ForceFieldMap[raw.forcefield],
                         WaterModelMap[raw.waterModel]))
  }

  /** `cuda_device_id` of "cuda:N", in either letter case, is N; a bare N is kept as it is. */
  lemma DeviceIdOfPrefixed(n: string)
    requires ':' !in n
    ensures CudaDeviceId("cuda:" + n) == n
    ensures CudaDeviceId("CUDA:" + n) == n
    ensures CudaDeviceId(n) == n
  {
    LowerPrefix("cuda:", n);
    LowerPrefix("CUDA:", n);
    assert Lower("cuda:") == "cuda:";
    assert Lower("CUDA:") == "cuda:";
    AfterLastOfSuffix("cuda:", n, ':');
    AfterLastOfSuffix("CUDA:", n, ':');
  }

  /** The default device "cuda:0" selects CUDA device 0. */
  lemma DefaultDeviceId()
    ensures CudaDeviceId("cuda:0") == "0"
  {
    DeviceIdOfPrefixed("0");
    assert "cuda:" + "0" == "cuda:0";
  }

  /** Exactly four force-field spellings are accepted; each ff14/ff19 pair shares a script. */
  lemma ForceFieldSpellings()
    ensures ForceFieldMap.Keys == {"ff14SB", "ff14sb", "ff19SB", "ff19sb"}
    ensures "FF19SB" !in ForceFieldMap && "ff19" !in ForceFieldMap
    ensures ForceFieldMap["ff14SB"] == ForceFieldMap["ff14sb"] == "leaprc.protein.ff14SB"
    ensures ForceFieldMap["ff19SB"] == ForceFieldMap["ff19sb"] == "leaprc.protein.ff19SB"
  {
  }

  /** Each water model is accepted in lower and upper case, and both resolve alike. */
  lemma WaterModelSpellings()
    ensures WaterModelMap.Keys == {"tip3p", "TIP3P", "opc", "OPC", "tip4pew", "TIP4PEW"}
    ensures WaterModelMap["tip3p"] == WaterModelMap["TIP3P"] == WaterModel("leaprc.water.tip3p", "TIP3PBOX")
    ensures WaterModelMap["opc"] == WaterModelMap["OPC"] == WaterModel("leaprc.water.opc", "OPCBOX")
    ensures WaterModelMap["tip4pew"] == WaterModelMap["TIP4PEW"]
              == WaterModel("leaprc.water.tip4pew", "TIP4PEWBOX")
    ensures "Tip3p" !in WaterModelMap
  {
  }

  /**
   * The two copies differ on numbers: the tools copy accepts any simulation time, zero
   * included, where the script copy rejects it; the script accepts a zero salt
   * concentration and rejects a negative one.
   */
  lemma CopiesDifferOnNumbers(raw: RawConfig, existing: set<string>, site: Site)
    requires raw.pdbFile in existing && raw.forcefield in ForceFieldMap
    requires raw.waterModel in WaterModelMap
    ensures Validate(raw, ToolsCopy, existing, site).Success?
    ensures raw.simTimeNs == 0.0 ==>
      Validate(raw, ScriptCopy, existing, site) == Failure(NonPositiveSimTime)
    ensures raw.simTimeNs > 0.0 && raw.temperature > 0.0 && raw.boxBuffer > 0.0 ==>
      (Validate(raw, ScriptCopy, existing, site).Success? <==> raw.saltConc >= 0.0)
    ensures raw.simTimeNs > 0.0 && raw.temperature > 0.0 && raw.boxBuffer > 0.0
            && raw.saltConc < 0.0 ==>
      Validate(raw, ScriptCopy, existing, site) == Failure(NegativeSaltConcentration)
  {
  }

  /**
   * Checks run in a fixed order and the first failure is the one raised: the structure
   * file, then the force field, the water model, and the numbers in the order time,
   * temperature, box buffer, salt.
   */
  lemma FirstFailingCheckWins(raw: RawConfig, existing: set<string>, site: Site)
    ensures raw.pdbFile in existing && raw.forcefield !in ForceFieldMap ==>
      Validate(raw, ScriptCopy, existing, site).error.UnknownForceField?
    ensures raw.pdbFile in existing && raw.forcefield in ForceFieldMap
            && raw.waterModel in WaterModelMap && raw.simTimeNs <= 0.0 ==>
      Validate(raw, ScriptCopy, existing, site) == Failure(NonPositiveSimTime)
    ensures raw.pdbFile in existing && raw.forcefield in ForceFieldMap
            && raw.waterModel in WaterModelMap && raw.simTimeNs > 0.0 && raw.temperature <= 0.0 ==>
      Validate(raw, ScriptCopy, existing, site) == Failure(NonPositiveTemperature)
    ensures raw.pdbFile in existing && raw.forcefield in ForceFieldMap
            && raw.waterModel in WaterModelMap && raw.simTimeNs > 0.0 && raw.temperature > 0.0
            && raw.boxBuffer <= 0.0 ==>
      Validate(raw, ScriptCopy, existing, site) == Failure(NonPositiveBoxBuffer)
    ensures raw.pdbFile !in existing ==>
      forall v :: Validate(raw, v, existing, site) == Failure(PdbNotFound(raw.pdbFile))
  {
  }
}
