# A verified model of the amber_mcp simulation driver

amber_mcp drives a protein molecular-dynamics workflow built on AmberTools. It takes a PDB
structure and:

- validates a simulation configuration (force field, water model, output directory, GPU device);
- writes six input documents (a tleap script and five mdin files);
- sources the Amber environment script and finds an MD engine (`pmemd.cuda`, `pmemd`, `sander`) with `which`;
- prepares the solvated system with tleap;
- runs five engine stages: restrained minimization, free minimization, NVT heating, NPT
  equilibration and NPT production.

That logic exists twice:

- `src/tools/simulation.py` (the tools copy) backs the server's three tools:
  `amber_run_protein_md`, `amber_prepare_system` and `amber_generate_input_files`.
- `scripts/single_protein_simulation.py` (the script copy) is a command-line program. Its
  `run_all` runs the same workflow and its `main` turns the outcome into an exit status.

The model in Dafny:

- `Config.Validate` is `SimulationConfig.__post_init__` for both copies. `Variant` selects
  the copy-specific behaviour: numeric checks, default output directory, GPU device parsing
  and the error text.
- `Generator` holds the six documents as structured values (`Documents`), plus the method
  that writes them and returns the artifact manifest.
- `Host` stands in for the machine. A `Machine` object holds the files that exist, the
  documents written and the processes spawned. A `World` value is the deterministic oracle
  for what each process does: its exit status, its standard output and the files it
  creates. It also gives the text each file holds.
- `Runner` has the `SimulationRunner` class with its fields and methods. Each method is
  proved against a specification function: `Execute` for the step chain, `ScriptRun` for
  `run_all`. Lemmas about those functions state the workflow's guarantees: the probe order,
  the merging of the environment, stop-at-first-failure, and the stage chain of restart files.
- `ToolsApi` specifies each tool as a function from the starting state to a `Call` (the
  processes run, the files left, the reply or error). Methods over the `Machine` are proved
  to follow these functions.
- `Paths` is the part of pathlib the driver relies on: the printed form `str(Path(s))` of a
  POSIX path and `Path(dir) / name`.
- `Script` models `main`'s exit codes, argparse's choice check included.

Python exceptions are the `Error` datatype, grouped into their exception classes by
`Errors.Kind`. Every operation that can raise returns `Result` or `Outcome`.

## Model

| member | source | states |
|---|---|---|
| Config.Validate | src/tools/simulation.py:77-109 | Succeeds exactly when the structure exists, both names are known and (script copy) the numbers are in range. On success the result is a valid configuration: resolved path, job name defaulting to the file stem, an output directory whose pathlib form is "." (such as "", ".", "./" or "./.") replaced by the copy's default and any other one kept in its pathlib form, force-field and water sources from the tables, GPU selection (tools copy). Otherwise the first failing check is the error, in source order. In scripts/single_protein_simulation.py (lines 83-131): the same, with the script copy's range checks and its default directory `./md_<job>`, printed `md_<job>`; the script copy has no GPU selection |
| Config.DefaultOutputDirIsNotCurrent | src/tools/simulation.py:92-93 | The default output directory (`results/md_<job>_<timestamp>` in the tools copy, `./md_<job>` in the script copy, at scripts/single_protein_simulation.py:103-104) never prints as ".", whatever the job name |
| Config.NumericError | scripts/single_protein_simulation.py:123-131 | No error exactly when time, temperature and box buffer are positive and salt is non-negative |
| Config.CudaDeviceId | src/tools/simulation.py:103-109 | After a `cuda:` prefix in any letter case, the id is the colon-free text after the last colon and is a proper suffix of the device string; without the prefix the device string is kept |
| Config.DeviceIdOfPrefixed | src/tools/simulation.py:103-109 | "cuda:N" and "CUDA:N" both give N, and a bare N gives N |
| Config.DefaultDeviceId | src/tools/simulation.py:67-75 | The default device "cuda:0" selects CUDA device "0" |
| Config.ForceFieldSpellings | src/tools/simulation.py:36-41 | Exactly four spellings are accepted, and each ff14SB/ff19SB pair maps to the same leaprc script |
| Config.WaterModelSpellings | src/tools/simulation.py:44-51 | Exactly six spellings are accepted; lower and upper case resolve to the same source and box; mixed case is rejected |
| Config.CopiesDifferOnNumbers | scripts/single_protein_simulation.py:123-131 | With valid names the tools copy always accepts; the script copy rejects a zero time, and accepts a salt concentration exactly when it is non-negative |
| Config.FirstFailingCheckWins | scripts/single_protein_simulation.py:83-131 | The checks run in the order structure, force field, water model, time, temperature, box buffer, and the first failure is the one raised; a missing structure wins in both copies |
| Generator.TruncateToInt | src/tools/simulation.py:239 | Python `int()` on a float: for x >= 0 the greatest integer at most x, for x < 0 the least integer at least x |
| Generator.InputFiles | src/tools/simulation.py:269-276 | The six (name, document) pairs, in the order tleap.in, min.in, min2.in, heat.in, equil.in, prod.in, under six different names, so the dictionary keeps all six entries |
| Generator.WriteAllInputFiles | src/tools/simulation.py:267-289 | Writes each of the six documents under its name in the directory. The record of written documents becomes WithInputs of the old one: exactly the six paths are added, and every other entry keeps its document. It adds exactly those six paths to the files, spawns nothing, and returns the six-entry manifest. In scripts/single_protein_simulation.py (lines 291-308): the same writes; the script copy's callers discard the manifest |
| Generator.WriteDocuments | src/tools/simulation.py:278-289 | The loop of write_all_input_files, for any six documents so named. The record becomes WithDocuments of the old one: the i-th document lands at the i-th name, no other key is added and other entries are kept. The manifest lists each document |
| Generator.WrittenPrefix | src/tools/simulation.py:278-289 | After the first n of six documents are written, the record holds the old keys plus exactly their n paths. Each holds its document, and every other entry keeps its value |
| Generator.WithInputsSpec | src/tools/simulation.py:267-289 | WithInputs adds exactly the six input paths, with input k holding document k, and keeps every other entry |
| Generator.TleapUsesConfiguration | src/tools/simulation.py:117-143 | The tleap script sources the configured force field and water model, loads the structure, solvates in the model's box with the configured buffer, and saves system.prmtop, system.inpcrd and system.pdb, then quits |
| Generator.HeatingRampSpansStage | src/tools/simulation.py:174-204 | The &wt ramp goes from step 0 to nstlim and from tempi = 0 K to temp0 = the configured temperature, with nmropt = 1 |
| Generator.ProductionRunsConfiguredSteps | src/tools/simulation.py:237-265 | Production runs int(sim_time_ns * 500000) steps of 0.002 ps |
| Generator.ProductionCoversRequestedTime | src/tools/simulation.py:239 | For a non-negative time, production covers the requested picoseconds rounded down to a whole step: never more, and less by under one step |
| Generator.ProductionStepsTruncate | scripts/single_protein_simulation.py:263 | int() truncates toward zero: 10 ns gives 5000000 steps, times under one step give 0, negative times round up |
| Generator.FixedStageLengths | src/tools/simulation.py:174-235 | Heating runs 25000 steps (50 ps) and equilibration 250000 steps (500 ps) |
| Generator.RestraintsLoosen | src/tools/simulation.py:145-235 | Restraint weights fall stage by stage: 10 on heavy atoms (min.in), 5 on C-alpha (heat.in), 2 on C-alpha (equil.in) |
| Generator.FreeStagesUnrestrained | src/tools/simulation.py:145-265 | min2.in and prod.in set ntr = 0 and carry no restraint weight or mask |
| Generator.HeatingDynamics | src/tools/simulation.py:174-204 | Heating is Langevin dynamics with a 2 fs step, SHAKE and the configured target temperature |
| Generator.HeatingIsFreshNvt | src/tools/simulation.py:174-204 | Heating starts fresh (irest 0, ntx 1) at constant volume, with no barostat |
| Generator.EquilibrationDynamics | src/tools/simulation.py:206-235 | Equilibration is Langevin dynamics with a 2 fs step, SHAKE and the configured target temperature |
| Generator.EquilibrationIsNptRestart | src/tools/simulation.py:206-235 | Equilibration restarts from the previous state at a constant pressure of 1 bar |
| Generator.ProductionDynamics | src/tools/simulation.py:237-265 | Production is Langevin dynamics with a 2 fs step, SHAKE and the configured target temperature |
| Generator.ProductionIsNptRestart | src/tools/simulation.py:237-265 | Production restarts at 1 bar and writes a NetCDF trajectory (ioutfm 1) |
| Generator.MinimizationSettings | src/tools/simulation.py:145-172 | Both minimizations run 5000 cycles, the first 2500 by steepest descent, in a periodic box; ntr is 1 exactly for the restrained one |
| Generator.ManifestListsWrittenFiles | src/tools/simulation.py:278-289 | Manifest entry k is "Input file: <name k>" at the resolved path of the k-th written file |
| Generator.SixDistinctInputs | src/tools/simulation.py:269-276 | The six input names give six different paths |
| Runner.ProbeChoosesFirstAvailable | src/tools/simulation.py:332-365 | Probing stops at the first available engine and chooses it; every engine probed before it is unavailable; with no engine available, every candidate was probed |
| Runner.CpuEngineSearch | scripts/single_protein_simulation.py:354-390 | Without a GPU the result is pmemd if available, else sander if available, else no engine after probing both |
| Runner.GpuEngineSearch | src/tools/simulation.py:334-343 | With a GPU, pmemd.cuda is taken if available; otherwise the CPU search follows it |
| Runner.MergeEnvKeys | src/tools/simulation.py:320-323 | After merging the `env` output, the keys are exactly the old ones plus every key some line binds |
| Runner.MergeEnvUntouched | src/tools/simulation.py:320-323 | A key no line binds keeps its old value, or stays absent |
| Runner.MergeEnvLastWins | src/tools/simulation.py:320-323 | The last line binding a key decides its value, which is the text after the first `=` |
| Runner.CudaOverride | src/tools/simulation.py:325-328 | The tools copy with a GPU sets CUDA_VISIBLE_DEVICES to the parsed device id after sourcing; with no GPU, or in the script copy, the environment is exactly the merged output |
| Runner.StepVerdict | src/tools/simulation.py:367-392 | A step passes exactly when it exits 0 and leaves every declared output; a non-zero exit is reported as that step's failure |
| Runner.StageChain | scripts/single_protein_simulation.py:446-536 | The first stage starts from tleap's coordinates, each later one from the restart file its predecessor leaves; a restrained stage is restrained to its own start; restart files are all different |
| Runner.StageArgvLayout | src/tools/simulation.py:414-481 | The engine command line is `-O -i -o -p -c -r`, with `-x` only for a trajectory and `-ref` last only for a restraint reference |
| Runner.ArgvChain | src/tools/simulation.py:414-481 | On consecutive command lines, the `-c` of a stage is the `-r` of the stage before |
| Runner.StagesMatchDocuments | src/tools/simulation.py:145-265 | Stage k runs the (k+1)-th generated document; that document restrains exactly when the stage passes `-ref`, and writes frames exactly when it passes `-x` |
| Runner.TleapFeedsFirstStage | src/tools/simulation.py:394-412 | tleap saves topology and coordinates, which are exactly the outputs run_tleap checks, and the coordinates are what the first stage reads |
| Runner.ExecuteRunsAPrefix | scripts/single_protein_simulation.py:538-571 | A run spawns a prefix of the step processes in order; all of them when nothing fails, at least one when something does; the files are the old ones plus what the spawned ones created |
| Runner.ExecutePassesBeforeFailure | scripts/single_protein_simulation.py:538-571 | Every step before the last one spawned passed its check, and so did the last one when the run completed |
| Runner.ExecuteReportsFailingStep | scripts/single_protein_simulation.py:538-571 | A failed run reports exactly the verdict of the last step it spawned |
| Runner.ExecuteFollowsTrace | scripts/single_protein_simulation.py:538-571 | After n passing steps, the run is those n processes followed by the rest; it ends there when step n + 1 fails |
| Runner.DryRunRunsNoStep | scripts/single_protein_simulation.py:538-571 | A dry run spawns only processes without a working directory (the sourcing shell and the probes), so it spawns no tleap and no engine |
| Runner.CompletedRunRanEveryStep | scripts/single_protein_simulation.py:538-571 | A completed run found an engine, and its last six processes are tleap and the five stages, in order, with that engine and the sourced environment |
| Runner.InputsWrittenOnceEngineFound | scripts/single_protein_simulation.py:538-571 | Inputs are written exactly when an engine was found, and every completed run wrote them |
| Runner.SimulationRunner.constructor | scripts/single_protein_simulation.py:313-317 | The runner starts with no engine, no Amber directory and a copy of the process environment |
| Runner.SimulationRunner.MergeSourcedOutput | scripts/single_protein_simulation.py:347-350 | The loop leaves the environment equal to MergeEnv over the output's lines, and changes nothing else |
| Runner.SimulationRunner.SetupEnvironment | src/tools/simulation.py:299-329 | A missing amber.sh fails with nothing spawned. Otherwise the sourcing shell is spawned, and the call passes exactly when it exits 0. On success the environment is EnvAfterSetup; on failure it is unchanged. In scripts/single_protein_simulation.py (lines 319-352): the same, with amber_env set to the env directory and no CUDA override |
| Runner.SimulationRunner.DetectMdEngine | src/tools/simulation.py:332-365 | Spawns exactly the `which` probes of the priority search, records the engine it finds, or fails with no engine found. In scripts/single_protein_simulation.py (lines 354-390): the same search in the script copy |
| Runner.SimulationRunner.DetectCpuEngine | src/tools/simulation.py:345-365 | The pmemd-then-sander half of the search, with the same contract over the CPU candidates |
| Runner.SimulationRunner.RunCommand | src/tools/simulation.py:367-392 | Spawns argv in the output directory with the runner's environment. A non-zero exit is that step's failure, and a missing check file is a missing-output failure. It passes exactly when the exit is 0 and the check file exists |
| Runner.SimulationRunner.RunTleap | src/tools/simulation.py:394-412 | Spawns tleap once and fails exactly when StepVerdict does; on success returns the ATOM count of system.pdb. In scripts/single_protein_simulation.py (lines 422-444): the same run and checks; the script copy only logs the count |
| Runner.SimulationRunner.RunStage | src/tools/simulation.py:414-481 | Spawns the stage's engine command line once; the outcome is the stage's verdict |
| Runner.SimulationRunner.RunMinimization | src/tools/simulation.py:414-436 | Stage 1 runs the restrained minimization, any other number the free one; the outcome is that stage's verdict |
| Runner.SimulationRunner.RunHeating | src/tools/simulation.py:438-451 | Runs the heating stage once; the outcome is its verdict |
| Runner.SimulationRunner.RunEquilibration | src/tools/simulation.py:453-466 | Runs the equilibration stage once; the outcome is its verdict |
| Runner.SimulationRunner.RunProduction | src/tools/simulation.py:468-481 | Runs the production stage once; the outcome is its verdict |
| Runner.SimulationRunner.ExecuteStages | src/tools/simulation.py:576-592 | tleap and the five stages do exactly what Execute says: the same processes, files and first error. On success the result is the atom count after tleap |
| Runner.SimulationRunner.RunAll | scripts/single_protein_simulation.py:538-571 | run_all does what ScriptRun says: the same processes, files, outcome, environment and engine. The engine stays unset when none is found. amber_env is set to the env directory once amber.sh exists. When the run got as far as writing inputs, the record is WithInputs of the old one; otherwise nothing was written |
| Runner.SimulationRunner.DetectAndRun | scripts/single_protein_simulation.py:542-571 | Once setup is done, run_all does what DetectedRun says. The engine stays unset when none is found and amber_env is untouched. The record is WithInputs of the old one exactly when an engine was found, and unchanged otherwise |
| Runner.SimulationRunner.PrepareAndRun | scripts/single_protein_simulation.py:544-571 | Once the engine is found, run_all does what PreparedRun says. The record becomes WithInputs of the old one: the six documents are added and every other entry is kept |
| ToolsApi.MissingStructureFirst | src/tools/simulation.py:484-761 | Each of the three tools reports a missing structure file before doing anything else |
| ToolsApi.DryRunRunsNothing | src/tools/simulation.py:548-569 | A dry run of amber_run_protein_md spawns no process and replies with exactly the six-entry input manifest and no engine |
| ToolsApi.DryRunMatchesGenerator | src/tools/simulation.py:548-569 | A dry run with the default salt and device leaves the same files as amber_generate_input_files, succeeds exactly when it does, and lists the same artifacts |
| ToolsApi.CompletedWorkflowRanEveryStep | src/tools/simulation.py:571-625 | A completed workflow found an engine and sourced first. Its last six processes are tleap and the five stages with that engine and environment. Its manifest is the six inputs then the five outputs (11 entries) |
| ToolsApi.PrepareRunsSetupAndTleapOnly | src/tools/simulation.py:628-698 | amber_prepare_system spawns at most the sourcing shell and tleap, never an engine probe; on success both ran, there is no engine and there are four artifacts |
| ToolsApi.PrepareUsesDefaults | src/tools/simulation.py:655-662 | amber_prepare_system keeps the defaults of the arguments it does not take: 10 ns, 300 K, 0.15 M salt, GPU device cuda:0 (id 0), not a dry run |
| ToolsApi.GenerateReportsProductionSteps | src/tools/simulation.py:701-761 | amber_generate_input_files spawns nothing; it succeeds exactly when the structure exists and both names are known; a success reports int(sim_time_ns * 500000) steps and six artifacts |
| ToolsApi.RunProteinMd | src/tools/simulation.py:484-625 | amber_run_protein_md does what ProteinMd says: the same processes, files and reply or error. Once the configuration is valid, the record becomes WithInputs of the old one; before that nothing is written. On success each of the six inputs holds its document |
| ToolsApi.RunWorkflow | src/tools/simulation.py:571-625 | The non-dry-run part does what Workflow says. It writes no document, and a success reports the configuration it ran |
| ToolsApi.RunDetected | src/tools/simulation.py:574-625 | After setup, the call does what EngineWorkflow says. It writes no document, and a success reports the runner's configuration |
| ToolsApi.RunPrepareSystem | src/tools/simulation.py:628-698 | amber_prepare_system does what PrepareSystem says. Once the configuration is valid, the record gains tleap.in, holding the configuration's tleap document, and nothing else changes; otherwise nothing is written |
| ToolsApi.RunPrepareConfigured | src/tools/simulation.py:664-698 | After validation, the call does what PreparedSystem says. The record gains tleap.in, holding the tleap document, whatever follows, and nothing else changes. A success reports that configuration |
| ToolsApi.RunGenerateInputFiles | src/tools/simulation.py:701-761 | amber_generate_input_files does what GenerateInputFiles says. Once the configuration is valid, the record becomes WithInputs of the old one; otherwise nothing is written. On success each of the six files holds its document |
| Script.ExitCode | scripts/single_protein_simulation.py:719-769 | Status 0 exactly on normal completion, 130 exactly on interruption, 1 exactly when a caught exception was raised, 2 exactly when argparse refused the command line before the `try` |
| Script.EveryErrorIsCaught | scripts/single_protein_simulation.py:758-766 | Every modelled error is a FileNotFoundError, ValueError or RuntimeError, and main maps it to status 1 |
| Script.ExitZeroIffRunCompletes | scripts/single_protein_simulation.py:719-766 | The script exits 0 exactly when argparse accepts both names, the configuration is accepted and run_all passes; 2 exactly when argparse refuses a name; any other ending without interruption gives 1 |
| Script.ConfigErrorsRunNothing | scripts/single_protein_simulation.py:733-760 | With names argparse accepts, a missing structure or an out-of-range number exits 1 with no process spawned and no file touched |
| Script.ChoicesAreMapped | scripts/single_protein_simulation.py:679-689 | Every force field and water model argparse's `choices` let through is a key of the configuration's tables |
| Script.UnknownNamesExitTwo | scripts/single_protein_simulation.py:679-721 | A name outside the choices exits 2 with no process spawned and no file touched, so the configuration's unknown-name ValueError is unreachable from the command line |
| Script.TableSpellingsExitTwo | scripts/single_protein_simulation.py:679-721 | ff14sb, ff19sb, TIP3P, OPC and TIP4PEW are keys of the configuration's tables, yet each exits 2 on the command line |
| Script.DryRunExitsZeroOnceEngineFound | scripts/single_protein_simulation.py:538-560 | A dry run whose names argparse accepts, whose configuration is accepted and that finds an engine exits 0 |
| Script.RunMain | scripts/single_protein_simulation.py:719-769 | main, argparse's choice check included, does what Main says, and returns the ExitCode of the way it ended. The record becomes WithInputs of the old one exactly when the names and the configuration are accepted and run_all got as far as writing inputs; otherwise nothing is written |
| Host.Machine.MakeDirs | src/tools/simulation.py:548 | `mkdir(parents=True, exist_ok=True)` records the directory itself, whether or not it existed, and leaves the written documents and the spawned processes unchanged; the parents it creates are not recorded (see Left out) |
| Host.Machine.WriteText | src/tools/simulation.py:281 | `write_text` creates or overwrites exactly one file with the given document |
| Host.Machine.Spawn | src/tools/simulation.py:376-381 | `subprocess.run` records the process and the files it creates, and returns the oracle's exit status and output |
| Paths.Segments | src/tools/simulation.py:81-82 | The pieces of a path between its slashes: at least one, none containing a slash |
| Paths.UnsplitSegments | src/tools/simulation.py:81-82 | Joining the pieces with slashes gives the path back |
| Paths.SegmentsUnsplit | src/tools/simulation.py:81-82 | Splitting slash-free pieces joined by slashes gives the pieces back |
| Paths.CurrentDirPieces | src/tools/simulation.py:92-93 | `str(Path(d)) == "."` exactly when d does not start with a slash and every piece between its slashes is empty or "." |
| Paths.CurrentDirChars | src/tools/simulation.py:92-93 | A path naming the current directory is spelt with slashes and dots alone |
| Paths.NamedPathIsNotCurrent | src/tools/simulation.py:92-93 | A path holding any character other than a slash or a dot is not the current directory, nor is its printed form |
| Paths.NormalFormStaysPut | scripts/single_protein_simulation.py:88-104 | A printed path other than "." never names the current directory again, so a given output directory that is not "." stays so once stored as a Path |
| Paths.CurrentDirSpellings | scripts/single_protein_simulation.py:103-104 | "", "." and "./" are the current directory |
| Paths.RepeatedCurrentDirSpellings | scripts/single_protein_simulation.py:103-104 | ".//" and "./." are the current directory too |
| Paths.OtherSpellings | scripts/single_protein_simulation.py:103-104 | "/" and ".." are not the current directory |
| Paths.TrailingSlashDropped | scripts/single_protein_simulation.py:88-89 | A named piece followed by a slash prints without the slash |
| Paths.DoubledSlashDropped | scripts/single_protein_simulation.py:88-89 | Two named pieces separated by two slashes print separated by one |
| Paths.JoinInjective | src/tools/simulation.py:281 | Joining two names onto the same directory gives the same path only for the same name |
| Strings.SplitLinesKeepsText | src/tools/simulation.py:320 | `splitlines()` loses the line boundaries and nothing else |
| Strings.Partition | src/tools/simulation.py:321-322 | `partition("=")`: the key holds no `=`; the parts rejoin to the line exactly when `=` occurs |

## Left out

- Logging, `print_summary` and `print_config` are not modelled. Of the CLI's `parse_args`,
  only the `choices` check on the force field and water model is modelled (`Script.ChoicesOk`,
  exit status 2). The model starts from typed arguments (`Script.ScriptArgs`, with `--cpu`
  negated into use_gpu). argparse's own refusal of a non-numeric number (also status 2),
  `--help` and `--verbose` are not modelled.
- Paths: only POSIX paths are modelled. Windows paths, `~` expansion and symbolic links
  are not. `Site.resolve` stays abstract.
  `src/server.py` only mounts the tools and is not part of this model.
- Message texts and float formatting are not modelled. `ToolsApi.Message` records which
  message a reply carries and the values it interpolates. The reply's "config" dictionary
  is represented by the whole `Config`.
- Floats are Dafny reals: NaN, infinities and rounding are not modelled. Documents hold
  values, not their text rendering.
- `Strings.Lower` lower-cases ASCII letters only; `CudaDeviceId` applies it only to test the
  `cuda:` prefix.
- Processes, the clock and the filesystem are parameters:
  - the `World` oracle gives exit statuses, output and created files;
  - `Site` gives path resolution, the file stem, the project root and the timestamp in the
    default output directory name;
  - the process environment is passed in as a map.
- Concurrency, timeouts and KeyboardInterrupt timing are not modelled. `Script.ExitCode`
  covers the interrupted ending, but `Script.RunMain` never takes it.
- Both copies share one `SimulationRunner`. `Config.Variant` selects what differs:
  - the script copy checks numbers; the tools copy does not;
  - the tools copy parses a GPU device and pins CUDA_VISIBLE_DEVICES; the script copy has neither;
  - only the script copy records `amber_env`.
- Dry-run order differs between the copies, and the model keeps each order:
  - the script's `run_all` sources the environment and finds an engine before writing the
    inputs and stopping;
  - `amber_run_protein_md` writes the inputs and replies before any setup.
- Runner.SimulationRunner.RunTleap: returns the atom count in both copies. The script copy
  only logs it, and its read of tleap.log on failure (used only for the log) is left out.
- Generator.WriteAllInputFiles: returns the manifest in both copies; the script copy's
  version returns None, and its callers here discard the value.
- When a tool raises after writing files, the model returns the error. Any partial
  artifact list is lost, as it is in the source.
- The engine stage methods require that an engine was found (`mdEngine.Some?`). The source
  would pass `None` as the program name; no caller does that.
- Several methods are pulled out of longer inline code so that each has its own contract:
  - `Runner.SimulationRunner.ExecuteStages` and `ToolsApi.RunWorkflow` cover the step sequence;
  - `Runner.SimulationRunner.MergeSourcedOutput` is the env-merging loop;
  - `Runner.SimulationRunner.DetectAndRun` and `Runner.SimulationRunner.PrepareAndRun` split `run_all`;
  - `ToolsApi.RunDetected` and `ToolsApi.RunPrepareConfigured` split the tools;
  - `Runner.SimulationRunner.DetectCpuEngine` is the CPU half of detection;
  - `Generator.WriteDocuments` is the write loop.
- Generator.ProductionSteps: the production step count is `int(sim_time_ns * 500000)`,
  which truncates toward zero and does not round to the nearest step. A fractional part of
  one half or more is dropped, not rounded up.
- Config.Validate: the tools copy checks no numbers, so it accepts a zero or negative
  simulation time, temperature or box buffer and a negative salt concentration. Only the
  script copy rejects them (`Config.CopiesDifferOnNumbers`).
- Host.Machine.MakeDirs: the parent directories `mkdir(parents=True)` creates are not
  recorded; only the directory itself enters `files`. `files` does not tell regular files
  from directories, so neither `mkdir` nor `write_text` ever fails in the model. In Python,
  mkdir on an existing regular file raises FileExistsError, and write_text can raise
  IsADirectoryError, NotADirectoryError or PermissionError. So
  `amber_run_protein_md(pdb_file="p.pdb", output_dir="p.pdb", dry_run=True)` raises in the
  source but succeeds in the model.
- Config.Validate: a path's existence is tested on its spelling (`raw.pdbFile in existing`),
  so "./p.pdb" is not found when only "p.pdb" is recorded. `Path.exists` would find it,
  because it consults the filesystem.
- Host.Machine.Spawn: a program that cannot be started is not modelled. There,
  `subprocess.run` raises FileNotFoundError instead of returning, for a missing tleap,
  `which` or /bin/bash. In the model the `World` always gives an exit status, so
  `Runner.SimulationRunner.RunCommand`, `Runner.SimulationRunner.RunTleap`,
  `Runner.SimulationRunner.SetupEnvironment` and `Runner.SimulationRunner.DetectMdEngine`
  never raise that error. The script copy's `main` would turn it into status 1; a tool
  would let it propagate.
