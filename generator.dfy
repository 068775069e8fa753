/**
 * InputFileGenerator: the six stage documents, fixed policy constants included, as a pure
 * function of the configuration, and the method that writes them into the output
 * directory and lists them in the artifact manifest.
 */
module Generator {
  import opened Wrappers
  import opened Strings
  import opened Paths
  import opened Config
  import opened Documents
  import opened Host

  /** Step counts of the fixed-length stages (2 fs time step: 50 ps and 500 ps). */
  const HeatingSteps: int := 25000
  const EquilibrationSteps: int := 250000
  /** 1 ns = 10^6 fs = 500000 steps of 2 fs. */
  const StepsPerNs: int := 500000

  /** Python's `int(x)` on a float: truncation toward zero. */
  function TruncateToInt(x: real): (n: int)
    ensures x >= 0.0 ==> n >= 0 && n as real <= x < n as real + 1.0
    ensures x < 0.0 ==> n <= 0 && n as real - 1.0 < x <= n as real
  {
    if x >= 0.0 then x.Floor else -((-x).Floor)
  }

  /** `int(sim_time_ns * 500000)`. */
  function ProductionSteps(simTimeNs: real): int {
    TruncateToInt(simTimeNs * StepsPerNs as real)
  }

  /** tleap.in: load force field, water model and structure, solvate, neutralise, save. */
  function TleapInput(c: Config): Document {
    LeapScript([
      Source(c.ffSource),
      Source(c.water.source),
      LoadPdb("mol", c.pdbFile),
      Check("mol"),
      SolvateBox("mol", c.water.box, c.boxBuffer),
      AddIons2("mol", "Na+", 0),
      AddIons2("mol", "Cl-", 0),
      SaveAmberParm("mol", "system.prmtop", "system.inpcrd"),
      SavePdb("mol", "system.pdb"),
      Quit
    ])
  }

  /** min.in (heavy atoms restrained) or min2.in (free). */
  function MinimizationInput(withRestraints: bool): Document {
    if withRestraints then
      MdInput([Text("Minimization")], map[
        imin := Int(1), maxcyc := Int(5000), ncyc := Int(2500), ntb := Int(1),
        ntr := Int(1), restraint_wt := Num(10.0), restraintmask := Text("!@H="),
        cut := Num(10.0), ntpr := Int(100)
      ], [])
    else
      MdInput([Text("Minimization (no restraints)")], map[
        imin := Int(1), maxcyc := Int(5000), ncyc := Int(2500), ntb := Int(1),
        ntr := Int(0), cut := Num(10.0), ntpr := Int(100)
      ], [])
  }

  /** heat.in: NVT from 0 K, the thermostat target ramped to the temperature over the run. */
  function HeatingInput(c: Config): Document {
    MdInput([Text("Heating from 0 to "), Num(c.temperature), Text(" K")], map[
      imin := Int(0), irest := Int(0), ntx := Int(1), ntb := Int(1),
      cut := Num(10.0), ntr := Int(1), restraint_wt := Num(5.0),
      restraintmask := Text("@CA"), nstlim := Int(HeatingSteps), dt := Num(0.002),
      ntc := Int(2), ntf := Int(2), tempi := Num(0.0), temp0 := Num(c.temperature),
      ntt := Int(3), gamma_ln := Num(2.0), ig := Int(-1), ntpr := Int(500),
      ntwx := Int(500), ntwr := Int(5000), iwrap := Int(1), nmropt := Int(1)
    ], [TemperatureRamp(0, HeatingSteps, 0.0, c.temperature), WeightsEnd])
  }

  /** equil.in: NPT restart from the heated state, C-alpha atoms lightly restrained. */
  function EquilibrationInput(c: Config): Document {
    MdInput([Text("Equilibration (NPT)")], map[
      imin := Int(0), irest := Int(1), ntx := Int(5), ntb := Int(2),
      pres0 := Num(1.0), ntp := Int(1), taup := Num(2.0), cut := Num(10.0),
      ntr := Int(1), restraint_wt := Num(2.0), restraintmask := Text("@CA"),
      nstlim := Int(EquilibrationSteps), dt := Num(0.002), ntc := Int(2),
      ntf := Int(2), temp0 := Num(c.temperature), ntt := Int(3),
      gamma_ln := Num(2.0), ig := Int(-1), ntpr := Int(500), ntwx := Int(500),
      ntwr := Int(10000), iwrap := Int(1)
    ], [])
  }

  /** prod.in: unrestrained NPT for the configured time, NetCDF trajectory. */
  function ProductionInput(c: Config): Document {
    MdInput([Text("Production MD (NPT)")], map[
      imin := Int(0), irest := Int(1), ntx := Int(5), ntb := Int(2),
      pres0 := Num(1.0), ntp := Int(1), taup := Num(2.0), cut := Num(10.0),
      ntr := Int(0), nstlim := Int(ProductionSteps(c.simTimeNs)), dt := Num(0.002),
      ntc := Int(2), ntf := Int(2), temp0 := Num(c.temperature), ntt := Int(3),
      gamma_ln := Num(2.0), ig := Int(-1), ntpr := Int(5000), ntwx := Int(5000),
      ntwr := Int(50000), iwrap := Int(1), ioutfm := Int(1)
    ], [])
  }

  /** The file names, in the order the documents are written. */
  const InputNames: seq<string> := ["tleap.in", "min.in", "min2.in", "heat.in", "equil.in", "prod.in"]

  /** The document written under `InputNames[k]`. */
  function DocumentFor(c: Config, k: nat): Document
    requires k < |InputNames|
  {
    match k
    case 0 => TleapInput(c)
    case 1 => MinimizationInput(true)
    case 2 => MinimizationInput(false)
    case 3 => HeatingInput(c)
    case 4 => EquilibrationInput(c)
    case 5 => ProductionInput(c)
  }

  /**
   * The `files` dictionary of write_all_input_files, in insertion order: six entries under
   * six different keys, so none of them replaces another.
   */
  function InputFiles(c: Config): (files: seq<(string, Document)>)
    ensures |files| == |InputNames|
    ensures forall k :: 0 <= k < |files| ==> files[k] == (InputNames[k], DocumentFor(c, k))
    ensures forall j, k :: 0 <= j < k < |files| ==> files[j].0 != files[k].0
  {
    seq(|InputNames|, k requires 0 <= k < |InputNames| => (InputNames[k], DocumentFor(c, k)))
  }

  /** An entry of the artifact manifest. */
  datatype Artifact = Artifact(description: string, path: string)

  /** The resolved path of `name` in the output directory. */
  function ArtifactPath(dir: string, name: string, resolve: string -> string): string {
    resolve(Join(dir, name))
  }

  /** The manifest write_all_input_files returns: one entry per document, in order. */
  function InputManifest(dir: string, resolve: string -> string): (m: seq<Artifact>)
    ensures |m| == |InputNames|
  {
    seq(|InputNames|, k requires 0 <= k < |InputNames| =>
      Artifact("Input file: " + InputNames[k], ArtifactPath(dir, InputNames[k], resolve)))
  }

  function InputPaths(dir: string): set<string> {
    set k | 0 <= k < |InputNames| :: Join(dir, InputNames[k])
  }

  /** The paths of the first `n` documents. */
  function PathsBefore(dir: string, n: nat): set<string>
    requires n <= |InputNames|
  {
    set k | 0 <= k < n :: Join(dir, InputNames[k])
  }

  lemma PathsStep(dir: string, i: nat)
    requires i < |InputNames|
    ensures PathsBefore(dir, i + 1) == PathsBefore(dir, i) + {Join(dir, InputNames[i])}
  {
  }

  /** The record of written documents once `docs` are written into `dir`, in order. */
  function WithDocuments(w: map<string, Document>, docs: seq<(string, Document)>, dir: string)
    : map<string, Document>
    decreases |docs|
  {
    if docs == [] then w
    else WithDocuments(w, docs[..|docs| - 1], dir)[Join(dir, docs[|docs| - 1].0) := docs[|docs| - 1].1]
  }

  /** The record of written documents once write_all_input_files of `c` has run on `dir`. */
  function WithInputs(w: map<string, Document>, c: Config, dir: string): map<string, Document> {
    WithDocuments(w, InputFiles(c), dir)
  }

  /**
   * Writing the first `n` documents named as `InputNames` adds exactly their paths, each
   * holding its document, and keeps every other entry.
   */
  lemma {:induction false} WrittenPrefix(w: map<string, Document>, docs: seq<(string, Document)>,
                                         dir: string, n: nat)
    requires |docs| == |InputNames| && forall k :: 0 <= k < |docs| ==> docs[k].0 == InputNames[k]
    requires n <= |docs|
    ensures var r := WithDocuments(w, docs[..n], dir);
      && r.Keys == w.Keys + PathsBefore(dir, n)
      && (forall k :: 0 <= k < n ==> r[Join(dir, InputNames[k])] == docs[k].1)
      && (forall p :: p in w && p !in PathsBefore(dir, n) ==> r[p] == w[p])
    decreases n
  {
    if n == 0 {
      assert docs[..0] == [];
    } else {
      WrittenPrefix(w, docs, dir, n - 1);
      assert docs[..n][..n - 1] == docs[..n - 1];
      assert docs[..n][n - 1] == docs[n - 1];
      PathsStep(dir, n - 1);
      forall k | 0 <= k < n - 1 {
        InputPathsDistinct(dir, k, n - 1);
      }
    }
  }

  /**
   * After write_all_input_files the record holds the old paths plus the six input paths;
   * input k holds document k, and every other path keeps what it held.
   */
  lemma WithInputsSpec(w: map<string, Document>, c: Config, dir: string)
    ensures var r := WithInputs(w, c, dir);
      && r.Keys == w.Keys + InputPaths(dir)
      && (forall k :: 0 <= k < |InputNames| ==> r[Join(dir, InputNames[k])] == DocumentFor(c, k))
      && (forall p :: p in w && p !in InputPaths(dir) ==> r[p] == w[p])
  {
    var docs := InputFiles(c);
    WrittenPrefix(w, docs, dir, |docs|);
    assert docs[..|docs|] == docs;
    assert PathsBefore(dir, |docs|) == InputPaths(dir);
  }

  lemma InputPathMember(dir: string, i: nat)
    requires i < |InputNames|
    ensures Join(dir, InputNames[i]) in InputPaths(dir)
  {
  }

  lemma ManifestStep(dir: string, resolve: string -> string, i: nat)
    requires i < |InputNames|
    ensures InputManifest(dir, resolve)[..i + 1] == InputManifest(dir, resolve)[..i]
      + [Artifact("Input file: " + InputNames[i], resolve(Join(dir, InputNames[i])))]
  {
  }

  lemma InputPathsDistinct(dir: string, j: int, k: int)
    requires 0 <= j < |InputNames| && 0 <= k < |InputNames| && j != k
    ensures Join(dir, InputNames[j]) != Join(dir, InputNames[k])
  {
    if Join(dir, InputNames[j]) == Join(dir, InputNames[k]) {
      JoinInjective(dir, InputNames[j], InputNames[k]);
    }
  }

  /**
   * write_all_input_files: writes the six documents into `dir`, in order, and returns the
   * manifest of what it wrote. Documents already written elsewhere are left alone.
   */
  method WriteAllInputFiles(c: Config, dir: string, m: Machine, resolve: string -> string)
    returns (artifacts: seq<Artifact>)
    modifies m
    ensures artifacts == InputManifest(dir, resolve)
    ensures m.files == old(m.files) + InputPaths(dir)
    ensures forall k :: 0 <= k < |InputNames| ==>
      Join(dir, InputNames[k]) in m.written && m.written[Join(dir, InputNames[k])] == InputFiles(c)[k].1
    ensures forall p :: p in old(m.written) && p !in InputPaths(dir) ==>
      p in m.written && m.written[p] == old(m.written)[p]
    ensures m.written.Keys == old(m.written).Keys + InputPaths(dir)
    ensures m.written == WithInputs(old(m.written), c, dir)
    ensures m.spawned == old(m.spawned)
  {
    artifacts := WriteDocuments(InputFiles(c), dir, m, resolve);
  }

  /** The loop of write_all_input_files, over documents named as `InputNames`. */
  method WriteDocuments(docs: seq<(string, Document)>, dir: string, m: Machine,
                        resolve: string -> string) returns (artifacts: seq<Artifact>)
    requires |docs| == |InputNames| && forall k :: 0 <= k < |docs| ==> docs[k].0 == InputNames[k]
    modifies m
    ensures artifacts == InputManifest(dir, resolve)
    ensures m.files == old(m.files) + InputPaths(dir)
    ensures forall k :: 0 <= k < |InputNames| ==>
      Join(dir, InputNames[k]) in m.written && m.written[Join(dir, InputNames[k])] == docs[k].1
    ensures forall p :: p in old(m.written) && p !in InputPaths(dir) ==>
      p in m.written && m.written[p] == old(m.written)[p]
    ensures m.written.Keys == old(m.written).Keys + InputPaths(dir)
    ensures m.written == WithDocuments(old(m.written), docs, dir)
    ensures m.spawned == old(m.spawned)
  {
    artifacts := [];
    var i := 0;
    while i < |docs|
      invariant 0 <= i <= |docs|
      invariant artifacts == InputManifest(dir, resolve)[..i]
      invariant m.files == old(m.files) + PathsBefore(dir, i)
      invariant m.written == WithDocuments(old(m.written), docs[..i], dir)
      invariant m.spawned == old(m.spawned)
    {
      var (name, content) := docs[i];
      var path := Join(dir, name);
      assert docs[..i + 1][..i] == docs[..i] && docs[..i + 1][i] == docs[i];
      PathsStep(dir, i);
      ManifestStep(dir, resolve, i);
      InputPathMember(dir, i);
      m.WriteText(path, content);
      artifacts := artifacts + [Artifact("Input file: " + name, resolve(path))];
      i := i + 1;
    }
    assert PathsBefore(dir, |docs|) == InputPaths(dir);
    assert docs[..|docs|] == docs;
    WrittenPrefix(old(m.written), docs, dir, |docs|);
  }

  // ---------------------------------------------------------------------------------
  // Properties of the documents

  /** tleap.in loads the configured force field, water model and structure, and saves the
   *  topology, coordinates and solvated structure under their fixed names. */
  lemma TleapUsesConfiguration(c: Config)
    ensures var d := TleapInput(c);
      && d.LeapScript? && |d.commands| == 10
      && d.commands[0] == Source(c.ffSource) && d.commands[1] == Source(c.water.source)
      && d.commands[2] == LoadPdb("mol", c.pdbFile)
      && d.commands[4] == SolvateBox("mol", c.water.box, c.boxBuffer)
      && d.commands[7] == SaveAmberParm("mol", "system.prmtop", "system.inpcrd")
      && d.commands[8] == SavePdb("mol", "system.pdb")
      && d.commands[9] == Quit
  {
  }

  /** The heating ramp runs the thermostat target from tempi to temp0 over the whole stage. */
  lemma HeatingRampSpansStage(c: Config)
    ensures var d := HeatingInput(c);
      && d.MdInput? && |d.weights| == 2 && d.weights[1] == WeightsEnd
      && d.weights[0].TemperatureRamp?
      && nstlim in d.cntrl && tempi in d.cntrl && temp0 in d.cntrl && nmropt in d.cntrl
      && d.weights[0].istep1 == 0
      && Int(d.weights[0].istep2) == d.cntrl[nstlim]
      && Num(d.weights[0].value1) == d.cntrl[tempi] == Num(0.0)
      && Num(d.weights[0].value2) == d.cntrl[temp0] == Num(c.temperature)
      && d.cntrl[nmropt] == Int(1)
  {
  }

  /** The production stage runs int(sim_time_ns * 500000) steps. */
  lemma ProductionRunsConfiguredSteps(c: Config)
    ensures var d := ProductionInput(c);
      && d.MdInput? && nstlim in d.cntrl && dt in d.cntrl
      && d.cntrl[nstlim] == Int(ProductionSteps(c.simTimeNs))
      && d.cntrl[dt] == Num(0.002)
  {
  }

  /**
   * With a 0.002 ps step, the production run covers the requested time rounded down to a
   * whole step: never more, and less by under one step.
   */
  lemma ProductionCoversRequestedTime(t: real)
    requires t >= 0.0
    ensures var n := ProductionSteps(t) as real;
      n * 0.002 <= t * 1000.0 < (n + 1.0) * 0.002
  {
    var n := ProductionSteps(t) as real;
    assert n <= t * 500000.0 < n + 1.0;
    assert n * 0.002 <= t * 500000.0 * 0.002;
    assert t * 500000.0 * 0.002 < (n + 1.0) * 0.002;
  }

  /** int() truncates toward zero, so very short times give no steps and negative times
   *  round up. */
  lemma ProductionStepsTruncate()
    ensures ProductionSteps(10.0) == 5000000
    ensures ProductionSteps(0.0000019) == 0
    ensures ProductionSteps(0.0000021) == 1
    ensures ProductionSteps(-0.0000019) == 0
    ensures ProductionSteps(-0.0000021) == -1
  {
    assert 0.0000019 * 500000.0 == 0.95;
    assert 0.0000021 * 500000.0 == 1.05;
  }

  /** The fixed stage lengths: 50 ps of heating and 500 ps of equilibration. */
  lemma FixedStageLengths(c: Config)
    ensures var h, e := HeatingInput(c), EquilibrationInput(c);
      && h.MdInput? && e.MdInput? && nstlim in h.cntrl && nstlim in e.cntrl
      && h.cntrl[nstlim] == Int(25000) && e.cntrl[nstlim] == Int(250000)
      && 25000 as real * 0.002 == 50.0 && 250000 as real * 0.002 == 500.0
  {
  }

  /**
   * Restraints loosen stage by stage: heavy atoms held at 10 during the first
   * minimization, C-alpha atoms at 5 while heating and 2 in equilibration.
   */
  lemma RestraintsLoosen(c: Config)
    ensures var m1, h, e := MinimizationInput(true), HeatingInput(c), EquilibrationInput(c);
      && m1.MdInput? && h.MdInput? && e.MdInput?
      && m1.cntrl[ntr] == h.cntrl[ntr] == e.cntrl[ntr] == Int(1)
      && m1.cntrl[restraint_wt] == Num(10.0) && m1.cntrl[restraintmask] == Text("!@H=")
      && h.cntrl[restraint_wt] == Num(5.0) && h.cntrl[restraintmask] == Text("@CA")
      && e.cntrl[restraint_wt] == Num(2.0) && e.cntrl[restraintmask] == Text("@CA")
  {
  }

  /** The second minimization and production run free: no restraint flag, weight or mask. */
  lemma FreeStagesUnrestrained(c: Config)
    ensures var m2, p := MinimizationInput(false), ProductionInput(c);
      && m2.MdInput? && p.MdInput?
      && m2.cntrl[ntr] == p.cntrl[ntr] == Int(0)
      && restraint_wt !in m2.cntrl && restraint_wt !in p.cntrl
      && restraintmask !in m2.cntrl && restraintmask !in p.cntrl
  {
  }

  /** Dynamics with a 2 fs step, SHAKE on bonds to hydrogen and a Langevin thermostat. */
  predicate LangevinDynamics(d: Document, temperature: real) {
    && d.MdInput?
    && imin in d.cntrl && d.cntrl[imin] == Int(0)
    && dt in d.cntrl && d.cntrl[dt] == Num(0.002)
    && ntc in d.cntrl && d.cntrl[ntc] == Int(2)
    && ntf in d.cntrl && d.cntrl[ntf] == Int(2)
    && ntt in d.cntrl && d.cntrl[ntt] == Int(3)
    && gamma_ln in d.cntrl && d.cntrl[gamma_ln] == Num(2.0)
    && temp0 in d.cntrl && d.cntrl[temp0] == Num(temperature)
  }

  /** A restart (coordinates and velocities read back) at constant pressure of 1 bar. */
  predicate NptRestart(d: Document) {
    && d.MdInput?
    && irest in d.cntrl && d.cntrl[irest] == Int(1)
    && ntx in d.cntrl && d.cntrl[ntx] == Int(5)
    && ntb in d.cntrl && d.cntrl[ntb] == Int(2)
    && ntp in d.cntrl && d.cntrl[ntp] == Int(1)
    && pres0 in d.cntrl && d.cntrl[pres0] == Num(1.0)
  }

  lemma HeatingDynamics(c: Config)
    ensures LangevinDynamics(HeatingInput(c), c.temperature)
  {
  }

  /** Heating starts fresh (no restart, velocities from tempi) at constant volume. */
  lemma HeatingIsFreshNvt(c: Config)
    ensures var d := HeatingInput(c);
      && d.MdInput? && d.cntrl[irest] == Int(0) && d.cntrl[ntx] == Int(1)
      && d.cntrl[ntb] == Int(1) && ntp !in d.cntrl
  {
  }

  lemma EquilibrationDynamics(c: Config)
    ensures LangevinDynamics(EquilibrationInput(c), c.temperature)
  {
  }

  lemma EquilibrationIsNptRestart(c: Config)
    ensures NptRestart(EquilibrationInput(c))
  {
  }

  lemma ProductionDynamics(c: Config)
    ensures LangevinDynamics(ProductionInput(c), c.temperature)
  {
  }

  /** Production restarts from equilibration at 1 bar and writes a NetCDF trajectory. */
  lemma ProductionIsNptRestart(c: Config)
    ensures NptRestart(ProductionInput(c))
    ensures ProductionInput(c).cntrl[ioutfm] == Int(1)
  {
  }

  /** Minimization: 5000 cycles, the first 2500 steepest descent, in a periodic box. */
  lemma MinimizationSettings(withRestraints: bool)
    ensures var d := MinimizationInput(withRestraints);
      && d.MdInput? && d.weights == []
      && d.cntrl[imin] == Int(1) && d.cntrl[maxcyc] == Int(5000)
      && d.cntrl[ncyc] == Int(2500) && d.cntrl[ntb] == Int(1)
      && (d.cntrl[ntr] == Int(1) <==> withRestraints)
  {
  }

  /** The manifest names each written file, at the path it was written to, in order. */
  lemma ManifestListsWrittenFiles(dir: string, resolve: string -> string)
    ensures var m := InputManifest(dir, resolve);
      forall k :: 0 <= k < |m| ==>
        m[k].description == "Input file: " + InputNames[k]
        && m[k].path == resolve(Join(dir, InputNames[k]))
        && Join(dir, InputNames[k]) in InputPaths(dir)
  {
  }

  /** The six input files are six different paths. */
  lemma SixDistinctInputs(dir: string)
    ensures |InputPaths(dir)| == 6
  {
    var ps := seq(6, k requires 0 <= k < 6 => Join(dir, InputNames[k]));
    forall j, k | 0 <= j < 6 && 0 <= k < 6 && j != k ensures ps[j] != ps[k] {
      InputPathsDistinct(dir, j, k);
    }
    assert InputPaths(dir) == {ps[0], ps[1], ps[2], ps[3], ps[4], ps[5]};
  }
}
