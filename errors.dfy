/** The exceptions the driver raises, grouped by their Python exception class. */
module Errors {
  import opened Wrappers

  /** The six pipeline steps that run an external program, as named in error messages. */
  datatype StepName =
    | Tleap
    | MinimizationRestrained
    | MinimizationFree
    | Heating
    | Equilibration
    | Production

  datatype Error =
    // FileNotFoundError
    | PdbNotFound(path: string)
    // ValueError; `supported` is the key set the message lists (script copy only)
    | UnknownForceField(name: string, supported: Option<set<string>>)
    | UnknownWaterModel(name: string, supported: Option<set<string>>)
    | NonPositiveSimTime
    | NonPositiveTemperature
    | NonPositiveBoxBuffer
    | NegativeSaltConcentration
    // RuntimeError
    | AmberEnvironmentMissing(path: string)
    | SourcingFailed
    | NoEngineFound
    | StepFailed(step: StepName)
    | StepOutputMissing(step: StepName, path: string)
    | TleapOutputsMissing

  datatype ErrorKind = FileNotFoundError | ValueError | RuntimeError

  /** The Python exception class each error is raised as. */
  function Kind(e: Error): ErrorKind {
    match e
    case PdbNotFound(_) => FileNotFoundError
    case UnknownForceField(_, _) => ValueError
    case UnknownWaterModel(_, _) => ValueError
    case NonPositiveSimTime => ValueError
    case NonPositiveTemperature => ValueError
    case NonPositiveBoxBuffer => ValueError
    case NegativeSaltConcentration => ValueError
    case _ => RuntimeError
  }
}
