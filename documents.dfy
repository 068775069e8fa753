/**
 * The six stage documents as structured records: the tleap script as a list of commands,
 * and each engine input (mdin) file as its title, its `&cntrl` namelist and its `&wt`
 * records. Reals stand for the float fields; their text rendering is not modelled.
 */
module Documents {

  /** The `&cntrl` variables the inputs set, under their mdin names. */
  datatype Var =
    | imin | irest | ntx | ntb | ntp | pres0 | taup | cut | ntr | restraint_wt | restraintmask
    | maxcyc | ncyc | nstlim | dt | ntc | ntf | tempi | temp0 | ntt | gamma_ln | ig | ntpr
    | ntwx | ntwr | iwrap | nmropt | ioutfm

  /** A namelist value, or a piece of a title. */
  datatype Value = Text(text: string) | Num(r: real) | Int(i: int)

  /** The tleap commands the preparation script uses. */
  datatype LeapCommand =
    | Source(script: string)
    | LoadPdb(unit: string, path: string)
    | Check(unit: string)
    | SolvateBox(unit: string, box: string, buffer: real)
    | AddIons2(unit: string, ion: string, count: int)
    | SaveAmberParm(unit: string, topology: string, coordinates: string)
    | SavePdb(unit: string, path: string)
    | Quit

  /** `&wt` records: a linear ramp of the thermostat target, and the end marker. */
  datatype WeightChange =
    | TemperatureRamp(istep1: int, istep2: int, value1: real, value2: real)
    | WeightsEnd

  datatype Document =
    | LeapScript(commands: seq<LeapCommand>)
    | MdInput(title: seq<Value>, cntrl: map<Var, Value>, weights: seq<WeightChange>)
}
