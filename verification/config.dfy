/** The configuration records the engine and the control panel exchange. */
module Config {

  /** Which potential to build and its positional parameters. */
  datatype PotentialConfig = PotentialConfig(kind: string, parameters: seq<real>)

  /** Initial Gaussian wavepacket: centre, widths and momentum. */
  datatype Wavepacket = Wavepacket(x0: real, y0: real, sigmaX: real, sigmaY: real, kx: real, ky: real)

  datatype Output = Output(checkpointInterval: real, exportObservables: bool)

  datatype PhysicsConfig = PhysicsConfig(
    nx: int,
    ny: int,
    dt: real,
    omega: real,
    potential: PotentialConfig,
    wavepacket: Wavepacket,
    output: Output)

  /**
   * A value-initialised configuration, `PhysicsConfig()`: the record has no
   * member initialisers, so every number is zero and every string empty.
   */
  const ValueInitialized := PhysicsConfig(
    0, 0, 0.0, 0.0, PotentialConfig("", []),
    Wavepacket(0.0, 0.0, 0.0, 0.0, 0.0, 0.0), Output(0.0, false))
}
