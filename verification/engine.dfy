/**
 * The physics engine the bindings wrap.  Its value types are given the shape
 * the bindings observe; every engine operation whose code is not part of the
 * bindings is a field of a record of functions, so that every property proved
 * here holds for whatever the engine does.
 */
module Engine {
  import opened Wrappers

  /** A Rust `usize` on a 64-bit target. */
  type Usize = n: nat | n < 0x1_0000_0000_0000_0000

  /** The engine's error type; only its `Display` text is observed. */
  datatype SPDCError = SPDCError(display: string)

  /** Apodization window of a periodically poled crystal (lengths in metres). */
  datatype Apodization =
    | Off
    | Gaussian(fwhm: real)
    | Bartlett(p: real)
    | Blackman(p: real)
    | Connes(p: real)
    | Cosine(p: real)
    | Hamming(p: real)
    | Welch(p: real)
    | Interpolate(points: seq<real>)
  {
    /** The six windows that carry one dimensionless scalar. */
    predicate IsWindowed() {
      Bartlett? || Blackman? || Connes? || Cosine? || Hamming? || Welch?
    }
  }

  /** The apodization operations the bindings call but do not define. */
  datatype ApodizationLibrary = ApodizationLibrary(
    // `Apodization::kind()`
    kindName: Apodization -> string,
    // serde deserialisation of `{"kind": kind, "parameter": p}`; errors carry `to_string()`
    deserialize: (string, real) -> Result<Apodization, string>,
    // `Apodization::default()`
    defaultApodization: Apodization
  )

  /** Periodic poling: absent, or a period in metres with an apodization window. */
  datatype PeriodicPoling = Off | On(period: real, apodization: Apodization)

  /** Numerical integration schemes. */
  datatype Integrator =
    | Simpson(divs: Usize)
    | AdaptiveSimpson(tolerance: real, maxDepth: Usize)
    | GaussKonrod(tolerance: real, maxDepth: Usize)
    | GaussLegendre(degree: Usize)
    | ClenshawCurtis(tolerance: real)

  // ---------------------------------------------------------------- spaces

  /** One axis of a regular grid: bounds in internal units and a point count. */
  datatype Axis = Axis(start: real, stop: real, count: Usize)

  datatype Steps2D = Steps2D(x: Axis, y: Axis)

  /** A grid of (signal, idler) angular frequencies, rad/s. */
  datatype FrequencySpace = FrequencySpace(steps: Steps2D)

  /** A grid of (signal, idler) vacuum wavelengths, metres. */
  datatype WavelengthSpace = WavelengthSpace(steps: Steps2D)

  /** A grid over half the sum and half the difference of the two frequencies, rad/s. */
  datatype SumDiffFrequencySpace = SumDiffFrequencySpace(steps: Steps2D)

  datatype SignalIdlerFrequencyArray = SignalIdlerFrequencyArray(frequencies: seq<real>)

  datatype SignalIdlerWavelengthArray = SignalIdlerWavelengthArray(wavelengths: seq<real>)

  /** A (signal, idler) pair of angular frequencies. */
  type FrequencyPair = (real, real)

  /** The space operations the bindings call but do not define. */
  datatype SpaceLibrary = SpaceLibrary(
    // the grid-to-grid `From` conversions
    wavelengthToFrequency: WavelengthSpace -> FrequencySpace,
    sumDiffToFrequency: SumDiffFrequencySpace -> FrequencySpace,
    frequencyToWavelength: FrequencySpace -> WavelengthSpace,
    sumDiffToWavelength: SumDiffFrequencySpace -> WavelengthSpace,
    frequencyToSumDiff: FrequencySpace -> SumDiffFrequencySpace,
    wavelengthToSumDiff: WavelengthSpace -> SumDiffFrequencySpace,
    // `as_frequency_space`
    wavelengthAsFrequencySpace: WavelengthSpace -> FrequencySpace,
    sumDiffAsFrequencySpace: SumDiffFrequencySpace -> FrequencySpace,
    // `set_resolution`, as the value the space holds afterwards
    frequencyWithResolution: (FrequencySpace, Usize) -> FrequencySpace,
    wavelengthWithResolution: (WavelengthSpace, Usize) -> WavelengthSpace,
    sumDiffWithResolution: (SumDiffFrequencySpace, Usize) -> SumDiffFrequencySpace,
    // `into_signal_idler_iterator`, as the whole sequence each iterator yields
    frequencyPairs: FrequencySpace -> seq<FrequencyPair>,
    wavelengthPairs: WavelengthSpace -> seq<FrequencyPair>,
    sumDiffPairs: SumDiffFrequencySpace -> seq<FrequencyPair>,
    frequencyArrayPairs: SignalIdlerFrequencyArray -> seq<FrequencyPair>,
    wavelengthArrayPairs: SignalIdlerWavelengthArray -> seq<FrequencyPair>
  )

  // ------------------------------------------------------------ the setup

  /** A crystal or phasematching type, observed through its `Display` name. */
  datatype CrystalKind = CrystalKind(name: string)

  datatype PMType = PMType(name: string)

  /** Angles in radians, length in metres, temperature in kelvin. */
  datatype CrystalSetup = CrystalSetup(
    crystal: CrystalKind,
    pmType: PMType,
    phi: real,
    theta: real,
    length: real,
    temperature: real,
    counterPropagation: bool
  )

  /**
   * A beam: angular frequency (rad/s, from which the vacuum wavelength
   * follows), azimuth and internal polar angle (rad), and waist (m, m).
   */
  datatype Beam = Beam(frequency: real, phi: real, thetaInternal: real, waist: (real, real))

  /** The engine's `SPDC`, in SI units. */
  datatype SpdcState = SpdcState(
    crystalSetup: CrystalSetup,
    pump: Beam,
    signal: Beam,
    idler: Beam,
    pumpBandwidth: real,
    pumpAveragePower: real,
    pumpSpectrumThreshold: real,
    signalWaistPosition: real,
    idlerWaistPosition: real,
    pp: PeriodicPoling,
    deff: real
  )

  /** The engine's unvalidated configuration record, kept abstract. */
  datatype SpdcConfig = SpdcConfig(settings: map<string, string>)

  /** The setup operations the bindings call but do not define. */
  datatype SpdcLibrary = SpdcLibrary(
    defaultSpdc: SpdcState,
    // serde into `SPDC`; errors carry `to_string()`
    spdcFromYaml: string -> Result<SpdcState, string>,
    spdcFromJson: string -> Result<SpdcState, string>,
    // serde into `SPDCConfig`, and the validating `try_into`
    configFromYaml: string -> Result<SpdcConfig, string>,
    configFromJson: string -> Result<SpdcConfig, string>,
    validate: SpdcConfig -> Result<SpdcState, SPDCError>,
    // `FromStr` for the crystal and phasematching enums
    parseCrystal: string -> Result<CrystalKind, SPDCError>,
    parsePmType: string -> Result<PMType, SPDCError>,
    // refraction at the crystal face
    thetaExternal: (Beam, CrystalSetup) -> real,
    withThetaExternal: (Beam, real, CrystalSetup) -> Beam,
    // periodic poling
    withPeriod: (PeriodicPoling, real) -> PeriodicPoling,
    withApodization: (PeriodicPoling, Apodization) -> PeriodicPoling,
    apodizationOf: PeriodicPoling -> Apodization,
    apodizations: ApodizationLibrary,
    // optimisers
    tryAsOptimum: SpdcState -> Result<SpdcState, SPDCError>,
    withOptimumIdler: SpdcState -> Result<SpdcState, SPDCError>,
    withOptimumCrystalTheta: SpdcState -> SpdcState,
    withOptimumPeriodicPoling: SpdcState -> Result<SpdcState, SPDCError>,
    withSwappedSignalIdler: SpdcState -> SpdcState,
    optimumCrystalTheta: SpdcState -> real,
    optimumRange: (SpdcState, Usize) -> FrequencySpace,
    // physics, in SI units
    deltaK: (SpdcState, real, real) -> (real, real, real),
    countsCoincidences: (SpdcState, FrequencySpace, Integrator) -> real,
    countsSinglesSignal: (SpdcState, FrequencySpace, Integrator) -> real,
    countsSinglesIdler: (SpdcState, FrequencySpace, Integrator) -> real,
    efficiencies: (SpdcState, FrequencySpace, Integrator) -> map<string, real>,
    homVisibility: (SpdcState, FrequencySpace, Integrator) -> (real, real),
    homRateSeries: (SpdcState, seq<real>, FrequencySpace, Integrator) -> seq<real>,
    homTwoSourceVisibilities: (SpdcState, FrequencySpace, Integrator) -> map<string, (real, real)>,
    homTwoSourceRateSeries: (SpdcState, seq<real>, FrequencySpace, Integrator) -> map<string, seq<real>>,
    // `Integrator::default()`
    defaultIntegrator: Integrator,
    spaces: SpaceLibrary
  )

  /**
   * The condition under which an external angle set is the external angle
   * read: reading back the refraction of an angle through a crystal face
   * gives that angle.
   */
  ghost predicate RefractionRoundTrips(lib: SpdcLibrary) {
    forall b, t, c :: lib.thetaExternal(lib.withThetaExternal(b, t, c), c) == t
  }
}
