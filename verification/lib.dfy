/**
 * The older, duplicate host `SPDC` wrapper.  Its accessors carry the same
 * scales as the current wrapper's, without the frequency accessors and the
 * range-taking methods; its YAML/JSON constructors unwrap the parser's result
 * and then validate the configuration, and its apodization accessors are
 * placeholders that panic.
 */
module LegacyWrapper {
  import opened Wrappers
  import opened Host
  import opened Units
  import Engine
  import SpdcErrors

  /**
   * What a host call observes: a value or a Python exception, or a Rust
   * panic, which reaches the host as a `PanicException` with this message.
   */
  datatype Call<T> = Returned(result: PyResult<T>) | Panicked(message: string)

  /** The panic text of `todo!("Apodization not done yet")`. */
  const APODIZATION_TODO: string := "not yet implemented: Apodization not done yet"

  /** The panic text of `unwrap` on a parser error, with the parser's message appended. */
  const UNWRAP_PANIC: string := "called `Result::unwrap()` on an `Err` value: "

  /**
   * Configuration text to a validated setup: malformed text panics, and a
   * configuration the engine rejects raises its error as a ValueError.
   */
  function FromConfig(parsed: Result<Engine.SpdcConfig, string>, validate: Engine.SpdcConfig -> Result<Engine.SpdcState, Engine.SPDCError>): (r: Call<Engine.SpdcState>)
    ensures r.Panicked? <==> parsed.Err?
    ensures r.Panicked? ==> r.message == UNWRAP_PANIC + parsed.error
    ensures parsed.Ok? ==> r == Returned(SpdcErrors.Raise(validate(parsed.value)))
    ensures r.Returned? && r.result.Err? ==> r.result.error.kind == ValueError
  {
    match parsed
    case Err(msg) => Panicked(UNWRAP_PANIC + msg)
    case Ok(config) => Returned(SpdcErrors.Raise(validate(config)))
  }

  class Spdc {
    /** The engine code this object calls into. */
    const lib: Engine.SpdcLibrary
    /** `self.0`, the engine's `SPDC`. */
    var inner: Engine.SpdcState

    /** `SPDC.default()`. */
    constructor Default(lib: Engine.SpdcLibrary)
      ensures this.lib == lib && inner == lib.defaultSpdc
    {
      this.lib := lib;
      inner := lib.defaultSpdc;
    }

    /** `SPDC(state)`: wraps an engine setup. */
    constructor Wrap(lib: Engine.SpdcLibrary, state: Engine.SpdcState)
      ensures this.lib == lib && inner == state
    {
      this.lib := lib;
      inner := state;
    }

    /** `SPDC.from_yaml`: parse (panicking on malformed text), then validate. */
    static method FromYaml(lib: Engine.SpdcLibrary, yaml: string) returns (r: Call<Spdc>)
      ensures r.Panicked? <==> lib.configFromYaml(yaml).Err?
      ensures r.Panicked? ==> r.message == UNWRAP_PANIC + lib.configFromYaml(yaml).error
      ensures r.Returned? ==> (r.result.Ok? <==> lib.validate(lib.configFromYaml(yaml).value).Ok?)
      ensures r.Returned? && r.result.Ok? ==>
                fresh(r.result.value) && r.result.value.lib == lib
                && r.result.value.inner == lib.validate(lib.configFromYaml(yaml).value).value
      ensures r.Returned? && r.result.Err? ==>
                r.result.error == SpdcErrors.IntoPyErr(SpdcErrors.FromEngine(lib.validate(lib.configFromYaml(yaml).value).error))
    {
      var c := FromConfig(lib.configFromYaml(yaml), lib.validate);
      if c.Panicked? {
        return Panicked(c.message);
      } else if c.result.Err? {
        return Returned(Err(c.result.error));
      }
      var s := new Spdc.Wrap(lib, c.result.value);
      r := Returned(Ok(s));
    }

    /** `SPDC.from_json`: as `FromYaml`, for JSON text. */
    static method FromJson(lib: Engine.SpdcLibrary, json: string) returns (r: Call<Spdc>)
      ensures r.Panicked? <==> lib.configFromJson(json).Err?
      ensures r.Panicked? ==> r.message == UNWRAP_PANIC + lib.configFromJson(json).error
      ensures r.Returned? ==> (r.result.Ok? <==> lib.validate(lib.configFromJson(json).value).Ok?)
      ensures r.Returned? && r.result.Ok? ==>
                fresh(r.result.value) && r.result.value.lib == lib
                && r.result.value.inner == lib.validate(lib.configFromJson(json).value).value
      ensures r.Returned? && r.result.Err? ==>
                r.result.error == SpdcErrors.IntoPyErr(SpdcErrors.FromEngine(lib.validate(lib.configFromJson(json).value).error))
    {
      var c := FromConfig(lib.configFromJson(json), lib.validate);
      if c.Panicked? {
        return Panicked(c.message);
      } else if c.result.Err? {
        return Returned(Err(c.result.error));
      }
      var s := new Spdc.Wrap(lib, c.result.value);
      r := Returned(Ok(s));
    }

    // ------------------------------------------------------------ crystal

    function CrystalKind(): (r: string)
      reads this
      ensures r == inner.crystalSetup.crystal.name
    {
      inner.crystalSetup.crystal.name
    }

    /** A name the engine cannot parse raises its error and leaves the crystal as it was. */
    method SetCrystalKind(value: string) returns (r: PyResult<()>)
      modifies this
      ensures r.Ok? <==> lib.parseCrystal(value).Ok?
      ensures r.Ok? ==> inner == old(inner).(crystalSetup := old(inner).crystalSetup.(crystal := lib.parseCrystal(value).value))
      ensures r.Ok? ==> CrystalKind() == lib.parseCrystal(value).value.name
      ensures r.Err? ==> inner == old(inner) && r.error == SpdcErrors.IntoPyErr(SpdcErrors.FromEngine(lib.parseCrystal(value).error))
    {
      match lib.parseCrystal(value)
      case Err(e) => r := Err(SpdcErrors.IntoPyErr(SpdcErrors.FromEngine(e)));
      case Ok(crystal) =>
        inner := inner.(crystalSetup := inner.crystalSetup.(crystal := crystal));
        r := Ok(());
    }

    function CrystalPmType(): (r: string)
      reads this
      ensures r == inner.crystalSetup.pmType.name
    {
      inner.crystalSetup.pmType.name
    }

    method SetCrystalPmType(value: string) returns (r: PyResult<()>)
      modifies this
      ensures r.Ok? <==> lib.parsePmType(value).Ok?
      ensures r.Ok? ==> inner == old(inner).(crystalSetup := old(inner).crystalSetup.(pmType := lib.parsePmType(value).value))
      ensures r.Ok? ==> CrystalPmType() == lib.parsePmType(value).value.name
      ensures r.Err? ==> inner == old(inner) && r.error == SpdcErrors.IntoPyErr(SpdcErrors.FromEngine(lib.parsePmType(value).error))
    {
      match lib.parsePmType(value)
      case Err(e) => r := Err(SpdcErrors.IntoPyErr(SpdcErrors.FromEngine(e)));
      case Ok(pmType) =>
        inner := inner.(crystalSetup := inner.crystalSetup.(pmType := pmType));
        r := Ok(());
    }

    function CrystalPhiDeg(): (r: real)
      reads this
      ensures r * DEG == inner.crystalSetup.phi
    {
      inner.crystalSetup.phi / DEG
    }

    method SetCrystalPhiDeg(value: real)
      modifies this
      ensures inner == old(inner).(crystalSetup := old(inner).crystalSetup.(phi := value * DEG))
      ensures CrystalPhiDeg() == value
      ensures value == old(CrystalPhiDeg()) ==> inner == old(inner)
    {
      inner := inner.(crystalSetup := inner.crystalSetup.(phi := value * DEG));
    }

    function CrystalThetaDeg(): (r: real)
      reads this
      ensures r * DEG == inner.crystalSetup.theta
    {
      inner.crystalSetup.theta / DEG
    }

    method SetCrystalThetaDeg(value: real)
      modifies this
      ensures inner == old(inner).(crystalSetup := old(inner).crystalSetup.(theta := value * DEG))
      ensures CrystalThetaDeg() == value
      ensures value == old(CrystalThetaDeg()) ==> inner == old(inner)
    {
      inner := inner.(crystalSetup := inner.crystalSetup.(theta := value * DEG));
    }

    function CrystalLengthUm(): (r: real)
      reads this
      ensures r * M * MICRO == inner.crystalSetup.length
    {
      inner.crystalSetup.length / M / MICRO
    }

    method SetCrystalLengthUm(value: real)
      modifies this
      ensures inner == old(inner).(crystalSetup := old(inner).crystalSetup.(length := value * M * MICRO))
      ensures CrystalLengthUm() == value
      ensures value == old(CrystalLengthUm()) ==> inner == old(inner)
    {
      inner := inner.(crystalSetup := inner.crystalSetup.(length := value * M * MICRO));
    }

    function CrystalTemperatureC(): (r: real)
      reads this
      ensures CelsiusToKelvin(r) == inner.crystalSetup.temperature
    {
      KelvinToCelsius(inner.crystalSetup.temperature)
    }

    /** Temperature crosses through the Celsius/Kelvin pair, not a scale. */
    method SetCrystalTemperatureC(value: real)
      modifies this
      ensures inner == old(inner).(crystalSetup := old(inner).crystalSetup.(temperature := CelsiusToKelvin(value)))
      ensures CrystalTemperatureC() == value
      ensures value == old(CrystalTemperatureC()) ==> inner == old(inner)
    {
      inner := inner.(crystalSetup := inner.crystalSetup.(temperature := CelsiusToKelvin(value)));
      TemperatureRoundTrip(value, inner.crystalSetup.temperature);
    }

    function CounterPropagation(): (r: bool)
      reads this
      ensures r == inner.crystalSetup.counterPropagation
    {
      inner.crystalSetup.counterPropagation
    }

    method SetCounterPropagation(value: bool)
      modifies this
      ensures inner == old(inner).(crystalSetup := old(inner).crystalSetup.(counterPropagation := value))
      ensures CounterPropagation() == value
      ensures value == old(CounterPropagation()) ==> inner == old(inner)
    {
      inner := inner.(crystalSetup := inner.crystalSetup.(counterPropagation := value));
    }

    // ------------------------------------------------------------ pump

    function PumpWavelengthNm(): (r: real)
      reads this
      ensures r * NANO * M == Reciprocal2PiC(inner.pump.frequency)
    {
      Reciprocal2PiC(inner.pump.frequency) / NANO / M
    }

    /** The beam keeps one quantity: setting the wavelength also sets the frequency. */
    method SetPumpWavelengthNm(value: real)
      modifies this
      ensures inner == old(inner).(pump := old(inner).pump.(frequency := Reciprocal2PiC(value * NANO * M)))
      ensures PumpWavelengthNm() == value
      ensures value == old(PumpWavelengthNm()) ==> inner == old(inner)
    {
      Reciprocal2PiCInvolution(inner.pump.frequency);
      inner := inner.(pump := inner.pump.(frequency := Reciprocal2PiC(value * NANO * M)));
      Reciprocal2PiCInvolution(value * NANO * M);
    }

    function PumpWaistNm(): (r: (real, real))
      reads this
      ensures r.0 * NANO * M == inner.pump.waist.0 && r.1 * NANO * M == inner.pump.waist.1
    {
      (inner.pump.waist.0 / NANO / M, inner.pump.waist.1 / NANO / M)
    }

    /** Both components are scaled independently by the getter's factor. */
    method SetPumpWaistNm(value: (real, real))
      modifies this
      ensures inner == old(inner).(pump := old(inner).pump.(waist := (value.0 * NANO * M, value.1 * NANO * M)))
      ensures PumpWaistNm() == value
      ensures value == old(PumpWaistNm()) ==> inner == old(inner)
    {
      inner := inner.(pump := inner.pump.(waist := (value.0 * NANO * M, value.1 * NANO * M)));
    }

    function PumpBandwidthNm(): (r: real)
      reads this
      ensures r * NANO * M == inner.pumpBandwidth
    {
      inner.pumpBandwidth / NANO / M
    }

    method SetPumpBandwidthNm(value: real)
      modifies this
      ensures inner == old(inner).(pumpBandwidth := value * NANO * M)
      ensures PumpBandwidthNm() == value
      ensures value == old(PumpBandwidthNm()) ==> inner == old(inner)
    {
      inner := inner.(pumpBandwidth := value * NANO * M);
    }

    /** Scaled by `MEGA * W` on both sides, although the name says milliwatts. */
    function PumpAveragePowerMw(): (r: real)
      reads this
      ensures r * MEGA * W == inner.pumpAveragePower
    {
      inner.pumpAveragePower / MEGA / W
    }

    method SetPumpAveragePowerMw(value: real)
      modifies this
      ensures inner == old(inner).(pumpAveragePower := value * MEGA * W)
      ensures PumpAveragePowerMw() == value
      ensures value == old(PumpAveragePowerMw()) ==> inner == old(inner)
    {
      inner := inner.(pumpAveragePower := value * MEGA * W);
    }

    function PumpSpectrumThreshold(): (r: real)
      reads this
      ensures r == inner.pumpSpectrumThreshold
    {
      inner.pumpSpectrumThreshold
    }

    method SetPumpSpectrumThreshold(value: real)
      modifies this
      ensures inner == old(inner).(pumpSpectrumThreshold := value)
      ensures PumpSpectrumThreshold() == value
      ensures value == old(PumpSpectrumThreshold()) ==> inner == old(inner)
    {
      inner := inner.(pumpSpectrumThreshold := value);
    }

    // ------------------------------------------------------------ signal

    function SignalWavelengthNm(): (r: real)
      reads this
      ensures r * NANO * M == Reciprocal2PiC(inner.signal.frequency)
    {
      Reciprocal2PiC(inner.signal.frequency) / NANO / M
    }

    method SetSignalWavelengthNm(value: real)
      modifies this
      ensures inner == old(inner).(signal := old(inner).signal.(frequency := Reciprocal2PiC(value * NANO * M)))
      ensures SignalWavelengthNm() == value
      ensures value == old(SignalWavelengthNm()) ==> inner == old(inner)
    {
      Reciprocal2PiCInvolution(inner.signal.frequency);
      inner := inner.(signal := inner.signal.(frequency := Reciprocal2PiC(value * NANO * M)));
      Reciprocal2PiCInvolution(value * NANO * M);
    }

    function SignalPhiDeg(): (r: real)
      reads this
      ensures r * DEG == inner.signal.phi
    {
      inner.signal.phi / DEG
    }

    method SetSignalPhiDeg(value: real)
      modifies this
      ensures inner == old(inner).(signal := old(inner).signal.(phi := value * DEG))
      ensures SignalPhiDeg() == value
      ensures value == old(SignalPhiDeg()) ==> inner == old(inner)
    {
      inner := inner.(signal := inner.signal.(phi := value * DEG));
    }

    function SignalThetaDeg(): (r: real)
      reads this
      ensures r * DEG == inner.signal.thetaInternal
    {
      inner.signal.thetaInternal / DEG
    }

    method SetSignalThetaDeg(value: real)
      modifies this
      ensures inner == old(inner).(signal := old(inner).signal.(thetaInternal := value * DEG))
      ensures SignalThetaDeg() == value
      ensures value == old(SignalThetaDeg()) ==> inner == old(inner)
    {
      inner := inner.(signal := inner.signal.(thetaInternal := value * DEG));
    }

    function SignalThetaExternalDeg(): (r: real)
      reads this
      ensures r * DEG == lib.thetaExternal(inner.signal, inner.crystalSetup)
    {
      lib.thetaExternal(inner.signal, inner.crystalSetup) / DEG
    }

    /** The engine refracts the angle through the crystal face; only the signal beam changes. */
    method SetSignalThetaExternalDeg(value: real)
      modifies this
      ensures inner == old(inner).(signal := lib.withThetaExternal(old(inner).signal, value * DEG, old(inner).crystalSetup))
      ensures Engine.RefractionRoundTrips(lib) ==> SignalThetaExternalDeg() == value
    {
      inner := inner.(signal := lib.withThetaExternal(inner.signal, value * DEG, inner.crystalSetup));
    }

    function SignalWaistUm(): (r: (real, real))
      reads this
      ensures r.0 * MICRO * M == inner.signal.waist.0 && r.1 * MICRO * M == inner.signal.waist.1
    {
      (inner.signal.waist.0 / MICRO / M, inner.signal.waist.1 / MICRO / M)
    }

    method SetSignalWaistUm(value: (real, real))
      modifies this
      ensures inner == old(inner).(signal := old(inner).signal.(waist := (value.0 * MICRO * M, value.1 * MICRO * M)))
      ensures SignalWaistUm() == value
      ensures value == old(SignalWaistUm()) ==> inner == old(inner)
    {
      inner := inner.(signal := inner.signal.(waist := (value.0 * MICRO * M, value.1 * MICRO * M)));
    }

    function SignalWaistPositionUm(): (r: real)
      reads this
      ensures r * MICRO * M == inner.signalWaistPosition
    {
      inner.signalWaistPosition / MICRO / M
    }

    method SetSignalWaistPositionUm(value: real)
      modifies this
      ensures inner == old(inner).(signalWaistPosition := value * MICRO * M)
      ensures SignalWaistPositionUm() == value
      ensures value == old(SignalWaistPositionUm()) ==> inner == old(inner)
    {
      inner := inner.(signalWaistPosition := value * MICRO * M);
    }

    // ------------------------------------------------------------ idler

    function IdlerWavelengthNm(): (r: real)
      reads this
      ensures r * NANO * M == Reciprocal2PiC(inner.idler.frequency)
    {
      Reciprocal2PiC(inner.idler.frequency) / NANO / M
    }

    method SetIdlerWavelengthNm(value: real)
      modifies this
      ensures inner == old(inner).(idler := old(inner).idler.(frequency := Reciprocal2PiC(value * NANO * M)))
      ensures IdlerWavelengthNm() == value
      ensures value == old(IdlerWavelengthNm()) ==> inner == old(inner)
    {
      Reciprocal2PiCInvolution(inner.idler.frequency);
      inner := inner.(idler := inner.idler.(frequency := Reciprocal2PiC(value * NANO * M)));
      Reciprocal2PiCInvolution(value * NANO * M);
    }

    function IdlerPhiDeg(): (r: real)
      reads this
      ensures r * DEG == inner.idler.phi
    {
      inner.idler.phi / DEG
    }

    method SetIdlerPhiDeg(value: real)
      modifies this
      ensures inner == old(inner).(idler := old(inner).idler.(phi := value * DEG))
      ensures IdlerPhiDeg() == value
      ensures value == old(IdlerPhiDeg()) ==> inner == old(inner)
    {
      inner := inner.(idler := inner.idler.(phi := value * DEG));
    }

    function IdlerThetaDeg(): (r: real)
      reads this
      ensures r * DEG == inner.idler.thetaInternal
    {
      inner.idler.thetaInternal / DEG
    }

    method SetIdlerThetaDeg(value: real)
      modifies this
      ensures inner == old(inner).(idler := old(inner).idler.(thetaInternal := value * DEG))
      ensures IdlerThetaDeg() == value
      ensures value == old(IdlerThetaDeg()) ==> inner == old(inner)
    {
      inner := inner.(idler := inner.idler.(thetaInternal := value * DEG));
    }

    function IdlerThetaExternalDeg(): (r: real)
      reads this
      ensures r * DEG == lib.thetaExternal(inner.idler, inner.crystalSetup)
    {
      lib.thetaExternal(inner.idler, inner.crystalSetup) / DEG
    }

    method SetIdlerThetaExternalDeg(value: real)
      modifies this
      ensures inner == old(inner).(idler := lib.withThetaExternal(old(inner).idler, value * DEG, old(inner).crystalSetup))
      ensures Engine.RefractionRoundTrips(lib) ==> IdlerThetaExternalDeg() == value
    {
      inner := inner.(idler := lib.withThetaExternal(inner.idler, value * DEG, inner.crystalSetup));
    }

    function IdlerWaistUm(): (r: (real, real))
      reads this
      ensures r.0 * MICRO * M == inner.idler.waist.0 && r.1 * MICRO * M == inner.idler.waist.1
    {
      (inner.idler.waist.0 / MICRO / M, inner.idler.waist.1 / MICRO / M)
    }

    method SetIdlerWaistUm(value: (real, real))
      modifies this
      ensures inner == old(inner).(idler := old(inner).idler.(waist := (value.0 * MICRO * M, value.1 * MICRO * M)))
      ensures IdlerWaistUm() == value
      ensures value == old(IdlerWaistUm()) ==> inner == old(inner)
    {
      inner := inner.(idler := inner.idler.(waist := (value.0 * MICRO * M, value.1 * MICRO * M)));
    }

    function IdlerWaistPositionUm(): (r: real)
      reads this
      ensures r * MICRO * M == inner.idlerWaistPosition
    {
      inner.idlerWaistPosition / MICRO / M
    }

    method SetIdlerWaistPositionUm(value: real)
      modifies this
      ensures inner == old(inner).(idlerWaistPosition := value * MICRO * M)
      ensures IdlerWaistPositionUm() == value
      ensures value == old(IdlerWaistPositionUm()) ==> inner == old(inner)
    {
      inner := inner.(idlerWaistPosition := value * MICRO * M);
    }

    // ------------------------------------------------------------ periodic poling

    /** `None` exactly when poling is off. */
    function PolingPeriodUm(): (r: Option<real>)
      reads this
      ensures r.None? <==> inner.pp.Off?
      ensures r.Some? ==> r.value * MICRO * M == inner.pp.period
    {
      match inner.pp
      case Off => None
      case On(period, _) => Some(period / MICRO / M)
    }

    /**
     * Switches poling on with no apodization when it was off; otherwise the
     * engine's `with_period` replaces the poling.
     */
    method SetPolingPeriodUm(value: real)
      modifies this
      ensures old(inner).pp.Off? ==>
                inner == old(inner).(pp := Engine.PeriodicPoling.On(value * MICRO * M, Engine.Apodization.Off))
      ensures old(inner).pp.Off? ==> PolingPeriodUm() == Some(value)
      ensures old(inner).pp.On? ==> inner == old(inner).(pp := lib.withPeriod(old(inner).pp, value * MICRO * M))
    {
      match inner.pp {
        case Off =>
          inner := inner.(pp := Engine.PeriodicPoling.On(value * MICRO * M, Engine.Apodization.Off));
        case On(_, _) =>
          inner := inner.(pp := lib.withPeriod(inner.pp, value * MICRO * M));
      }
    }

    /** The `apodization` getter of this wrapper is unimplemented: every read panics. */
    method Apodization() returns (r: Call<()>)
      ensures r == Panicked(APODIZATION_TODO)
    {
      r := Panicked(APODIZATION_TODO);
    }

    /** The setter panics too, whatever it is given, and the setup is left as it was. */
    method SetApodization(value: PyValue) returns (r: Call<()>)
      ensures r == Panicked(APODIZATION_TODO)
    {
      r := Panicked(APODIZATION_TODO);
    }

    // ------------------------------------------------------------ deff

    function DeffPmPerVolt(): (r: real)
      reads this
      ensures r * (PICO * M / V) == inner.deff
    {
      inner.deff / (PICO * M / V)
    }

    method SetDeffPmPerVolt(value: real)
      modifies this
      ensures inner == old(inner).(deff := value * PICO * M / V)
      ensures DeffPmPerVolt() == value
      ensures value == old(DeffPmPerVolt()) ==> inner == old(inner)
    {
      inner := inner.(deff := value * PICO * M / V);
    }

    // ------------------------------------------------------------ optimisers

    /** An engine failure raises and leaves the setup untouched; success replaces it and returns this object. */
    method TryAsOptimum() returns (r: PyResult<Spdc>)
      modifies this
      ensures r.Ok? <==> lib.tryAsOptimum(old(inner)).Ok?
      ensures r.Ok? ==> r.value == this && inner == lib.tryAsOptimum(old(inner)).value
      ensures r.Err? ==> inner == old(inner) && r.error == SpdcErrors.IntoPyErr(SpdcErrors.FromEngine(lib.tryAsOptimum(old(inner)).error))
    {
      match lib.tryAsOptimum(inner)
      case Err(e) => r := Err(SpdcErrors.IntoPyErr(SpdcErrors.FromEngine(e)));
      case Ok(state) =>
        inner := state;
        r := Ok(this);
    }
  }
}
