/**
 * The host-facing `SPDC` object: a cell holding the engine's setup in SI
 * units.  Most setters store `value * scale` into one field and their
 * getters return `field / scale`, so a read right after the write returns
 * the value written.  The exceptions: wavelengths pass through `2πc/x`,
 * the temperature through the Celsius/Kelvin shift, external angles through
 * the engine's refraction (read back only under
 * `Engine.RefractionRoundTrips`), crystal kind and PM type through the
 * engine's parsers (which may raise), poling through its constructor or
 * the engine's `with_period`, and apodization through the dictionary codec
 * (which may raise); each member's contract says which applies.
 */
module SpdcWrapper {
  import opened Wrappers
  import opened Host
  import opened Units
  import Engine
  import SpdcErrors
  import ApodizationCodec
  import Spaces
  import Integrators

  /** `Visibility`: an HOM dip as the host sees it. */
  type Visibility = map<string, real>

  /** The host map for one HOM dip: its time in seconds and its visibility. */
  function VisibilityMap(dip: (real, real)): (vis: Visibility)
    ensures vis.Keys == {"time", "visibility"}
    ensures vis["time"] * S == dip.0 && vis["visibility"] == dip.1
  {
    map["time" := dip.0 / S, "visibility" := dip.1]
  }

  class Spdc {
    /** The engine code this object calls into. */
    const lib: Engine.SpdcLibrary
    /** `self.0`, the engine's `SPDC`. */
    var inner: Engine.SpdcState

    /** `SPDC.default()`. */
    constructor Default(lib: Engine.SpdcLibrary)
      ensures this.lib == lib && inner == lib.defaultSpdc
    {
      this.lib := lib;
      inner := lib.defaultSpdc;
    }

    /** `Self(spdc)`: wraps an engine setup. */
    constructor Wrap(lib: Engine.SpdcLibrary, state: Engine.SpdcState)
      ensures this.lib == lib && inner == state
    {
      this.lib := lib;
      inner := state;
    }

    /** `SPDC.from_yaml`: a parse failure is a ValueError carrying the parser's message. */
    static method FromYaml(lib: Engine.SpdcLibrary, yaml: string) returns (r: PyResult<Spdc>)
      ensures r.Ok? <==> lib.spdcFromYaml(yaml).Ok?
      ensures r.Ok? ==> fresh(r.value) && r.value.lib == lib && r.value.inner == lib.spdcFromYaml(yaml).value
      ensures r.Err? ==> r.error == PyErr(ValueError, lib.spdcFromYaml(yaml).error)
    {
      var parsed := lib.spdcFromYaml(yaml);
      if parsed.Err? {
        return Err(PyErr(ValueError, parsed.error));
      }
      var s := new Spdc.Wrap(lib, parsed.value);
      r := Ok(s);
    }

    /** `SPDC.from_json`: as `FromYaml`, for JSON text. */
    static method FromJson(lib: Engine.SpdcLibrary, json: string) returns (r: PyResult<Spdc>)
      ensures r.Ok? <==> lib.spdcFromJson(json).Ok?
      ensures r.Ok? ==> fresh(r.value) && r.value.lib == lib && r.value.inner == lib.spdcFromJson(json).value
      ensures r.Err? ==> r.error == PyErr(ValueError, lib.spdcFromJson(json).error)
    {
      var parsed := lib.spdcFromJson(json);
      if parsed.Err? {
        return Err(PyErr(ValueError, parsed.error));
      }
      var s := new Spdc.Wrap(lib, parsed.value);
      r := Ok(s);
    }

    // ------------------------------------------------------------ crystal

    function CrystalKind(): (r: string)
      reads this
      ensures r == inner.crystalSetup.crystal.name
    {
      inner.crystalSetup.crystal.name
    }

    /** A name the engine cannot parse raises its error and leaves the crystal as it was. */
    method SetCrystalKind(value: string) returns (r: PyResult<()>)
      modifies this
      ensures r.Ok? <==> lib.parseCrystal(value).Ok?
      ensures r.Ok? ==> inner == old(inner).(crystalSetup := old(inner).crystalSetup.(crystal := lib.parseCrystal(value).value))
      ensures r.Ok? ==> CrystalKind() == lib.parseCrystal(value).value.name
      ensures r.Err? ==> inner == old(inner) && r.error == SpdcErrors.IntoPyErr(SpdcErrors.FromEngine(lib.parseCrystal(value).error))
    {
      match lib.parseCrystal(value)
      case Err(e) => r := Err(SpdcErrors.IntoPyErr(SpdcErrors.FromEngine(e)));
      case Ok(crystal) =>
        inner := inner.(crystalSetup := inner.crystalSetup.(crystal := crystal));
        r := Ok(());
    }

    function CrystalPmType(): (r: string)
      reads this
      ensures r == inner.crystalSetup.pmType.name
    {
      inner.crystalSetup.pmType.name
    }

    method SetCrystalPmType(value: string) returns (r: PyResult<()>)
      modifies this
      ensures r.Ok? <==> lib.parsePmType(value).Ok?
      ensures r.Ok? ==> inner == old(inner).(crystalSetup := old(inner).crystalSetup.(pmType := lib.parsePmType(value).value))
      ensures r.Ok? ==> CrystalPmType() == lib.parsePmType(value).value.name
      ensures r.Err? ==> inner == old(inner) && r.error == SpdcErrors.IntoPyErr(SpdcErrors.FromEngine(lib.parsePmType(value).error))
    {
      match lib.parsePmType(value)
      case Err(e) => r := Err(SpdcErrors.IntoPyErr(SpdcErrors.FromEngine(e)));
      case Ok(pmType) =>
        inner := inner.(crystalSetup := inner.crystalSetup.(pmType := pmType));
        r := Ok(());
    }

    function CrystalPhiDeg(): (r: real)
      reads this
      ensures r * DEG == inner.crystalSetup.phi
    {
      inner.crystalSetup.phi / DEG
    }

    method SetCrystalPhiDeg(value: real)
      modifies this
      ensures inner == old(inner).(crystalSetup := old(inner).crystalSetup.(phi := value * DEG))
      ensures CrystalPhiDeg() == value
      ensures value == old(CrystalPhiDeg()) ==> inner == old(inner)
    {
      inner := inner.(crystalSetup := inner.crystalSetup.(phi := value * DEG));
    }

    function CrystalThetaDeg(): (r: real)
      reads this
      ensures r * DEG == inner.crystalSetup.theta
    {
      inner.crystalSetup.theta / DEG
    }

    method SetCrystalThetaDeg(value: real)
      modifies this
      ensures inner == old(inner).(crystalSetup := old(inner).crystalSetup.(theta := value * DEG))
      ensures CrystalThetaDeg() == value
      ensures value == old(CrystalThetaDeg()) ==> inner == old(inner)
    {
      inner := inner.(crystalSetup := inner.crystalSetup.(theta := value * DEG));
    }

    function CrystalLengthUm(): (r: real)
      reads this
      ensures r * M * MICRO == inner.crystalSetup.length
    {
      inner.crystalSetup.length / M / MICRO
    }

    method SetCrystalLengthUm(value: real)
      modifies this
      ensures inner == old(inner).(crystalSetup := old(inner).crystalSetup.(length := value * M * MICRO))
      ensures CrystalLengthUm() == value
      ensures value == old(CrystalLengthUm()) ==> inner == old(inner)
    {
      inner := inner.(crystalSetup := inner.crystalSetup.(length := value * M * MICRO));
    }

    function CrystalTemperatureC(): (r: real)
      reads this
      ensures CelsiusToKelvin(r) == inner.crystalSetup.temperature
    {
      KelvinToCelsius(inner.crystalSetup.temperature)
    }

    /** Temperature crosses through the Celsius/Kelvin pair, not a scale. */
    method SetCrystalTemperatureC(value: real)
      modifies this
      ensures inner == old(inner).(crystalSetup := old(inner).crystalSetup.(temperature := CelsiusToKelvin(value)))
      ensures CrystalTemperatureC() == value
      ensures value == old(CrystalTemperatureC()) ==> inner == old(inner)
    {
      inner := inner.(crystalSetup := inner.crystalSetup.(temperature := CelsiusToKelvin(value)));
      TemperatureRoundTrip(value, inner.crystalSetup.temperature);
    }

    function CounterPropagation(): (r: bool)
      reads this
      ensures r == inner.crystalSetup.counterPropagation
    {
      inner.crystalSetup.counterPropagation
    }

    method SetCounterPropagation(value: bool)
      modifies this
      ensures inner == old(inner).(crystalSetup := old(inner).crystalSetup.(counterPropagation := value))
      ensures CounterPropagation() == value
      ensures value == old(CounterPropagation()) ==> inner == old(inner)
    {
      inner := inner.(crystalSetup := inner.crystalSetup.(counterPropagation := value));
    }

    // ------------------------------------------------------------ pump

    function PumpWavelengthNm(): (r: real)
      reads this
      ensures r * NANO * M == Reciprocal2PiC(inner.pump.frequency)
    {
      Reciprocal2PiC(inner.pump.frequency) / NANO / M
    }

    /** The beam keeps one quantity: setting the wavelength also sets the frequency. */
    method SetPumpWavelengthNm(value: real)
      modifies this
      ensures inner == old(inner).(pump := old(inner).pump.(frequency := Reciprocal2PiC(value * NANO * M)))
      ensures PumpWavelengthNm() == value
      ensures value == old(PumpWavelengthNm()) ==> inner == old(inner)
    {
      Reciprocal2PiCInvolution(inner.pump.frequency);
      inner := inner.(pump := inner.pump.(frequency := Reciprocal2PiC(value * NANO * M)));
      Reciprocal2PiCInvolution(value * NANO * M);
    }

    /** Despite its name, the value is the angular frequency in rad/s. */
    function PumpFrequencyHz(): (r: real)
      reads this
      ensures r * RAD / S == inner.pump.frequency
    {
      inner.pump.frequency * S / RAD
    }

    method SetPumpFrequencyHz(value: real)
      modifies this
      ensures inner == old(inner).(pump := old(inner).pump.(frequency := value * RAD / S))
      ensures PumpFrequencyHz() == value
      ensures value == old(PumpFrequencyHz()) ==> inner == old(inner)
    {
      inner := inner.(pump := inner.pump.(frequency := value * RAD / S));
    }

    function PumpWaistNm(): (r: (real, real))
      reads this
      ensures r.0 * NANO * M == inner.pump.waist.0 && r.1 * NANO * M == inner.pump.waist.1
    {
      (inner.pump.waist.0 / NANO / M, inner.pump.waist.1 / NANO / M)
    }

    /** Both components are scaled independently by the getter's factor. */
    method SetPumpWaistNm(value: (real, real))
      modifies this
      ensures inner == old(inner).(pump := old(inner).pump.(waist := (value.0 * NANO * M, value.1 * NANO * M)))
      ensures PumpWaistNm() == value
      ensures value == old(PumpWaistNm()) ==> inner == old(inner)
    {
      inner := inner.(pump := inner.pump.(waist := (value.0 * NANO * M, value.1 * NANO * M)));
    }

    function PumpBandwidthNm(): (r: real)
      reads this
      ensures r * NANO * M == inner.pumpBandwidth
    {
      inner.pumpBandwidth / NANO / M
    }

    method SetPumpBandwidthNm(value: real)
      modifies this
      ensures inner == old(inner).(pumpBandwidth := value * NANO * M)
      ensures PumpBandwidthNm() == value
      ensures value == old(PumpBandwidthNm()) ==> inner == old(inner)
    {
      inner := inner.(pumpBandwidth := value * NANO * M);
    }

    /** Scaled by `MEGA * W` on both sides, although the name says milliwatts. */
    function PumpAveragePowerMw(): (r: real)
      reads this
      ensures r * MEGA * W == inner.pumpAveragePower
    {
      inner.pumpAveragePower / MEGA / W
    }

    method SetPumpAveragePowerMw(value: real)
      modifies this
      ensures inner == old(inner).(pumpAveragePower := value * MEGA * W)
      ensures PumpAveragePowerMw() == value
      ensures value == old(PumpAveragePowerMw()) ==> inner == old(inner)
    {
      inner := inner.(pumpAveragePower := value * MEGA * W);
    }

    function PumpSpectrumThreshold(): (r: real)
      reads this
      ensures r == inner.pumpSpectrumThreshold
    {
      inner.pumpSpectrumThreshold
    }

    method SetPumpSpectrumThreshold(value: real)
      modifies this
      ensures inner == old(inner).(pumpSpectrumThreshold := value)
      ensures PumpSpectrumThreshold() == value
      ensures value == old(PumpSpectrumThreshold()) ==> inner == old(inner)
    {
      inner := inner.(pumpSpectrumThreshold := value);
    }

    // ------------------------------------------------------------ signal

    function SignalWavelengthNm(): (r: real)
      reads this
      ensures r * NANO * M == Reciprocal2PiC(inner.signal.frequency)
    {
      Reciprocal2PiC(inner.signal.frequency) / NANO / M
    }

    method SetSignalWavelengthNm(value: real)
      modifies this
      ensures inner == old(inner).(signal := old(inner).signal.(frequency := Reciprocal2PiC(value * NANO * M)))
      ensures SignalWavelengthNm() == value
      ensures value == old(SignalWavelengthNm()) ==> inner == old(inner)
    {
      Reciprocal2PiCInvolution(inner.signal.frequency);
      inner := inner.(signal := inner.signal.(frequency := Reciprocal2PiC(value * NANO * M)));
      Reciprocal2PiCInvolution(value * NANO * M);
    }

    function SignalFrequencyHz(): (r: real)
      reads this
      ensures r * RAD / S == inner.signal.frequency
    {
      inner.signal.frequency * S / RAD
    }

    method SetSignalFrequencyHz(value: real)
      modifies this
      ensures inner == old(inner).(signal := old(inner).signal.(frequency := value * RAD / S))
      ensures SignalFrequencyHz() == value
      ensures value == old(SignalFrequencyHz()) ==> inner == old(inner)
    {
      inner := inner.(signal := inner.signal.(frequency := value * RAD / S));
    }

    function SignalPhiDeg(): (r: real)
      reads this
      ensures r * DEG == inner.signal.phi
    {
      inner.signal.phi / DEG
    }

    method SetSignalPhiDeg(value: real)
      modifies this
      ensures inner == old(inner).(signal := old(inner).signal.(phi := value * DEG))
      ensures SignalPhiDeg() == value
      ensures value == old(SignalPhiDeg()) ==> inner == old(inner)
    {
      inner := inner.(signal := inner.signal.(phi := value * DEG));
    }

    function SignalThetaDeg(): (r: real)
      reads this
      ensures r * DEG == inner.signal.thetaInternal
    {
      inner.signal.thetaInternal / DEG
    }

    method SetSignalThetaDeg(value: real)
      modifies this
      ensures inner == old(inner).(signal := old(inner).signal.(thetaInternal := value * DEG))
      ensures SignalThetaDeg() == value
      ensures value == old(SignalThetaDeg()) ==> inner == old(inner)
    {
      inner := inner.(signal := inner.signal.(thetaInternal := value * DEG));
    }

    function SignalThetaExternalDeg(): (r: real)
      reads this
      ensures r * DEG == lib.thetaExternal(inner.signal, inner.crystalSetup)
    {
      lib.thetaExternal(inner.signal, inner.crystalSetup) / DEG
    }

    /** The engine refracts the angle through the crystal face; only the signal beam changes. */
    method SetSignalThetaExternalDeg(value: real)
      modifies this
      ensures inner == old(inner).(signal := lib.withThetaExternal(old(inner).signal, value * DEG, old(inner).crystalSetup))
      ensures Engine.RefractionRoundTrips(lib) ==> SignalThetaExternalDeg() == value
    {
      inner := inner.(signal := lib.withThetaExternal(inner.signal, value * DEG, inner.crystalSetup));
    }

    function SignalWaistUm(): (r: (real, real))
      reads this
      ensures r.0 * MICRO * M == inner.signal.waist.0 && r.1 * MICRO * M == inner.signal.waist.1
    {
      (inner.signal.waist.0 / MICRO / M, inner.signal.waist.1 / MICRO / M)
    }

    method SetSignalWaistUm(value: (real, real))
      modifies this
      ensures inner == old(inner).(signal := old(inner).signal.(waist := (value.0 * MICRO * M, value.1 * MICRO * M)))
      ensures SignalWaistUm() == value
      ensures value == old(SignalWaistUm()) ==> inner == old(inner)
    {
      inner := inner.(signal := inner.signal.(waist := (value.0 * MICRO * M, value.1 * MICRO * M)));
    }

    function SignalWaistPositionUm(): (r: real)
      reads this
      ensures r * MICRO * M == inner.signalWaistPosition
    {
      inner.signalWaistPosition / MICRO / M
    }

    method SetSignalWaistPositionUm(value: real)
      modifies this
      ensures inner == old(inner).(signalWaistPosition := value * MICRO * M)
      ensures SignalWaistPositionUm() == value
      ensures value == old(SignalWaistPositionUm()) ==> inner == old(inner)
    {
      inner := inner.(signalWaistPosition := value * MICRO * M);
    }

    // ------------------------------------------------------------ idler

    function IdlerWavelengthNm(): (r: real)
      reads this
      ensures r * NANO * M == Reciprocal2PiC(inner.idler.frequency)
    {
      Reciprocal2PiC(inner.idler.frequency) / NANO / M
    }

    method SetIdlerWavelengthNm(value: real)
      modifies this
      ensures inner == old(inner).(idler := old(inner).idler.(frequency := Reciprocal2PiC(value * NANO * M)))
      ensures IdlerWavelengthNm() == value
      ensures value == old(IdlerWavelengthNm()) ==> inner == old(inner)
    {
      Reciprocal2PiCInvolution(inner.idler.frequency);
      inner := inner.(idler := inner.idler.(frequency := Reciprocal2PiC(value * NANO * M)));
      Reciprocal2PiCInvolution(value * NANO * M);
    }

    function IdlerFrequencyHz(): (r: real)
      reads this
      ensures r * RAD / S == inner.idler.frequency
    {
      inner.idler.frequency * S / RAD
    }

    method SetIdlerFrequencyHz(value: real)
      modifies this
      ensures inner == old(inner).(idler := old(inner).idler.(frequency := value * RAD / S))
      ensures IdlerFrequencyHz() == value
      ensures value == old(IdlerFrequencyHz()) ==> inner == old(inner)
    {
      inner := inner.(idler := inner.idler.(frequency := value * RAD / S));
    }

    function IdlerPhiDeg(): (r: real)
      reads this
      ensures r * DEG == inner.idler.phi
    {
      inner.idler.phi / DEG
    }

    method SetIdlerPhiDeg(value: real)
      modifies this
      ensures inner == old(inner).(idler := old(inner).idler.(phi := value * DEG))
      ensures IdlerPhiDeg() == value
      ensures value == old(IdlerPhiDeg()) ==> inner == old(inner)
    {
      inner := inner.(idler := inner.idler.(phi := value * DEG));
    }

    function IdlerThetaDeg(): (r: real)
      reads this
      ensures r * DEG == inner.idler.thetaInternal
    {
      inner.idler.thetaInternal / DEG
    }

    method SetIdlerThetaDeg(value: real)
      modifies this
      ensures inner == old(inner).(idler := old(inner).idler.(thetaInternal := value * DEG))
      ensures IdlerThetaDeg() == value
      ensures value == old(IdlerThetaDeg()) ==> inner == old(inner)
    {
      inner := inner.(idler := inner.idler.(thetaInternal := value * DEG));
    }

    function IdlerThetaExternalDeg(): (r: real)
      reads this
      ensures r * DEG == lib.thetaExternal(inner.idler, inner.crystalSetup)
    {
      lib.thetaExternal(inner.idler, inner.crystalSetup) / DEG
    }

    method SetIdlerThetaExternalDeg(value: real)
      modifies this
      ensures inner == old(inner).(idler := lib.withThetaExternal(old(inner).idler, value * DEG, old(inner).crystalSetup))
      ensures Engine.RefractionRoundTrips(lib) ==> IdlerThetaExternalDeg() == value
    {
      inner := inner.(idler := lib.withThetaExternal(inner.idler, value * DEG, inner.crystalSetup));
    }

    function IdlerWaistUm(): (r: (real, real))
      reads this
      ensures r.0 * MICRO * M == inner.idler.waist.0 && r.1 * MICRO * M == inner.idler.waist.1
    {
      (inner.idler.waist.0 / MICRO / M, inner.idler.waist.1 / MICRO / M)
    }

    method SetIdlerWaistUm(value: (real, real))
      modifies this
      ensures inner == old(inner).(idler := old(inner).idler.(waist := (value.0 * MICRO * M, value.1 * MICRO * M)))
      ensures IdlerWaistUm() == value
      ensures value == old(IdlerWaistUm()) ==> inner == old(inner)
    {
      inner := inner.(idler := inner.idler.(waist := (value.0 * MICRO * M, value.1 * MICRO * M)));
    }

    function IdlerWaistPositionUm(): (r: real)
      reads this
      ensures r * MICRO * M == inner.idlerWaistPosition
    {
      inner.idlerWaistPosition / MICRO / M
    }

    method SetIdlerWaistPositionUm(value: real)
      modifies this
      ensures inner == old(inner).(idlerWaistPosition := value * MICRO * M)
      ensures IdlerWaistPositionUm() == value
      ensures value == old(IdlerWaistPositionUm()) ==> inner == old(inner)
    {
      inner := inner.(idlerWaistPosition := value * MICRO * M);
    }

    // ------------------------------------------------------------ periodic poling

    /** `None` exactly when poling is off. */
    function PolingPeriodUm(): (r: Option<real>)
      reads this
      ensures r.None? <==> inner.pp.Off?
      ensures r.Some? ==> r.value * MICRO * M == inner.pp.period
    {
      match inner.pp
      case Off => None
      case On(period, _) => Some(period / MICRO / M)
    }

    /**
     * Switches poling on with no apodization when it was off; otherwise the
     * engine's `with_period` replaces the poling.
     */
    method SetPolingPeriodUm(value: real)
      modifies this
      ensures old(inner).pp.Off? ==>
                inner == old(inner).(pp := Engine.PeriodicPoling.On(value * MICRO * M, Engine.Apodization.Off))
      ensures old(inner).pp.Off? ==> PolingPeriodUm() == Some(value)
      ensures old(inner).pp.On? ==> inner == old(inner).(pp := lib.withPeriod(old(inner).pp, value * MICRO * M))
    {
      match inner.pp {
        case Off =>
          inner := inner.(pp := Engine.PeriodicPoling.On(value * MICRO * M, Engine.Apodization.Off));
        case On(_, _) =>
          inner := inner.(pp := lib.withPeriod(inner.pp, value * MICRO * M));
      }
    }

    /** The `apodization` getter: the engine's current window, encoded. */
    function ApodizationDict(): (d: PyDictValue)
      reads this
      ensures d == ApodizationCodec.Encode(lib.apodizationOf(inner.pp), lib.apodizations)
      ensures "parameter" in d <==> !lib.apodizationOf(inner.pp).Off?
    {
      ApodizationCodec.Encode(lib.apodizationOf(inner.pp), lib.apodizations)
    }

    /**
     * `None` installs the engine's default window; a dictionary that does not
     * decode raises before the poling is touched.
     */
    method SetApodization(value: Option<PyDictValue>) returns (r: PyResult<()>)
      modifies this
      ensures value.None? ==> r.Ok? && inner == old(inner).(pp := lib.withApodization(old(inner).pp, lib.apodizations.defaultApodization))
      ensures value.Some? ==> (r.Ok? <==> ApodizationCodec.Decode(value.value, lib.apodizations).Ok?)
      ensures value.Some? && r.Ok? ==>
                inner == old(inner).(pp := lib.withApodization(old(inner).pp, ApodizationCodec.Decode(value.value, lib.apodizations).value))
      ensures r.Err? ==> value.Some? && inner == old(inner) && r.error == ApodizationCodec.Decode(value.value, lib.apodizations).error
    {
      var apo: Engine.Apodization;
      if value.Some? {
        var decoded := ApodizationCodec.Decode(value.value, lib.apodizations);
        if decoded.Err? {
          return Err(decoded.error);
        }
        apo := decoded.value;
      } else {
        apo := lib.apodizations.defaultApodization;
      }
      inner := inner.(pp := lib.withApodization(inner.pp, apo));
      r := Ok(());
    }

    // ------------------------------------------------------------ deff

    function DeffPmPerVolt(): (r: real)
      reads this
      ensures r * (PICO * M / V) == inner.deff
    {
      inner.deff / (PICO * M / V)
    }

    method SetDeffPmPerVolt(value: real)
      modifies this
      ensures inner == old(inner).(deff := value * PICO * M / V)
      ensures DeffPmPerVolt() == value
      ensures value == old(DeffPmPerVolt()) ==> inner == old(inner)
    {
      inner := inner.(deff := value * PICO * M / V);
    }

    // ------------------------------------------------------------ optimisers

    /** An engine failure raises and leaves the setup untouched; success replaces it and returns this object. */
    method TryAsOptimum() returns (r: PyResult<Spdc>)
      modifies this
      ensures r.Ok? <==> lib.tryAsOptimum(old(inner)).Ok?
      ensures r.Ok? ==> r.value == this && inner == lib.tryAsOptimum(old(inner)).value
      ensures r.Err? ==> inner == old(inner) && r.error == SpdcErrors.IntoPyErr(SpdcErrors.FromEngine(lib.tryAsOptimum(old(inner)).error))
    {
      match lib.tryAsOptimum(inner)
      case Err(e) => r := Err(SpdcErrors.IntoPyErr(SpdcErrors.FromEngine(e)));
      case Ok(state) =>
        inner := state;
        r := Ok(this);
    }

    method WithOptimumIdler() returns (r: PyResult<Spdc>)
      modifies this
      ensures r.Ok? <==> lib.withOptimumIdler(old(inner)).Ok?
      ensures r.Ok? ==> r.value == this && inner == lib.withOptimumIdler(old(inner)).value
      ensures r.Err? ==> inner == old(inner) && r.error == SpdcErrors.IntoPyErr(SpdcErrors.FromEngine(lib.withOptimumIdler(old(inner)).error))
    {
      match lib.withOptimumIdler(inner)
      case Err(e) => r := Err(SpdcErrors.IntoPyErr(SpdcErrors.FromEngine(e)));
      case Ok(state) =>
        inner := state;
        r := Ok(this);
    }

    method WithOptimumCrystalTheta() returns (self: Spdc)
      modifies this
      ensures self == this && inner == lib.withOptimumCrystalTheta(old(inner))
    {
      inner := lib.withOptimumCrystalTheta(inner);
      self := this;
    }

    method WithOptimumPeriodicPoling() returns (r: PyResult<Spdc>)
      modifies this
      ensures r.Ok? <==> lib.withOptimumPeriodicPoling(old(inner)).Ok?
      ensures r.Ok? ==> r.value == this && inner == lib.withOptimumPeriodicPoling(old(inner)).value
      ensures r.Err? ==> inner == old(inner) && r.error == SpdcErrors.IntoPyErr(SpdcErrors.FromEngine(lib.withOptimumPeriodicPoling(old(inner)).error))
    {
      match lib.withOptimumPeriodicPoling(inner)
      case Err(e) => r := Err(SpdcErrors.IntoPyErr(SpdcErrors.FromEngine(e)));
      case Ok(state) =>
        inner := state;
        r := Ok(this);
    }

    method WithSwappedSignalIdler() returns (self: Spdc)
      modifies this
      ensures self == this && inner == lib.withSwappedSignalIdler(old(inner))
    {
      inner := lib.withSwappedSignalIdler(inner);
      self := this;
    }

    /** The optimum crystal angle, in degrees. */
    function OptimumCrystalTheta(): (theta: real)
      reads this
      ensures theta * DEG == lib.optimumCrystalTheta(inner)
    {
      lib.optimumCrystalTheta(inner) / DEG
    }

    /** A new host `FrequencySpace` object around the engine's optimum range. */
    method OptimumRange(n: Engine.Usize) returns (g: Spaces.GridSpace)
      ensures fresh(g)
      ensures g.kind == Spaces.FrequencyGrid && g.steps == lib.optimumRange(inner, n).steps
    {
      g := new Spaces.GridSpace.Wrap(Spaces.FrequencyGrid, lib.optimumRange(inner, n).steps);
    }

    /** The engine's phase mismatch, frequencies in rad/s in and each component scaled by `M / DEG` out. */
    function DeltaK(signalFrequencyHz: real, idlerFrequencyHz: real): (dk: (real, real, real))
      reads this
      ensures var raw := lib.deltaK(inner, signalFrequencyHz * RAD / S, idlerFrequencyHz * RAD / S);
              dk.0 * DEG == raw.0 * M && dk.1 * DEG == raw.1 * M && dk.2 * DEG == raw.2 * M
    {
      var raw := lib.deltaK(inner, signalFrequencyHz * RAD / S, idlerFrequencyHz * RAD / S);
      (raw.0 * M / DEG, raw.1 * M / DEG, raw.2 * M / DEG)
    }

    // ------------------------------------------------------------ range-taking methods

    /** The conversion every range-taking method performs before the engine runs. */
    function Domain(range: Spaces.SIRange): (r: PyResult<Engine.FrequencySpace>)
      ensures r.Err? <==> range.IsArray()
      ensures range.FrequencySpace? ==> r == Ok(range.fs)
    {
      Spaces.ToFrequencySpace(range, lib.spaces)
    }

    /** `integrator.unwrap_or_default()`. */
    function IntegratorOrDefault(integrator: Option<Engine.Integrator>): (r: Engine.Integrator)
      ensures integrator.None? ==> r == lib.defaultIntegrator
      ensures integrator.Some? ==> r == integrator.value
    {
      Integrators.UnwrapOr(integrator, Integrators.Default(lib.defaultIntegrator))
    }

    /** Coincidence rate per second; array ranges are refused before the engine is asked. */
    function CountsCoincidences(range: Spaces.SIRange, integrator: Option<Engine.Integrator>): (r: PyResult<real>)
      reads this
      ensures r.Err? <==> range.IsArray()
      ensures r.Err? ==> r.error == Domain(range).error
      ensures r.Ok? ==> r.value == lib.countsCoincidences(inner, Domain(range).value, IntegratorOrDefault(integrator)) * S
    {
      match Domain(range)
      case Err(e) => Err(e)
      case Ok(fs) => Ok(lib.countsCoincidences(inner, fs, IntegratorOrDefault(integrator)) * S)
    }

    function CountsSinglesSignal(range: Spaces.SIRange, integrator: Option<Engine.Integrator>): (r: PyResult<real>)
      reads this
      ensures r.Err? <==> range.IsArray()
      ensures r.Err? ==> r.error == Domain(range).error
      ensures r.Ok? ==> r.value == lib.countsSinglesSignal(inner, Domain(range).value, IntegratorOrDefault(integrator)) * S
    {
      match Domain(range)
      case Err(e) => Err(e)
      case Ok(fs) => Ok(lib.countsSinglesSignal(inner, fs, IntegratorOrDefault(integrator)) * S)
    }

    function CountsSinglesIdler(range: Spaces.SIRange, integrator: Option<Engine.Integrator>): (r: PyResult<real>)
      reads this
      ensures r.Err? <==> range.IsArray()
      ensures r.Err? ==> r.error == Domain(range).error
      ensures r.Ok? ==> r.value == lib.countsSinglesIdler(inner, Domain(range).value, IntegratorOrDefault(integrator)) * S
    {
      match Domain(range)
      case Err(e) => Err(e)
      case Ok(fs) => Ok(lib.countsSinglesIdler(inner, fs, IntegratorOrDefault(integrator)) * S)
    }

    function Efficiencies(range: Spaces.SIRange, integrator: Option<Engine.Integrator>): (r: PyResult<map<string, real>>)
      reads this
      ensures r.Err? <==> range.IsArray()
      ensures r.Err? ==> r.error == Domain(range).error
      ensures r.Ok? ==> r.value == lib.efficiencies(inner, Domain(range).value, IntegratorOrDefault(integrator))
    {
      match Domain(range)
      case Err(e) => Err(e)
      case Ok(fs) => Ok(lib.efficiencies(inner, fs, IntegratorOrDefault(integrator)))
    }

    /** The HOM dip as a map with exactly the keys `time` (seconds) and `visibility`. */
    function HomVisibility(range: Spaces.SIRange, integrator: Option<Engine.Integrator>): (r: PyResult<Visibility>)
      reads this
      ensures r.Err? <==> range.IsArray()
      ensures r.Err? ==> r.error == Domain(range).error
      ensures r.Ok? ==> r.value.Keys == {"time", "visibility"}
      ensures r.Ok? ==>
                var dip := lib.homVisibility(inner, Domain(range).value, IntegratorOrDefault(integrator));
                r.value["time"] * S == dip.0 && r.value["visibility"] == dip.1
    {
      match Domain(range)
      case Err(e) => Err(e)
      case Ok(fs) => Ok(VisibilityMap(lib.homVisibility(inner, fs, IntegratorOrDefault(integrator))))
    }

    /** Delays in seconds go in scaled by `S`; the engine's rates come back unchanged. */
    function HomRateSeries(timeDelays: seq<real>, range: Spaces.SIRange, integrator: Option<Engine.Integrator>): (r: PyResult<seq<real>>)
      reads this
      ensures r.Err? <==> range.IsArray()
      ensures r.Err? ==> r.error == Domain(range).error
      ensures r.Ok? ==> r.value == lib.homRateSeries(inner, Spaces.ScaleEach(timeDelays, S), Domain(range).value, IntegratorOrDefault(integrator))
    {
      match Domain(range)
      case Err(e) => Err(e)
      case Ok(fs) => Ok(lib.homRateSeries(inner, Spaces.ScaleEach(timeDelays, S), fs, IntegratorOrDefault(integrator)))
    }

    /** One visibility map per engine key, each with exactly the keys `time` and `visibility`. */
    function HomTwoSourceVisibilities(range: Spaces.SIRange, integrator: Option<Engine.Integrator>): (r: PyResult<map<string, Visibility>>)
      reads this
      ensures r.Err? <==> range.IsArray()
      ensures r.Err? ==> r.error == Domain(range).error
      ensures r.Ok? ==>
                var dips := lib.homTwoSourceVisibilities(inner, Domain(range).value, IntegratorOrDefault(integrator));
                && r.value.Keys == dips.Keys
                && (forall k :: k in dips ==> r.value[k] == VisibilityMap(dips[k]))
    {
      match Domain(range)
      case Err(e) => Err(e)
      case Ok(fs) =>
        var dips := lib.homTwoSourceVisibilities(inner, fs, IntegratorOrDefault(integrator));
        Ok(map k | k in dips :: VisibilityMap(dips[k]))
    }

    function HomTwoSourceRateSeries(timeDelays: seq<real>, range: Spaces.SIRange, integrator: Option<Engine.Integrator>): (r: PyResult<map<string, seq<real>>>)
      reads this
      ensures r.Err? <==> range.IsArray()
      ensures r.Err? ==> r.error == Domain(range).error
      ensures r.Ok? ==> r.value == lib.homTwoSourceRateSeries(inner, Spaces.ScaleEach(timeDelays, S), Domain(range).value, IntegratorOrDefault(integrator))
    {
      match Domain(range)
      case Err(e) => Err(e)
      case Ok(fs) => Ok(lib.homTwoSourceRateSeries(inner, Spaces.ScaleEach(timeDelays, S), fs, IntegratorOrDefault(integrator)))
    }
  }
}
