# spdcalc-py: a verified model of the Python bindings

`spdcalc-py` exposes the `spdcalc` engine for spontaneous parametric
down-conversion (SPDC) to Python. The bindings themselves compute no
physics. They do four things:

- convert between the host's unit-free floats and the engine's SI
  quantities;
- translate Python dictionaries and tagged ranges into engine values and
  back;
- default the optional arguments of the integrator constructors;
- carry engine errors to the host as `ValueError`s.

This project models that binding layer and proves what it promises.

Most engine operations are represented by records of function-valued
fields, which act as uninterpreted engine calls:

- `Engine.SpdcLibrary` for the optimisers, the physics, and configuration
  parsing and validation;
- `Engine.SpaceLibrary` for grid conversions, resolution changes and pair
  iteration;
- `Engine.ApodizationLibrary` for a window's kind name and its
  deserialiser.

A few small engine operations are instead given a concrete meaning; they
are listed under "## Left out", with the round trips that rest on them.

Python values are the datatype `Host.PyValue`. A Python exception is
`Host.PyErr(kind, message)`.

Modules, one per source file:

- `ApodizationCodec` (`src/apodization.rs`): the dictionary codec for
  apodization windows.
- `Spaces` (`src/spaces.rs`): the five-variant signal/idler range and its
  fallible conversion to a frequency grid. Also the three host grid
  classes, as one class `GridSpace` with a `kind`, the two array
  constructors, and the type-erased pair iterator.
- `SpdcWrapper` (`src/spdc.rs`): the host `SPDC` object, a class around the
  engine setup. Most numeric setters store `value * scale` and their
  getters return `field / scale`. The exceptions: wavelengths pass through
  `2πc/x`, temperatures through the Celsius/Kelvin shift, external angles
  through the engine's refraction, crystal kind and PM type through the
  engine's parsers, poling through its constructor or the engine's
  `with_period`, and apodization through the dictionary codec. Also the optimiser methods and the range-taking
  physics methods.
- `LegacyWrapper` (`src/lib.rs`): the older, duplicate `SPDC` wrapper. Its
  YAML/JSON constructors panic on malformed text. Its apodization accessors
  always panic.
- `Integrators` (`src/integrator.rs`): the static constructors and their
  defaults.
- `SpdcErrors` (`src/error.rs`): the error wrapper and its conversion to a
  `ValueError`. `src/lib.rs:8-20` declares an identical copy of this type,
  so `LegacyWrapper` uses these definitions too.

Supporting modules:

- `Units`: the scale constants. `DEG` is `PI / 180`; `MICRO`, `NANO`,
  `PICO` and `MEGA` are powers of ten; `RAD`, `HZ`, `S`, `M`, `W` and `V`
  are 1. It also holds the Celsius/Kelvin pair and the map
  `x ↦ 2πc/x`, which relates vacuum wavelength to angular frequency.
- `Host`: the PyO3 extraction rules the bindings rely on.
- `Wrappers`: `Option` and `Result`.

Notes on the behaviour as written:

- The `pump_average_power_mw` accessors scale by `MEGA * W`, not milli,
  even though the name says milliwatts. The model keeps `MEGA`. The round
  trip holds either way.
- The `*_frequency_hz` accessors divide by `RAD / S`, so the number they
  exchange is the angular frequency in rad/s.
- The apodization codec does not round-trip `Off`. The encoder writes only
  `kind`, and the decoder demands `parameter` for every kind, so decoding
  that output raises `KeyError`. `ApodizationCodec.RoundTrip` states this
  case exactly. Every other window comes back unchanged, provided the
  engine reads back the kind name it prints for each of the six windowed
  kinds (`ApodizationCodec.EngineDecodesOwnKind`).

## Model

| member | source | states |
|---|---|---|
| Host.ExtractFloat | src/apodization.rs:27-33 | extraction to `f64` succeeds exactly for float-like values and returns their value; otherwise a TypeError |
| Host.ExtractString | src/apodization.rs:13-18 | extraction to `String` succeeds exactly for `str` and returns it; otherwise a TypeError |
| Host.DowncastDict | src/apodization.rs:27-28 | downcast to a dict succeeds exactly for dicts and yields their entries; otherwise a TypeError |
| Host.ExtractFloats | src/apodization.rs:38-41 | a list extracts exactly when every element is float-like; the result has the same length and the elements in order |
| Host.ExtractFloatList | src/apodization.rs:38-41 | `Vec<f64>` extraction refuses anything but a list of float-like values and keeps the elements in order |
| Host.FloatList | src/apodization.rs:69-72 | a list of floats converts element-wise to Python floats, same length and order |
| Host.FloatListRoundTrip | src/apodization.rs:38-41 | extracting a list built from any `Vec<f64>` gives back exactly that vector |
| Units.CelsiusToKelvin | src/spdc.rs:111-113 | Kelvin is Celsius plus 273.15 |
| Units.KelvinToCelsius | src/spdc.rs:106-108 | Celsius is Kelvin minus 273.15 |
| Units.Reciprocal2PiC | src/spdc.rs:127-134 | a nonzero wavelength and its angular frequency multiply to 2πc; zero maps to zero |
| Units.TemperatureRoundTrip | src/spdc.rs:105-113 | Celsius→Kelvin and Kelvin→Celsius invert each other |
| Units.Reciprocal2PiCInvolution | src/spdc.rs:126-134 | the wavelength↔frequency map is its own inverse, so a wavelength set is the wavelength read |
| SpdcErrors.FromEngine | src/error.rs:6-10 | the wrapper carries the engine error unchanged |
| SpdcErrors.IntoPyErr | src/error.rs:12-16 | every wrapped error becomes a ValueError carrying the engine error's message |
| SpdcErrors.Raise | src/spdc.rs:59-62 | `?` on an engine result: success passes the value through; failure becomes the ValueError of that error |
| SpdcErrors.TranslationFaithful | src/error.rs:4-16 | the translation is always a ValueError with the engine's message, and two errors reach the host as the same exception exactly when their messages agree |
| Integrators.Default | src/integrator.rs:13-16 | `Integrator.default()` is the engine's default integrator |
| Integrators.Simpson | src/integrator.rs:18-24 | a Simpson integrator with the given divisions, or 50 when omitted |
| Integrators.AdaptiveSimpson | src/integrator.rs:26-35 | an adaptive Simpson integrator; tolerance defaults to 1e5 and max depth to 1 000 000, each independently; supplied values pass through |
| Integrators.GaussKonrod | src/integrator.rs:37-46 | a Gauss–Kronrod integrator with the same defaults and pass-through |
| Integrators.GaussLegendre | src/integrator.rs:48-53 | a Gauss–Legendre integrator whose degree defaults to 40 |
| Integrators.ClenshawCurtis | src/integrator.rs:55-60 | a Clenshaw–Curtis integrator whose tolerance defaults to 1e5 |
| Integrators.OmittedArgumentsAreDefaults | src/integrator.rs:18-60 | omitting an argument is the same as passing its default |
| ApodizationCodec.Lowercase | src/apodization.rs:24 | the kind is lower-cased character by character, length preserved |
| ApodizationCodec.DecodeGaussian | src/apodization.rs:26-37 | `gaussian` succeeds exactly on a dict holding a float-like `fwhm_um` and stores `fwhm_um * MICRO * M`; a non-dict is a TypeError; a missing `fwhm_um` is the KeyError with the source's message; a present non-float `fwhm_um` is a TypeError |
| ApodizationCodec.DecodeKind | src/apodization.rs:24-49 | the dispatch on the lower-cased kind: `off` is `Off` whatever the parameter; `gaussian` follows the Gaussian rule; `interpolate` succeeds exactly when the parameter extracts as a float list and keeps it; any other kind is a TypeError for a non-float parameter and otherwise exactly the engine deserialiser's result, its error a ValueError with its text |
| ApodizationCodec.Decode | src/apodization.rs:12-50 | a missing `kind` is a KeyError; a non-string kind is a TypeError; a missing `parameter` is a KeyError for every kind; success implies both keys were present; a dict with a string `kind` and a `parameter` decodes exactly as `DecodeKind` of those two values, whatever other keys it holds |
| ApodizationCodec.Encode | src/apodization.rs:52-85 | `Off` encodes as `{kind: "off"}` alone; Gaussian as `{kind: "gaussian", parameter: {fwhm_um}}` in µm; Interpolate with its points as a list; windowed kinds with the engine's kind name and their float parameter |
| ApodizationCodec.LiteralKindsAreLowercase | src/apodization.rs:24-41 | the three literal kinds match themselves after lower-casing |
| ApodizationCodec.RoundTrip | src/apodization.rs:12-85 | decoding the encoding raises the missing-`parameter` KeyError for `Off`; it gives back Gaussian and Interpolate windows unconditionally, and each windowed kind whenever the engine's deserialiser reads back the kind name the engine prints for it and that name does not lower-case to `off`, `gaussian` or `interpolate` |
| ApodizationCodec.SpecialKindsIgnoreCase | src/apodization.rs:24-41 | two spellings of `off`, `gaussian` or `interpolate` that differ only in case decode identically |
| ApodizationCodec.OffIgnoresParameterValue | src/apodization.rs:20-25 | `off` decodes to `Off` whatever the parameter is, yet fails when the parameter is absent |
| ApodizationCodec.OtherKindsForwarded | src/apodization.rs:42-48 | any other kind reaches the engine deserialiser in its original case with the parameter as a float; a non-float parameter is a TypeError; a deserialiser error is a ValueError with its text |
| ApodizationCodec.GaussianDecoding | src/apodization.rs:26-37 | a kind that lower-cases to `gaussian` decodes its parameter by the Gaussian rule |
| ApodizationCodec.InterpolateDecoding | src/apodization.rs:38-41 | `interpolate` decodes exactly what extracts as a float list; a parameter that is not a list is a TypeError |
| ApodizationCodec.InterpolateKeepsPoints | src/apodization.rs:38-41 | `interpolate` keeps any list of floats unchanged and in order |
| Spaces.ToFrequencySpace | src/spaces.rs:23-38 | conversion fails exactly for the two array variants, each with its own fixed ValueError message; a frequency grid passes unchanged; wavelength and sum/difference grids convert through the engine |
| Spaces.FromFrequencySpace | src/spaces.rs:46-50 | an engine frequency grid becomes the `FrequencySpace` variant holding it unchanged |
| Spaces.FromFrequencyArray | src/spaces.rs:52-56 | an engine frequency array becomes the `FrequencyArray` variant holding it unchanged |
| Spaces.FromWavelengthSpace | src/spaces.rs:58-62 | an engine wavelength grid becomes the `Wavelength` variant holding it unchanged |
| Spaces.FromWavelengthArray | src/spaces.rs:64-68 | an engine wavelength array becomes the `WavelengthArray` variant holding it unchanged |
| Spaces.FromSumDiffFrequencySpace | src/spaces.rs:70-74 | an engine sum/difference grid becomes the `SumDiffFrequency` variant holding it unchanged |
| Spaces.InjectionsMatchVariants | src/spaces.rs:23-74 | converting an injected range back to a frequency grid returns the same frequency grid, succeeds for the other two grids and fails for both arrays |
| Spaces.GridUnit | src/spaces.rs:104-111 | every grid's host unit is positive |
| Spaces.NewSteps | src/spaces.rs:104-111 | a grid constructor scales both bounds of each axis by the kind's unit and keeps the counts |
| Spaces.ReprSteps | src/spaces.rs:136-147 | each printed bound times the kind's unit is the stored bound; the counts are printed unchanged |
| Spaces.ReprInvertsConstructor | src/spaces.rs:136-147 | `__repr__` recovers exactly the axis arguments the constructor was given |
| Spaces.GridSpace.constructor | src/spaces.rs:162-170 | a new grid stores the scaled steps and its repr reads back the arguments |
| Spaces.GridSpace.Wrap | src/spaces.rs:150-154 | wrapping an engine grid keeps it unchanged |
| Spaces.GridSpace.Repr | src/spaces.rs:136-147 | the object's `__repr__` numbers: each bound times the kind's unit is the stored bound, counts unchanged |
| Spaces.GridSpace.AsRange | src/spaces.rs:9-21 | a frequency-grid object extracts to the `FrequencySpace` variant, a wavelength-grid object to `Wavelength`, a sum/difference object to `SumDiffFrequency`, each with its steps unchanged; never an array |
| Spaces.GridSpace.SetResolution | src/spaces.rs:131-134 | `set_resolution` updates this object in place through the engine and returns the same object |
| Spaces.GridSpace.ConvertTo | src/spaces.rs:113-129 | `to_*`/`from_*` build a new object of the target kind from the engine's conversion |
| Spaces.ScaleEach | src/spaces.rs:279-284 | scaling a list keeps its length and multiplies each element, in order |
| Spaces.NewFrequencyArray | src/spaces.rs:279-284 | every frequency is multiplied by `RAD * HZ`, in order |
| Spaces.NewWavelengthArray | src/spaces.rs:303-308 | every wavelength is multiplied by `M`, in order |
| Spaces.PairCursor.Next | src/spaces.rs:90-96 | each call yields the next remaining pair and consumes it; at the end it yields `None` and stays at the end |
| Spaces.SIIterator.Next | src/spaces.rs:88-96 | the erased iterator yields exactly what the boxed iterator yields |
| Spaces.IntoSignalIdlerIterator | src/spaces.rs:76-86 | the dispatch picks the iterator of the wrapped variant: what remains is that variant's whole sequence |
| Spaces.Drain | src/spaces.rs:76-96 | walking the erased iterator to its end yields the wrapped variant's sequence, complete and in order |
| SpdcWrapper.VisibilityMap | src/spdc.rs:507-522 | an HOM dip becomes a map with exactly the keys `time` (in seconds) and `visibility` |
| SpdcWrapper.Spdc.Default | src/spdc.rs:24-27 | the default object wraps the engine's default setup |
| SpdcWrapper.Spdc.Wrap | src/spdc.rs:29-34 | `Self(spdc)` wraps the parsed setup unchanged |
| SpdcWrapper.Spdc.FromYaml | src/spdc.rs:29-34 | parses YAML straight into a setup; a parser error is a ValueError with the parser's message |
| SpdcWrapper.Spdc.FromJson | src/spdc.rs:36-41 | as `FromYaml`, for JSON |
| SpdcWrapper.Spdc.CrystalKind | src/spdc.rs:53-62 | the crystal's display name |
| SpdcWrapper.Spdc.SetCrystalKind | src/spdc.rs:53-62 | a parsable name replaces the crystal and nothing else; an unparsable one raises the engine error as a ValueError and changes nothing |
| SpdcWrapper.Spdc.CrystalPmType | src/spdc.rs:64-73 | the phase-matching type's display name |
| SpdcWrapper.Spdc.SetCrystalPmType | src/spdc.rs:64-73 | as `SetCrystalKind`, for the phase-matching type |
| SpdcWrapper.Spdc.CrystalPhiDeg | src/spdc.rs:75-83 | the reading times `DEG` is the stored field |
| SpdcWrapper.Spdc.SetCrystalPhiDeg | src/spdc.rs:75-83 | stores degrees × `DEG` in the crystal's φ only; the getter reads back the value set; setting the current reading changes nothing |
| SpdcWrapper.Spdc.CrystalThetaDeg | src/spdc.rs:85-93 | the reading times `DEG` is the stored field |
| SpdcWrapper.Spdc.SetCrystalThetaDeg | src/spdc.rs:85-93 | stores degrees × `DEG` in the crystal's θ only; get-after-set returns the value; setting the current reading changes nothing |
| SpdcWrapper.Spdc.CrystalLengthUm | src/spdc.rs:95-103 | the reading times `M * MICRO` is the stored field |
| SpdcWrapper.Spdc.SetCrystalLengthUm | src/spdc.rs:95-103 | stores µm × `M * MICRO` in the crystal length only; get-after-set returns the value; setting the current reading changes nothing |
| SpdcWrapper.Spdc.CrystalTemperatureC | src/spdc.rs:105-113 | the Celsius reading whose Kelvin value is the stored temperature |
| SpdcWrapper.Spdc.SetCrystalTemperatureC | src/spdc.rs:105-113 | stores the Kelvin of the Celsius value only; get-after-set returns the value; setting the current reading changes nothing |
| SpdcWrapper.Spdc.CounterPropagation | src/spdc.rs:115-123 | the stored flag |
| SpdcWrapper.Spdc.SetCounterPropagation | src/spdc.rs:115-123 | stores the flag only; get-after-set returns it; setting the current reading changes nothing |
| SpdcWrapper.Spdc.PumpWavelengthNm | src/spdc.rs:126-134 | the reading times `NANO * M` is `2πc` over the beam's stored angular frequency |
| SpdcWrapper.Spdc.SetPumpWavelengthNm | src/spdc.rs:126-134 | stores the angular frequency `2πc/(nm × NANO × M)` in the pump only; the wavelength getter reads back the value set; setting the current reading changes nothing |
| SpdcWrapper.Spdc.PumpFrequencyHz | src/spdc.rs:136-144 | the reading times `RAD / S` is the stored field |
| SpdcWrapper.Spdc.SetPumpFrequencyHz | src/spdc.rs:136-144 | stores value × `RAD / S` as the pump frequency only; get-after-set returns the value; setting the current reading changes nothing |
| SpdcWrapper.Spdc.PumpWaistNm | src/spdc.rs:146-160 | each component times `NANO * M` is the stored waist component |
| SpdcWrapper.Spdc.SetPumpWaistNm | src/spdc.rs:146-160 | scales both waist components by `NANO * M` independently; get-after-set returns the pair; setting the current reading changes nothing |
| SpdcWrapper.Spdc.PumpBandwidthNm | src/spdc.rs:162-170 | the reading times `NANO * M` is the stored field |
| SpdcWrapper.Spdc.SetPumpBandwidthNm | src/spdc.rs:162-170 | stores nm × `NANO * M` in the bandwidth only; get-after-set returns the value; setting the current reading changes nothing |
| SpdcWrapper.Spdc.PumpAveragePowerMw | src/spdc.rs:172-180 | the reading times `MEGA * W` is the stored field |
| SpdcWrapper.Spdc.SetPumpAveragePowerMw | src/spdc.rs:172-180 | stores value × `MEGA * W` in the power only; get-after-set returns the value; setting the current reading changes nothing |
| SpdcWrapper.Spdc.PumpSpectrumThreshold | src/spdc.rs:182-190 | the stored threshold, unscaled |
| SpdcWrapper.Spdc.SetPumpSpectrumThreshold | src/spdc.rs:182-190 | stores the threshold unscaled; get-after-set returns it; setting the current reading changes nothing |
| SpdcWrapper.Spdc.SignalWavelengthNm | src/spdc.rs:193-201 | the reading times `NANO * M` is `2πc` over the beam's stored angular frequency |
| SpdcWrapper.Spdc.SetSignalWavelengthNm | src/spdc.rs:193-201 | as the pump wavelength, for the signal beam only |
| SpdcWrapper.Spdc.SignalFrequencyHz | src/spdc.rs:203-211 | the reading times `RAD / S` is the stored field |
| SpdcWrapper.Spdc.SetSignalFrequencyHz | src/spdc.rs:203-211 | as the pump frequency, for the signal beam only |
| SpdcWrapper.Spdc.SignalPhiDeg | src/spdc.rs:213-221 | the reading times `DEG` is the stored field |
| SpdcWrapper.Spdc.SetSignalPhiDeg | src/spdc.rs:213-221 | stores degrees × `DEG` in the signal's φ only; get-after-set returns the value; setting the current reading changes nothing |
| SpdcWrapper.Spdc.SignalThetaDeg | src/spdc.rs:223-231 | the reading times `DEG` is the stored field |
| SpdcWrapper.Spdc.SetSignalThetaDeg | src/spdc.rs:223-231 | stores degrees × `DEG` in the signal's internal θ only; get-after-set returns the value; setting the current reading changes nothing |
| SpdcWrapper.Spdc.SignalThetaExternalDeg | src/spdc.rs:233-244 | the reading times `DEG` is the engine's external angle for the beam in the current crystal |
| SpdcWrapper.Spdc.SetSignalThetaExternalDeg | src/spdc.rs:233-244 | replaces only the signal beam, with the engine's refraction of degrees × `DEG` through the current crystal; when the engine's refraction reads back the angle it set (`Engine.RefractionRoundTrips`), get-after-set returns the value |
| SpdcWrapper.Spdc.SignalWaistUm | src/spdc.rs:246-260 | each component times `MICRO * M` is the stored waist component |
| SpdcWrapper.Spdc.SetSignalWaistUm | src/spdc.rs:246-260 | scales both waist components by `MICRO * M`; get-after-set returns the pair; setting the current reading changes nothing |
| SpdcWrapper.Spdc.SignalWaistPositionUm | src/spdc.rs:262-270 | the reading times `MICRO * M` is the stored field |
| SpdcWrapper.Spdc.SetSignalWaistPositionUm | src/spdc.rs:262-270 | stores µm × `MICRO * M` in the signal waist position only; get-after-set returns the value; setting the current reading changes nothing |
| SpdcWrapper.Spdc.IdlerWavelengthNm | src/spdc.rs:273-281 | the reading times `NANO * M` is `2πc` over the beam's stored angular frequency |
| SpdcWrapper.Spdc.SetIdlerWavelengthNm | src/spdc.rs:273-281 | as the pump wavelength, for the idler beam only |
| SpdcWrapper.Spdc.IdlerFrequencyHz | src/spdc.rs:283-291 | the reading times `RAD / S` is the stored field |
| SpdcWrapper.Spdc.SetIdlerFrequencyHz | src/spdc.rs:283-291 | as the pump frequency, for the idler beam only |
| SpdcWrapper.Spdc.IdlerPhiDeg | src/spdc.rs:293-301 | the reading times `DEG` is the stored field |
| SpdcWrapper.Spdc.SetIdlerPhiDeg | src/spdc.rs:293-301 | stores degrees × `DEG` in the idler's φ only; get-after-set returns the value; setting the current reading changes nothing |
| SpdcWrapper.Spdc.IdlerThetaDeg | src/spdc.rs:303-311 | the reading times `DEG` is the stored field |
| SpdcWrapper.Spdc.SetIdlerThetaDeg | src/spdc.rs:303-311 | stores degrees × `DEG` in the idler's internal θ only; get-after-set returns the value; setting the current reading changes nothing |
| SpdcWrapper.Spdc.IdlerThetaExternalDeg | src/spdc.rs:313-324 | the reading times `DEG` is the engine's external angle for the beam in the current crystal |
| SpdcWrapper.Spdc.SetIdlerThetaExternalDeg | src/spdc.rs:313-324 | replaces only the idler beam, with the engine's refraction of the angle through the current crystal; when the engine's refraction reads back the angle it set (`Engine.RefractionRoundTrips`), get-after-set returns the value |
| SpdcWrapper.Spdc.IdlerWaistUm | src/spdc.rs:326-340 | each component times `MICRO * M` is the stored waist component |
| SpdcWrapper.Spdc.SetIdlerWaistUm | src/spdc.rs:326-340 | scales both waist components by `MICRO * M`; get-after-set returns the pair; setting the current reading changes nothing |
| SpdcWrapper.Spdc.IdlerWaistPositionUm | src/spdc.rs:342-350 | the reading times `MICRO * M` is the stored field |
| SpdcWrapper.Spdc.SetIdlerWaistPositionUm | src/spdc.rs:342-350 | stores µm × `MICRO * M` in the idler waist position only; get-after-set returns the value; setting the current reading changes nothing |
| SpdcWrapper.Spdc.PolingPeriodUm | src/spdc.rs:353-359 | `None` exactly when poling is off; otherwise the period in µm |
| SpdcWrapper.Spdc.SetPolingPeriodUm | src/spdc.rs:361-371 | from `Off` it switches poling `On` with the scaled period and `Apodization::Off`, and the getter then reads the value back; from `On` the engine's `with_period` replaces the poling; nothing else changes |
| SpdcWrapper.Spdc.ApodizationDict | src/spdc.rs:373-376 | the getter is the codec's encoding of the engine's current window; it has a `parameter` key exactly when that window is not `Off` |
| SpdcWrapper.Spdc.SetApodization | src/spdc.rs:378-389 | `None` installs the engine's default window; a dict installs its decoding; a dict that does not decode raises the codec's error and leaves the setup unchanged |
| SpdcWrapper.Spdc.DeffPmPerVolt | src/spdc.rs:391-400 | the reading times `PICO * M / V` is the stored field |
| SpdcWrapper.Spdc.SetDeffPmPerVolt | src/spdc.rs:391-400 | stores value × `PICO * M / V` in deff only; get-after-set returns the value; setting the current reading changes nothing |
| SpdcWrapper.Spdc.TryAsOptimum | src/spdc.rs:403-407 | on success the setup becomes the engine's optimum and the same object is returned; on failure the engine error is raised and the setup is unchanged |
| SpdcWrapper.Spdc.WithOptimumIdler | src/spdc.rs:409-414 | as `TryAsOptimum`, with the engine's optimum idler |
| SpdcWrapper.Spdc.WithOptimumCrystalTheta | src/spdc.rs:416-419 | always succeeds; the setup becomes the engine's optimum-θ setup and the same object is returned |
| SpdcWrapper.Spdc.WithOptimumPeriodicPoling | src/spdc.rs:421-426 | as `TryAsOptimum`, with the engine's optimum poling |
| SpdcWrapper.Spdc.WithSwappedSignalIdler | src/spdc.rs:428-431 | always succeeds; the setup becomes the engine's swapped setup and the same object is returned |
| SpdcWrapper.Spdc.OptimumCrystalTheta | src/spdc.rs:433-435 | the result in degrees, times `DEG`, is the engine's optimum angle |
| SpdcWrapper.Spdc.OptimumRange | src/spdc.rs:437-440 | a new frequency-grid object around the engine's optimum range for `n` steps |
| SpdcWrapper.Spdc.DeltaK | src/spdc.rs:442-449 | the engine is asked at frequency × `RAD / S`; each returned component times `DEG` is the engine's component times `M` |
| SpdcWrapper.Spdc.Domain | src/spdc.rs:451-462 | delegates to `Spaces.ToFrequencySpace`: fails exactly for array ranges, and a frequency grid passes unchanged |
| SpdcWrapper.Spdc.IntegratorOrDefault | src/spdc.rs:451-462 | an omitted integrator is the engine's default; a supplied one is used unchanged |
| SpdcWrapper.Spdc.CountsCoincidences | src/spdc.rs:451-462 | fails exactly for array ranges, with the conversion's error, before the engine runs; otherwise the engine's coincidence rate times `S` |
| SpdcWrapper.Spdc.CountsSinglesSignal | src/spdc.rs:464-475 | as `CountsCoincidences`, for signal singles |
| SpdcWrapper.Spdc.CountsSinglesIdler | src/spdc.rs:477-488 | as `CountsCoincidences`, for idler singles |
| SpdcWrapper.Spdc.Efficiencies | src/spdc.rs:490-505 | fails exactly for array ranges; otherwise the engine's efficiencies map |
| SpdcWrapper.Spdc.HomVisibility | src/spdc.rs:507-522 | fails exactly for array ranges; otherwise a map with exactly the keys `time` and `visibility`, with time in seconds |
| SpdcWrapper.Spdc.HomRateSeries | src/spdc.rs:524-538 | fails exactly for array ranges; otherwise the engine's rates at every delay times `S`, in order |
| SpdcWrapper.Spdc.HomTwoSourceVisibilities | src/spdc.rs:540-563 | fails exactly for array ranges; otherwise the same keys as the engine's result, each mapped to a `time`/`visibility` map |
| SpdcWrapper.Spdc.HomTwoSourceRateSeries | src/spdc.rs:565-582 | fails exactly for array ranges; otherwise the engine's rate series per key, at delays times `S` |
| LegacyWrapper.FromConfig | src/lib.rs:41-51 | malformed text panics through `unwrap`; a parsed configuration the engine rejects raises its error as a ValueError; otherwise the validated setup |
| LegacyWrapper.Spdc.Default | src/lib.rs:36-39 | the default object wraps the engine's default setup |
| LegacyWrapper.Spdc.Wrap | src/lib.rs:41-45 | `SPDC(state)` wraps the validated setup unchanged |
| LegacyWrapper.Spdc.FromYaml | src/lib.rs:41-45 | malformed YAML panics; a configuration that fails validation raises the engine error; otherwise a new object around the validated setup |
| LegacyWrapper.Spdc.FromJson | src/lib.rs:47-51 | as `FromYaml`, for JSON |
| LegacyWrapper.Spdc.CrystalKind | src/lib.rs:55-64 | the crystal's display name |
| LegacyWrapper.Spdc.SetCrystalKind | src/lib.rs:55-64 | a parsable name replaces the crystal and nothing else; an unparsable one raises and changes nothing |
| LegacyWrapper.Spdc.CrystalPmType | src/lib.rs:66-75 | the phase-matching type's display name |
| LegacyWrapper.Spdc.SetCrystalPmType | src/lib.rs:66-75 | as `SetCrystalKind`, for the phase-matching type |
| LegacyWrapper.Spdc.CrystalPhiDeg | src/lib.rs:77-85 | the reading times `DEG` is the stored field |
| LegacyWrapper.Spdc.SetCrystalPhiDeg | src/lib.rs:77-85 | stores degrees × `DEG` in φ only; get-after-set returns the value; setting the current reading changes nothing |
| LegacyWrapper.Spdc.CrystalThetaDeg | src/lib.rs:87-95 | the reading times `DEG` is the stored field |
| LegacyWrapper.Spdc.SetCrystalThetaDeg | src/lib.rs:87-95 | stores degrees × `DEG` in θ only; get-after-set returns the value; setting the current reading changes nothing |
| LegacyWrapper.Spdc.CrystalLengthUm | src/lib.rs:97-105 | the reading times `M * MICRO` is the stored field |
| LegacyWrapper.Spdc.SetCrystalLengthUm | src/lib.rs:97-105 | stores µm × `M * MICRO` in the length only; get-after-set returns the value; setting the current reading changes nothing |
| LegacyWrapper.Spdc.CrystalTemperatureC | src/lib.rs:107-115 | the Celsius reading whose Kelvin value is the stored temperature |
| LegacyWrapper.Spdc.SetCrystalTemperatureC | src/lib.rs:107-115 | stores the Kelvin of the Celsius value only; get-after-set returns the value; setting the current reading changes nothing |
| LegacyWrapper.Spdc.CounterPropagation | src/lib.rs:117-125 | the stored flag |
| LegacyWrapper.Spdc.SetCounterPropagation | src/lib.rs:117-125 | stores the flag only; get-after-set returns it; setting the current reading changes nothing |
| LegacyWrapper.Spdc.PumpWavelengthNm | src/lib.rs:128-136 | the reading times `NANO * M` is `2πc` over the beam's stored angular frequency |
| LegacyWrapper.Spdc.SetPumpWavelengthNm | src/lib.rs:128-136 | stores the pump angular frequency for the wavelength only; get-after-set returns the value; setting the current reading changes nothing |
| LegacyWrapper.Spdc.PumpWaistNm | src/lib.rs:138-152 | each component times `NANO * M` is the stored waist component |
| LegacyWrapper.Spdc.SetPumpWaistNm | src/lib.rs:138-152 | scales both components by `NANO * M`; get-after-set returns the pair; setting the current reading changes nothing |
| LegacyWrapper.Spdc.PumpBandwidthNm | src/lib.rs:154-162 | the reading times `NANO * M` is the stored field |
| LegacyWrapper.Spdc.SetPumpBandwidthNm | src/lib.rs:154-162 | stores nm × `NANO * M` only; get-after-set returns the value; setting the current reading changes nothing |
| LegacyWrapper.Spdc.PumpAveragePowerMw | src/lib.rs:164-172 | the reading times `MEGA * W` is the stored field |
| LegacyWrapper.Spdc.SetPumpAveragePowerMw | src/lib.rs:164-172 | stores value × `MEGA * W` only; get-after-set returns the value; setting the current reading changes nothing |
| LegacyWrapper.Spdc.PumpSpectrumThreshold | src/lib.rs:174-182 | the stored threshold, unscaled |
| LegacyWrapper.Spdc.SetPumpSpectrumThreshold | src/lib.rs:174-182 | stores the threshold unscaled; get-after-set returns it; setting the current reading changes nothing |
| LegacyWrapper.Spdc.SignalWavelengthNm | src/lib.rs:185-193 | the reading times `NANO * M` is `2πc` over the beam's stored angular frequency |
| LegacyWrapper.Spdc.SetSignalWavelengthNm | src/lib.rs:185-193 | as the pump wavelength, for the signal only |
| LegacyWrapper.Spdc.SignalPhiDeg | src/lib.rs:195-203 | the reading times `DEG` is the stored field |
| LegacyWrapper.Spdc.SetSignalPhiDeg | src/lib.rs:195-203 | stores degrees × `DEG` in the signal's φ only; get-after-set returns the value; setting the current reading changes nothing |
| LegacyWrapper.Spdc.SignalThetaDeg | src/lib.rs:205-213 | the reading times `DEG` is the stored field |
| LegacyWrapper.Spdc.SetSignalThetaDeg | src/lib.rs:205-213 | stores degrees × `DEG` in the signal's internal θ only; get-after-set returns the value; setting the current reading changes nothing |
| LegacyWrapper.Spdc.SignalThetaExternalDeg | src/lib.rs:215-226 | the reading times `DEG` is the engine's external angle for the beam in the current crystal |
| LegacyWrapper.Spdc.SetSignalThetaExternalDeg | src/lib.rs:215-226 | replaces only the signal beam, with the engine's refraction of the angle; when the engine's refraction reads back the angle it set (`Engine.RefractionRoundTrips`), get-after-set returns the value |
| LegacyWrapper.Spdc.SignalWaistUm | src/lib.rs:228-242 | each component times `MICRO * M` is the stored waist component |
| LegacyWrapper.Spdc.SetSignalWaistUm | src/lib.rs:228-242 | scales both components by `MICRO * M`; get-after-set returns the pair; setting the current reading changes nothing |
| LegacyWrapper.Spdc.SignalWaistPositionUm | src/lib.rs:244-252 | the reading times `MICRO * M` is the stored field |
| LegacyWrapper.Spdc.SetSignalWaistPositionUm | src/lib.rs:244-252 | stores µm × `MICRO * M` only; get-after-set returns the value; setting the current reading changes nothing |
| LegacyWrapper.Spdc.IdlerWavelengthNm | src/lib.rs:255-263 | the reading times `NANO * M` is `2πc` over the beam's stored angular frequency |
| LegacyWrapper.Spdc.SetIdlerWavelengthNm | src/lib.rs:255-263 | as the pump wavelength, for the idler only |
| LegacyWrapper.Spdc.IdlerPhiDeg | src/lib.rs:265-273 | the reading times `DEG` is the stored field |
| LegacyWrapper.Spdc.SetIdlerPhiDeg | src/lib.rs:265-273 | stores degrees × `DEG` in the idler's φ only; get-after-set returns the value; setting the current reading changes nothing |
| LegacyWrapper.Spdc.IdlerThetaDeg | src/lib.rs:275-283 | the reading times `DEG` is the stored field |
| LegacyWrapper.Spdc.SetIdlerThetaDeg | src/lib.rs:275-283 | stores degrees × `DEG` in the idler's internal θ only; get-after-set returns the value; setting the current reading changes nothing |
| LegacyWrapper.Spdc.IdlerThetaExternalDeg | src/lib.rs:285-296 | the reading times `DEG` is the engine's external angle for the beam in the current crystal |
| LegacyWrapper.Spdc.SetIdlerThetaExternalDeg | src/lib.rs:285-296 | replaces only the idler beam, with the engine's refraction of the angle; when the engine's refraction reads back the angle it set (`Engine.RefractionRoundTrips`), get-after-set returns the value |
| LegacyWrapper.Spdc.IdlerWaistUm | src/lib.rs:298-312 | each component times `MICRO * M` is the stored waist component |
| LegacyWrapper.Spdc.SetIdlerWaistUm | src/lib.rs:298-312 | scales both components by `MICRO * M`; get-after-set returns the pair; setting the current reading changes nothing |
| LegacyWrapper.Spdc.IdlerWaistPositionUm | src/lib.rs:314-322 | the reading times `MICRO * M` is the stored field |
| LegacyWrapper.Spdc.SetIdlerWaistPositionUm | src/lib.rs:314-322 | stores µm × `MICRO * M` only; get-after-set returns the value; setting the current reading changes nothing |
| LegacyWrapper.Spdc.PolingPeriodUm | src/lib.rs:325-331 | `None` exactly when poling is off; otherwise the period in µm |
| LegacyWrapper.Spdc.SetPolingPeriodUm | src/lib.rs:333-343 | from `Off`: `On` with `Apodization::Off`, read back by the getter; from `On`: the engine's `with_period` |
| LegacyWrapper.Spdc.Apodization | src/lib.rs:345-348 | the getter always panics with the `todo!` message |
| LegacyWrapper.Spdc.SetApodization | src/lib.rs:350-353 | the setter always panics with the `todo!` message, whatever it is given |
| LegacyWrapper.Spdc.DeffPmPerVolt | src/lib.rs:355-364 | the reading times `PICO * M / V` is the stored field |
| LegacyWrapper.Spdc.SetDeffPmPerVolt | src/lib.rs:355-364 | stores value × `PICO * M / V` only; get-after-set returns the value; setting the current reading changes nothing |
| LegacyWrapper.Spdc.TryAsOptimum | src/lib.rs:366-371 | on success the setup becomes the engine's optimum and the same object is returned; on failure it raises and the setup is unchanged |

## Left out

- `src/joint_spectrum.rs` and `py-examples/simple.py` are not part of this model.
- Most of the engine is not modelled: parsing, validation, the optimisers, refraction, grid conversion, resolution changes, pair generation and all physics are uninterpreted functions of their inputs.
- These engine operations are given a concrete meaning instead, and the proofs named rely on it:
  - `PeriodicPoling::new` (src/spdc.rs:365, src/lib.rs:337) is the plain constructor `On(period, apodization)`. The get-after-set of `SetPolingPeriodUm` from `Off`, in both wrappers, rests on this.
  - `Beam::vacuum_wavelength` and `Beam::set_vacuum_wavelength` are `2πc/x` over a beam that stores only its angular frequency (`Units.Reciprocal2PiC`). The get-after-set and the unchanged-state clause of every wavelength setter rest on this.
  - `Steps2D(..).into()` and `.steps()` (src/spaces.rs:110, 137, 169, 196, 227, 254) store and return the steps unchanged. `Spaces.ReprInvertsConstructor`, `Spaces.GridSpace.Repr` and `Spaces.GridSpace.AsRange` rest on this.
  - `from_celsius_to_kelvin` and `from_kelvin_to_celsius` add and subtract 273.15. The temperature get-after-set rests on this.
  - `Beam::set_phi`, `set_theta_internal`, `set_waist` and `set_frequency` are plain field writes, and their getters plain field reads. The get-after-set and unchanged-state clauses of those setters rest on this.
- `to_yaml`, `to_json` and every `__repr__` string are left out, because they are serde serialisation and string formatting. For the grid classes, `__repr__` is modelled by the numbers it prints (`Spaces.ReprSteps`).
- Floating point is modelled by real numbers. IEEE rounding in the scale round trips is not captured, and neither is the OverflowError Python raises when an integer beyond the double range (for example `10**400`) is converted to a float: `Host.IsFloatLike` accepts every integer.
- `ApodizationCodec.RoundTrip`: for the six windowed kinds it assumes the engine's deserialiser reads back the kind name the engine prints, and that this name does not lower-case to `off`, `gaussian` or `interpolate` (`ApodizationCodec.EngineDecodesOwnKind`). The engine's naming and deserialisation are not part of this model.
- The wavelength↔frequency map `2πc/x` is taken to send 0 to 0. In floating point 0 maps to infinity.
- `SpdcWrapper.Spdc.SetSignalThetaExternalDeg`: get-after-set is stated only under `Engine.RefractionRoundTrips`, because the engine's refraction is not modelled.
- `SpdcWrapper.Spdc.SetIdlerThetaExternalDeg`: get-after-set is stated only under `Engine.RefractionRoundTrips`, for the same reason.
- `LegacyWrapper.Spdc.SetSignalThetaExternalDeg`: get-after-set is stated only under `Engine.RefractionRoundTrips`, for the same reason.
- `LegacyWrapper.Spdc.SetIdlerThetaExternalDeg`: get-after-set is stated only under `Engine.RefractionRoundTrips`, for the same reason.
- `ApodizationCodec.Lowercase`: lowers ASCII letters only. Rust's Unicode `to_lowercase` on non-ASCII kinds is not modelled.
- PyO3's TypeError messages from failed extractions are modelled by their kind, not their text.
- Argument conversion done by PyO3 before a method body runs is left out, because it is binding plumbing rather than wrapper logic. This covers integer overflow on `usize`, a non-dict given to the `apodization` setter, and tuples passed where a list is expected. `Vec<f64>` extraction is modelled for lists, and it refuses `str`.
- The `LegacyWrapper` panic message for `unwrap` is modelled as a fixed prefix plus the parser's message. Rust prints the error's `Debug` form.
- `get_jsi` (src/lib.rs:374-379) computes a joint spectrum entirely in the engine. Module registration (src/lib.rs:381-388) is PyO3 plumbing. Neither is modelled.
