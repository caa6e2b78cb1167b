/**
 * The codec between the engine's apodization windows and the host's loosely
 * typed dictionary `{"kind": str, "parameter": ...}`.
 */
module ApodizationCodec {
  import opened Wrappers
  import opened Host
  import opened Units
  import Engine

  const MISSING_KIND: string := "Expecting 'kind' key in apodization config."
  const MISSING_PARAMETER: string := "Expecting 'parameter' key in apodization config."
  const MISSING_FWHM: string :=
    "Expecting dictionary with 'fwhm_um' key as gaussian apodization parameter value."

  /** Lower-casing of one character (ASCII letters only). */
  function LowerChar(c: char): char {
    if 'A' <= c <= 'Z' then (c as int + 32) as char else c
  }

  /** `str::to_lowercase`, restricted to ASCII. */
  function Lowercase(s: string): (r: string)
    ensures |r| == |s|
    ensures forall i :: 0 <= i < |s| ==> r[i] == LowerChar(s[i])
  {
    seq(|s|, i requires 0 <= i < |s| => LowerChar(s[i]))
  }

  /** The kinds the decoder handles itself rather than handing to the engine. */
  predicate IsSpecialKind(lower: string) {
    lower == "off" || lower == "gaussian" || lower == "interpolate"
  }

  /** The `gaussian` parameter: a dictionary holding the FWHM in micrometres. */
  function DecodeGaussian(param: PyValue): (r: PyResult<Engine.Apodization>)
    ensures r.Ok? <==> param.PyDict? && "fwhm_um" in param.entries && IsFloatLike(param.entries["fwhm_um"])
    ensures r.Ok? ==> r.value == Engine.Apodization.Gaussian(FloatOf(param.entries["fwhm_um"]) * MICRO * M)
    ensures !param.PyDict? ==> r.Err? && r.error.kind == TypeError
    ensures param.PyDict? && "fwhm_um" !in param.entries ==> r == Err(PyErr(KeyError, MISSING_FWHM))
    ensures param.PyDict? && "fwhm_um" in param.entries && !IsFloatLike(param.entries["fwhm_um"]) ==>
              r.Err? && r.error.kind == TypeError
  {
    match DowncastDict(param)
    case Err(e) => Err(e)
    case Ok(entries) =>
      if "fwhm_um" !in entries then Err(PyErr(KeyError, MISSING_FWHM))
      else
        match ExtractFloat(entries["fwhm_um"])
        case Err(e) => Err(e)
        case Ok(fwhm) => Ok(Engine.Apodization.Gaussian(fwhm * MICRO * M))
  }

  /** The dispatch on the lower-cased kind, once both keys are known present. */
  function DecodeKind(kind: string, param: PyValue, lib: Engine.ApodizationLibrary): (r: PyResult<Engine.Apodization>)
    ensures Lowercase(kind) == "off" ==> r == Ok(Engine.Apodization.Off)
    ensures Lowercase(kind) == "gaussian" ==> r == DecodeGaussian(param)
    ensures Lowercase(kind) == "interpolate" ==> (r.Ok? <==> ExtractFloatList(param).Ok?)
    ensures Lowercase(kind) == "interpolate" && r.Ok? ==> r.value == Engine.Apodization.Interpolate(ExtractFloatList(param).value)
    ensures !IsSpecialKind(Lowercase(kind)) && !IsFloatLike(param) ==> r.Err? && r.error.kind == TypeError
    ensures !IsSpecialKind(Lowercase(kind)) && IsFloatLike(param) ==>
              (r.Ok? <==> lib.deserialize(kind, FloatOf(param)).Ok?)
    ensures !IsSpecialKind(Lowercase(kind)) && IsFloatLike(param) && r.Ok? ==> r.value == lib.deserialize(kind, FloatOf(param)).value
    ensures !IsSpecialKind(Lowercase(kind)) && IsFloatLike(param) && r.Err? ==>
              r.error == PyErr(ValueError, lib.deserialize(kind, FloatOf(param)).error)
  {
    var lower := Lowercase(kind);
    if lower == "off" then Ok(Engine.Apodization.Off)
    else if lower == "gaussian" then DecodeGaussian(param)
    else if lower == "interpolate" then
      match ExtractFloatList(param)
      case Err(e) => Err(e)
      case Ok(points) => Ok(Engine.Apodization.Interpolate(points))
    else
      match ExtractFloat(param)
      case Err(e) => Err(e)
      case Ok(p) =>
        match lib.deserialize(kind, p)
        case Err(msg) => Err(PyErr(ValueError, msg))
        case Ok(a) => Ok(a)
  }

  /**
   * `apodization_from_py_dict`.  Both keys are looked up before the kind is
   * examined, so a missing `parameter` is an error for every kind.
   */
  function Decode(dict: PyDictValue, lib: Engine.ApodizationLibrary): (r: PyResult<Engine.Apodization>)
    ensures "kind" !in dict ==> r == Err(PyErr(KeyError, MISSING_KIND))
    ensures "kind" in dict && !dict["kind"].PyStr? ==> r.Err? && r.error.kind == TypeError
    ensures "kind" in dict && dict["kind"].PyStr? && "parameter" !in dict ==> r == Err(PyErr(KeyError, MISSING_PARAMETER))
    ensures r.Ok? ==> "kind" in dict && dict["kind"].PyStr? && "parameter" in dict
    ensures "kind" in dict && dict["kind"].PyStr? && "parameter" in dict ==>
              r == DecodeKind(dict["kind"].s, dict["parameter"], lib)
  {
    if "kind" !in dict then Err(PyErr(KeyError, MISSING_KIND))
    else
      match ExtractString(dict["kind"])
      case Err(e) => Err(e)
      case Ok(kind) =>
        if "parameter" !in dict then Err(PyErr(KeyError, MISSING_PARAMETER))
        else DecodeKind(kind, dict["parameter"], lib)
  }

  /**
   * `apodization_to_py_dict`.  `Off` gets no `parameter` key; every other
   * window gets exactly `kind` and `parameter`.
   */
  function Encode(a: Engine.Apodization, lib: Engine.ApodizationLibrary): (d: PyDictValue)
    ensures "kind" in d && d["kind"].PyStr?
    ensures d.Keys == if a.Off? then {"kind"} else {"kind", "parameter"}
    ensures a.Off? ==> d["kind"] == PyStr("off")
    ensures a.Gaussian? ==>
              && d["kind"] == PyStr("gaussian")
              && d["parameter"] == PyDict(map["fwhm_um" := PyFloat(a.fwhm / MICRO / M)])
    ensures a.Interpolate? ==>
              && d["kind"] == PyStr("interpolate")
              && d["parameter"].PyList?
              && ExtractFloatList(d["parameter"]) == Ok(a.points)
    ensures a.IsWindowed() ==> d["kind"] == PyStr(lib.kindName(a)) && d["parameter"] == PyFloat(a.p)
  {
    match a
    case Off => map["kind" := PyStr("off")]
    case Gaussian(fwhm) =>
      var fwhmUm := fwhm / MICRO / M;
      map["kind" := PyStr("gaussian"), "parameter" := PyDict(map["fwhm_um" := PyFloat(fwhmUm)])]
    case Interpolate(points) =>
      FloatListRoundTrip(points);
      map["kind" := PyStr("interpolate"), "parameter" := PyList(FloatList(points))]
    case _ =>
      map["kind" := PyStr(lib.kindName(a)), "parameter" := PyFloat(a.p)]
  }

  /** What the engine must guarantee for a windowed kind to survive a round trip. */
  predicate EngineDecodesOwnKind(lib: Engine.ApodizationLibrary, a: Engine.Apodization)
    requires a.IsWindowed()
  {
    && !IsSpecialKind(Lowercase(lib.kindName(a)))
    && lib.deserialize(lib.kindName(a), a.p) == Ok(a)
  }

  /** The three literal kinds are already lower case. */
  lemma LiteralKindsAreLowercase()
    ensures Lowercase("off") == "off"
    ensures Lowercase("gaussian") == "gaussian"
    ensures Lowercase("interpolate") == "interpolate"
  {
  }

  /**
   * `decode(encode(a)) == a` for every window except `Off`, whose encoding
   * lacks the `parameter` key the decoder insists on.
   */
  lemma RoundTrip(a: Engine.Apodization, lib: Engine.ApodizationLibrary)
    requires a.IsWindowed() ==> EngineDecodesOwnKind(lib, a)
    ensures a.Off? ==> Decode(Encode(a, lib), lib) == Err(PyErr(KeyError, MISSING_PARAMETER))
    ensures !a.Off? ==> Decode(Encode(a, lib), lib) == Ok(a)
  {
  }

  /** A dictionary holding `kind` (a string) and `parameter`. */
  function KindAndParameter(kind: string, param: PyValue): PyDictValue {
    map["kind" := PyStr(kind), "parameter" := param]
  }

  /** `off`, `gaussian` and `interpolate` are recognised in any letter case. */
  lemma SpecialKindsIgnoreCase(k1: string, k2: string, param: PyValue, lib: Engine.ApodizationLibrary)
    requires Lowercase(k1) == Lowercase(k2)
    requires IsSpecialKind(Lowercase(k1))
    ensures Decode(KindAndParameter(k1, param), lib) == Decode(KindAndParameter(k2, param), lib)
  {
  }

  /** Decoding `off` ignores the parameter's value, but not its presence. */
  lemma OffIgnoresParameterValue(kind: string, param: PyValue, lib: Engine.ApodizationLibrary)
    requires Lowercase(kind) == "off"
    ensures Decode(KindAndParameter(kind, param), lib) == Ok(Engine.Apodization.Off)
    ensures Decode(map["kind" := PyStr(kind)], lib) == Err(PyErr(KeyError, MISSING_PARAMETER))
  {
  }

  /**
   * Any other kind reaches the engine's deserialiser in its original case,
   * with the parameter as a float; a non-float parameter fails first, and a
   * deserialiser failure becomes a ValueError with the deserialiser's text.
   */
  lemma OtherKindsForwarded(kind: string, param: PyValue, lib: Engine.ApodizationLibrary)
    requires !IsSpecialKind(Lowercase(kind))
    ensures !IsFloatLike(param) ==>
              && Decode(KindAndParameter(kind, param), lib).Err?
              && Decode(KindAndParameter(kind, param), lib).error.kind == TypeError
    ensures IsFloatLike(param) ==>
              Decode(KindAndParameter(kind, param), lib) ==
                (match lib.deserialize(kind, FloatOf(param))
                 case Ok(a) => Ok(a)
                 case Err(msg) => Err(PyErr(ValueError, msg)))
  {
  }

  /** `gaussian` stores `fwhm_um * MICRO * M` and fails without a dictionary holding `fwhm_um`. */
  lemma GaussianDecoding(kind: string, param: PyValue, lib: Engine.ApodizationLibrary)
    requires Lowercase(kind) == "gaussian"
    ensures Decode(KindAndParameter(kind, param), lib) == DecodeGaussian(param)
  {
  }

  /**
   * `interpolate` accepts exactly what extracts as a list of floats; a
   * string, a dictionary or a list holding a non-float is a TypeError.
   */
  lemma InterpolateDecoding(kind: string, param: PyValue, lib: Engine.ApodizationLibrary)
    requires Lowercase(kind) == "interpolate"
    ensures Decode(KindAndParameter(kind, param), lib) ==
              (match ExtractFloatList(param)
               case Ok(points) => Ok(Engine.Apodization.Interpolate(points))
               case Err(e) => Err(e))
    ensures !param.PyList? ==> Decode(KindAndParameter(kind, param), lib).Err?
                               && Decode(KindAndParameter(kind, param), lib).error.kind == TypeError
  {
  }

  /** `interpolate` keeps any list of floats, of any length, unchanged and in order. */
  lemma InterpolateKeepsPoints(kind: string, points: seq<real>, lib: Engine.ApodizationLibrary)
    requires Lowercase(kind) == "interpolate"
    ensures Decode(KindAndParameter(kind, PyList(FloatList(points))), lib) == Ok(Engine.Apodization.Interpolate(points))
  {
    FloatListRoundTrip(points);
  }
}
