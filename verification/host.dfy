/**
 * The host (Python) side of the boundary, as far as the bindings inspect it:
 * the objects they read and build, the exceptions they raise, and the
 * extraction rules the binding framework applies when a Rust value is asked
 * for.
 */
module Host {
  import opened Wrappers

  /** The Python exception class raised back to the caller. */
  datatype PyErrKind = KeyError | TypeError | ValueError

  datatype PyErr = PyErr(kind: PyErrKind, message: string)

  type PyResult<T> = Result<T, PyErr>

  /** A Python object; dictionaries are keyed by strings. */
  datatype PyValue =
    | PyNone
    | PyInt(i: int)
    | PyFloat(f: real)
    | PyStr(s: string)
    | PyList(items: seq<PyValue>)
    | PyDict(entries: map<string, PyValue>)

  type PyDictValue = map<string, PyValue>

  /** Values that `extract::<f64>()` accepts: floats, and ints by conversion. */
  predicate IsFloatLike(v: PyValue) {
    v.PyFloat? || v.PyInt?
  }

  function FloatOf(v: PyValue): real
    requires IsFloatLike(v)
  {
    if v.PyFloat? then v.f else v.i as real
  }

  /** `extract::<f64>()`. */
  function ExtractFloat(v: PyValue): (r: PyResult<real>)
    ensures r.Ok? <==> IsFloatLike(v)
    ensures r.Ok? ==> r.value == FloatOf(v)
    ensures r.Err? ==> r.error.kind == TypeError
  {
    match v
    case PyFloat(f) => Ok(f)
    case PyInt(i) => Ok(i as real)
    case _ => Err(PyErr(TypeError, "must be real number"))
  }

  /** `extract::<String>()`. */
  function ExtractString(v: PyValue): (r: PyResult<string>)
    ensures r.Ok? <==> v.PyStr?
    ensures r.Ok? ==> r.value == v.s
    ensures r.Err? ==> r.error.kind == TypeError
  {
    if v.PyStr? then Ok(v.s) else Err(PyErr(TypeError, "object cannot be converted to 'PyString'"))
  }

  /** `downcast::<PyDict>()`; a failed downcast surfaces as a TypeError. */
  function DowncastDict(v: PyValue): (r: PyResult<PyDictValue>)
    ensures r.Ok? <==> v.PyDict?
    ensures r.Ok? ==> r.value == v.entries
    ensures r.Err? ==> r.error.kind == TypeError
  {
    if v.PyDict? then Ok(v.entries) else Err(PyErr(TypeError, "object cannot be converted to 'PyDict'"))
  }

  /** The elements of a list, extracted one by one, left to right. */
  function ExtractFloats(items: seq<PyValue>): (r: PyResult<seq<real>>)
    ensures r.Ok? <==> forall i :: 0 <= i < |items| ==> IsFloatLike(items[i])
    ensures r.Ok? ==> |r.value| == |items|
    ensures r.Ok? ==> forall i :: 0 <= i < |items| ==> r.value[i] == FloatOf(items[i])
    ensures r.Err? ==> r.error.kind == TypeError
  {
    if items == [] then Ok([])
    else
      match ExtractFloat(items[0])
      case Err(e) => Err(e)
      case Ok(x) =>
        match ExtractFloats(items[1..])
        case Err(e) => Err(e)
        case Ok(xs) => Ok([x] + xs)
  }

  /**
   * `extract::<Vec<f64>>()`: a `str` is refused even though it is a sequence,
   * any other non-list is refused, and a list is extracted element-wise.
   */
  function ExtractFloatList(v: PyValue): (r: PyResult<seq<real>>)
    ensures r.Ok? <==> v.PyList? && forall i :: 0 <= i < |v.items| ==> IsFloatLike(v.items[i])
    ensures r.Ok? ==> |r.value| == |v.items|
    ensures r.Ok? ==> forall i :: 0 <= i < |v.items| ==> r.value[i] == FloatOf(v.items[i])
    ensures r.Err? ==> r.error.kind == TypeError
  {
    match v
    case PyStr(_) => Err(PyErr(TypeError, "Can't extract `str` to `Vec`"))
    case PyList(items) => ExtractFloats(items)
    case _ => Err(PyErr(TypeError, "object cannot be converted to 'Sequence'"))
  }

  /** A Rust `Vec<f64>` handed to Python: a list of floats in the same order. */
  function FloatList(xs: seq<real>): (r: seq<PyValue>)
    ensures |r| == |xs|
    ensures forall i :: 0 <= i < |xs| ==> r[i] == PyFloat(xs[i])
  {
    seq(|xs|, i requires 0 <= i < |xs| => PyFloat(xs[i]))
  }

  /** Converting a vector to Python and extracting it again gives it back. */
  lemma FloatListRoundTrip(xs: seq<real>)
    ensures ExtractFloatList(PyList(FloatList(xs))) == Ok(xs)
  {
    var r := ExtractFloatList(PyList(FloatList(xs)));
    assert r.Ok?;
    assert r.value == xs;
  }
}
