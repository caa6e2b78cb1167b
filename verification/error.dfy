/** Translation of engine failures into the host's exception channel. */
module SpdcErrors {
  import opened Wrappers
  import opened Host
  import Engine

  /** `PySpdcError`: an engine error on its way to the host. */
  datatype PySpdcError = PySpdcError(inner: Engine.SPDCError)

  /** `From<SPDCError> for PySpdcError`: wraps the engine error unchanged. */
  function FromEngine(err: Engine.SPDCError): (w: PySpdcError)
    ensures w.inner == err
  {
    PySpdcError(err)
  }

  /** `From<PySpdcError> for PyErr`: always a ValueError carrying the engine's message. */
  function IntoPyErr(err: PySpdcError): (e: PyErr)
    ensures e.kind == ValueError
    ensures e.message == err.inner.display
  {
    PyErr(ValueError, err.inner.display)
  }

  /** The `?` operator on an engine result inside a binding that returns to the host. */
  function Raise<T>(r: Result<T, Engine.SPDCError>): (p: PyResult<T>)
    ensures p.Ok? <==> r.Ok?
    ensures r.Ok? ==> p.value == r.value
    ensures r.Err? ==> p.error == IntoPyErr(FromEngine(r.error))
  {
    match r
    case Ok(v) => Ok(v)
    case Err(e) => Err(IntoPyErr(FromEngine(e)))
  }

  /**
   * The whole translation is total and faithful: every engine error reaches
   * the host as a ValueError, and two engine errors reach it as the same
   * exception exactly when their messages agree.
   */
  lemma TranslationFaithful(a: Engine.SPDCError, b: Engine.SPDCError)
    ensures IntoPyErr(FromEngine(a)).kind == ValueError
    ensures IntoPyErr(FromEngine(a)).message == a.display
    ensures IntoPyErr(FromEngine(a)) == IntoPyErr(FromEngine(b)) <==> a.display == b.display
  {
  }
}
