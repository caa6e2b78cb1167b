/** The host-facing `Integrator` constructors and their default arguments. */
module Integrators {
  import opened Wrappers
  import Engine

  const DEFAULT_SIMPSON_DIVS: Engine.Usize := 50
  const DEFAULT_TOLERANCE: real := 100000.0
  const DEFAULT_MAX_DEPTH: Engine.Usize := 1000000
  const DEFAULT_GAUSS_LEGENDRE_DEGREE: Engine.Usize := 40

  /** `Option::unwrap_or`. */
  function UnwrapOr<T>(o: Option<T>, fallback: T): T {
    if o.Some? then o.value else fallback
  }

  /** `Integrator::default()`: whatever the engine's default is. */
  function Default(engineDefault: Engine.Integrator): (r: Engine.Integrator)
    ensures r == engineDefault
  {
    engineDefault
  }

  /** `Integrator.simpson(divs=None)`. */
  function Simpson(divs: Option<Engine.Usize>): (r: Engine.Integrator)
    ensures r.Simpson?
    ensures divs.Some? ==> r.divs == divs.value
    ensures divs.None? ==> r.divs == 50
  {
    Engine.Integrator.Simpson(UnwrapOr(divs, DEFAULT_SIMPSON_DIVS))
  }

  /** `Integrator.adaptive_simpson(tolerance=None, max_depth=None)`. */
  function AdaptiveSimpson(tolerance: Option<real>, maxDepth: Option<Engine.Usize>): (r: Engine.Integrator)
    ensures r.AdaptiveSimpson?
    ensures r.tolerance == if tolerance.Some? then tolerance.value else 100000.0
    ensures r.maxDepth == if maxDepth.Some? then maxDepth.value else 1000000
  {
    Engine.Integrator.AdaptiveSimpson(UnwrapOr(tolerance, DEFAULT_TOLERANCE), UnwrapOr(maxDepth, DEFAULT_MAX_DEPTH))
  }

  /** `Integrator.gauss_konrod(tolerance=None, max_depth=None)`. */
  function GaussKonrod(tolerance: Option<real>, maxDepth: Option<Engine.Usize>): (r: Engine.Integrator)
    ensures r.GaussKonrod?
    ensures r.tolerance == if tolerance.Some? then tolerance.value else 100000.0
    ensures r.maxDepth == if maxDepth.Some? then maxDepth.value else 1000000
  {
    Engine.Integrator.GaussKonrod(UnwrapOr(tolerance, DEFAULT_TOLERANCE), UnwrapOr(maxDepth, DEFAULT_MAX_DEPTH))
  }

  /** `Integrator.gauss_legendre(degree=None)`. */
  function GaussLegendre(degree: Option<Engine.Usize>): (r: Engine.Integrator)
    ensures r.GaussLegendre?
    ensures r.degree == if degree.Some? then degree.value else 40
  {
    Engine.Integrator.GaussLegendre(UnwrapOr(degree, DEFAULT_GAUSS_LEGENDRE_DEGREE))
  }

  /** `Integrator.clenshaw_curtis(tolerance=None)`. */
  function ClenshawCurtis(tolerance: Option<real>): (r: Engine.Integrator)
    ensures r.ClenshawCurtis?
    ensures r.tolerance == if tolerance.Some? then tolerance.value else 100000.0
  {
    Engine.Integrator.ClenshawCurtis(UnwrapOr(tolerance, DEFAULT_TOLERANCE))
  }

  /** Omitting an argument is the same as passing its documented default. */
  lemma OmittedArgumentsAreDefaults(t: Option<real>, d: Option<Engine.Usize>)
    ensures Simpson(None) == Simpson(Some(50))
    ensures AdaptiveSimpson(None, d) == AdaptiveSimpson(Some(100000.0), d)
    ensures AdaptiveSimpson(t, None) == AdaptiveSimpson(t, Some(1000000))
    ensures GaussKonrod(None, d) == GaussKonrod(Some(100000.0), d)
    ensures GaussKonrod(t, None) == GaussKonrod(t, Some(1000000))
    ensures GaussLegendre(None) == GaussLegendre(Some(40))
    ensures ClenshawCurtis(None) == ClenshawCurtis(Some(100000.0))
  {
  }
}
