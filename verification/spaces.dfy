/**
 * The signal/idler coordinate spaces: the five-variant range the host passes
 * in, its partial conversion to a frequency grid, the host-side grid and
 * array objects, and the type-erased iterator over (signal, idler) pairs.
 */
module Spaces {
  import opened Wrappers
  import opened Host
  import opened Units
  import Engine

  /** `SIRange`: a range in one of five shapes, each wrapping an engine value. */
  datatype SIRange =
    | FrequencySpace(fs: Engine.FrequencySpace)
    | FrequencyArray(fa: Engine.SignalIdlerFrequencyArray)
    | Wavelength(ws: Engine.WavelengthSpace)
    | WavelengthArray(wa: Engine.SignalIdlerWavelengthArray)
    | SumDiffFrequency(sdfs: Engine.SumDiffFrequencySpace)
  {
    predicate IsArray() {
      FrequencyArray? || WavelengthArray?
    }
  }

  const FREQUENCY_ARRAY_REJECTED: string := "Cannot convert FrequencyArray to FrequencySpace"
  const WAVELENGTH_ARRAY_REJECTED: string := "Cannot convert WavelengthArray to FrequencySpace"

  // ------------------------------------------------------- conversion

  /**
   * `TryFrom<SIRange> for FrequencySpace`: arrays are refused with a fixed
   * message per variant; every grid converts.
   */
  function ToFrequencySpace(r: SIRange, lib: Engine.SpaceLibrary): (res: PyResult<Engine.FrequencySpace>)
    ensures res.Err? <==> r.IsArray()
    ensures r.FrequencyArray? ==> res == Err(PyErr(ValueError, FREQUENCY_ARRAY_REJECTED))
    ensures r.WavelengthArray? ==> res == Err(PyErr(ValueError, WAVELENGTH_ARRAY_REJECTED))
    ensures r.FrequencySpace? ==> res == Ok(r.fs)
    ensures r.Wavelength? ==> res == Ok(lib.wavelengthAsFrequencySpace(r.ws))
    ensures r.SumDiffFrequency? ==> res == Ok(lib.sumDiffAsFrequencySpace(r.sdfs))
  {
    match r
    case FrequencySpace(fs) => Ok(fs)
    case FrequencyArray(_) => Err(PyErr(ValueError, FREQUENCY_ARRAY_REJECTED))
    case Wavelength(ws) => Ok(lib.wavelengthAsFrequencySpace(ws))
    case WavelengthArray(_) => Err(PyErr(ValueError, WAVELENGTH_ARRAY_REJECTED))
    case SumDiffFrequency(sdfs) => Ok(lib.sumDiffAsFrequencySpace(sdfs))
  }

  // The `From` impls into `SIRange`.

  function FromFrequencySpace(fs: Engine.FrequencySpace): (r: SIRange)
    ensures r.FrequencySpace? && r.fs == fs
  {
    FrequencySpace(fs)
  }

  function FromFrequencyArray(fa: Engine.SignalIdlerFrequencyArray): (r: SIRange)
    ensures r.FrequencyArray? && r.fa == fa
  {
    FrequencyArray(fa)
  }

  function FromWavelengthSpace(ws: Engine.WavelengthSpace): (r: SIRange)
    ensures r.Wavelength? && r.ws == ws
  {
    Wavelength(ws)
  }

  function FromWavelengthArray(wa: Engine.SignalIdlerWavelengthArray): (r: SIRange)
    ensures r.WavelengthArray? && r.wa == wa
  {
    WavelengthArray(wa)
  }

  function FromSumDiffFrequencySpace(sdfs: Engine.SumDiffFrequencySpace): (r: SIRange)
    ensures r.SumDiffFrequency? && r.sdfs == sdfs
  {
    SumDiffFrequency(sdfs)
  }

  /**
   * Converting an injected range back to a frequency grid gives the same
   * grid for a frequency grid, some grid for the other two grids, and an
   * error for either array.
   */
  lemma InjectionsMatchVariants(
    lib: Engine.SpaceLibrary,
    fs: Engine.FrequencySpace, fa: Engine.SignalIdlerFrequencyArray, ws: Engine.WavelengthSpace,
    wa: Engine.SignalIdlerWavelengthArray, sdfs: Engine.SumDiffFrequencySpace)
    ensures ToFrequencySpace(FromFrequencySpace(fs), lib) == Ok(fs)
    ensures ToFrequencySpace(FromFrequencyArray(fa), lib).Err?
    ensures ToFrequencySpace(FromWavelengthArray(wa), lib).Err?
    ensures ToFrequencySpace(FromWavelengthSpace(ws), lib).Ok?
    ensures ToFrequencySpace(FromSumDiffFrequencySpace(sdfs), lib).Ok?
  {
  }

  // ------------------------------------------------------- grid objects

  /** Which of the three host grid classes an object is. */
  datatype GridKind = FrequencyGrid | WavelengthGrid | SumDiffFrequencyGrid

  /** The host unit of a grid's bounds: rad/s for the frequency grids, metres for wavelength. */
  function GridUnit(kind: GridKind): (u: real)
    ensures u > 0.0
  {
    if kind == WavelengthGrid then M else RAD * HZ
  }

  /** `(start, stop, count)` as the host passes one axis. */
  type AxisArgs = (real, real, Engine.Usize)

  function ScaleAxis(a: AxisArgs, unit: real): Engine.Axis {
    Engine.Axis(a.0 * unit, a.1 * unit, a.2)
  }

  function ReprAxis(ax: Engine.Axis, unit: real): AxisArgs
    requires unit != 0.0
  {
    (ax.start / unit, ax.stop / unit, ax.count)
  }

  /** The steps a grid constructor stores: both bounds scaled, counts unchanged. */
  function NewSteps(kind: GridKind, xsteps: AxisArgs, ysteps: AxisArgs): (s: Engine.Steps2D)
    ensures s.x.start == xsteps.0 * GridUnit(kind) && s.x.stop == xsteps.1 * GridUnit(kind)
    ensures s.y.start == ysteps.0 * GridUnit(kind) && s.y.stop == ysteps.1 * GridUnit(kind)
    ensures s.x.count == xsteps.2 && s.y.count == ysteps.2
  {
    Engine.Steps2D(ScaleAxis(xsteps, GridUnit(kind)), ScaleAxis(ysteps, GridUnit(kind)))
  }

  /** What `__repr__` prints for stored steps: each bound divided by the same unit. */
  function ReprSteps(kind: GridKind, s: Engine.Steps2D): (r: (AxisArgs, AxisArgs))
    ensures r.0.0 * GridUnit(kind) == s.x.start && r.0.1 * GridUnit(kind) == s.x.stop && r.0.2 == s.x.count
    ensures r.1.0 * GridUnit(kind) == s.y.start && r.1.1 * GridUnit(kind) == s.y.stop && r.1.2 == s.y.count
  {
    (ReprAxis(s.x, GridUnit(kind)), ReprAxis(s.y, GridUnit(kind)))
  }

  /** `__repr__` recovers exactly the arguments the constructor was given. */
  lemma ReprInvertsConstructor(kind: GridKind, xsteps: AxisArgs, ysteps: AxisArgs)
    ensures ReprSteps(kind, NewSteps(kind, xsteps, ysteps)) == (xsteps, ysteps)
  {
  }

  /** The engine's `set_resolution` for a grid of the given kind. */
  function WithResolution(lib: Engine.SpaceLibrary, kind: GridKind, s: Engine.Steps2D, n: Engine.Usize): Engine.Steps2D {
    match kind
    case FrequencyGrid => lib.frequencyWithResolution(Engine.FrequencySpace(s), n).steps
    case WavelengthGrid => lib.wavelengthWithResolution(Engine.WavelengthSpace(s), n).steps
    case SumDiffFrequencyGrid => lib.sumDiffWithResolution(Engine.SumDiffFrequencySpace(s), n).steps
  }

  /** The engine's grid-to-grid `From` conversion between two different kinds. */
  function Converted(lib: Engine.SpaceLibrary, from: GridKind, to: GridKind, s: Engine.Steps2D): Engine.Steps2D
    requires from != to
  {
    match (from, to)
    case (FrequencyGrid, WavelengthGrid) => lib.frequencyToWavelength(Engine.FrequencySpace(s)).steps
    case (FrequencyGrid, SumDiffFrequencyGrid) => lib.frequencyToSumDiff(Engine.FrequencySpace(s)).steps
    case (WavelengthGrid, FrequencyGrid) => lib.wavelengthToFrequency(Engine.WavelengthSpace(s)).steps
    case (WavelengthGrid, SumDiffFrequencyGrid) => lib.wavelengthToSumDiff(Engine.WavelengthSpace(s)).steps
    case (SumDiffFrequencyGrid, FrequencyGrid) => lib.sumDiffToFrequency(Engine.SumDiffFrequencySpace(s)).steps
    case (SumDiffFrequencyGrid, WavelengthGrid) => lib.sumDiffToWavelength(Engine.SumDiffFrequencySpace(s)).steps
  }

  /**
   * A host `FrequencySpace`, `WavelengthSpace` or `SumDiffFrequencySpace`
   * object: a mutable cell around the engine grid it wraps.
   */
  class GridSpace {
    const kind: GridKind
    var steps: Engine.Steps2D

    /** `new(xsteps, ysteps)`, bounds in the kind's host unit. */
    constructor (kind: GridKind, xsteps: AxisArgs, ysteps: AxisArgs)
      ensures this.kind == kind
      ensures steps == NewSteps(kind, xsteps, ysteps)
      ensures Repr() == (xsteps, ysteps)
    {
      this.kind := kind;
      steps := NewSteps(kind, xsteps, ysteps);
      ReprInvertsConstructor(kind, xsteps, ysteps);
    }

    /** `From<engine grid>`: wraps an engine value unchanged. */
    constructor Wrap(kind: GridKind, steps: Engine.Steps2D)
      ensures this.kind == kind && this.steps == steps
    {
      this.kind := kind;
      this.steps := steps;
    }

    /** `__repr__`'s numbers. */
    function Repr(): (r: (AxisArgs, AxisArgs))
      reads this
      ensures r.0.0 * GridUnit(kind) == steps.x.start && r.0.1 * GridUnit(kind) == steps.x.stop && r.0.2 == steps.x.count
      ensures r.1.0 * GridUnit(kind) == steps.y.start && r.1.1 * GridUnit(kind) == steps.y.stop && r.1.2 == steps.y.count
    {
      ReprSteps(kind, steps)
    }

    /** The `SIRange` the object extracts to when a range is expected. */
    function AsRange(): (r: SIRange)
      reads this
      ensures !r.IsArray()
      ensures kind == FrequencyGrid ==> r == FrequencySpace(Engine.FrequencySpace(steps))
      ensures kind == WavelengthGrid ==> r == Wavelength(Engine.WavelengthSpace(steps))
      ensures kind == SumDiffFrequencyGrid ==> r == SumDiffFrequency(Engine.SumDiffFrequencySpace(steps))
    {
      match kind
      case FrequencyGrid => FrequencySpace(Engine.FrequencySpace(steps))
      case WavelengthGrid => Wavelength(Engine.WavelengthSpace(steps))
      case SumDiffFrequencyGrid => SumDiffFrequency(Engine.SumDiffFrequencySpace(steps))
    }

    /**
     * `set_resolution`: updates this object in place and hands the same
     * object back; the kind cannot change.
     */
    method SetResolution(lib: Engine.SpaceLibrary, n: Engine.Usize) returns (self: GridSpace)
      modifies this
      ensures self == this
      ensures steps == WithResolution(lib, kind, old(steps), n)
    {
      steps := WithResolution(lib, kind, steps, n);
      self := this;
    }

    /**
     * `to_*` and the matching static `from_*`: a new object of another kind;
     * this one is left as it was.
     */
    method ConvertTo(lib: Engine.SpaceLibrary, target: GridKind) returns (g: GridSpace)
      requires target != kind
      ensures fresh(g)
      ensures g.kind == target
      ensures g.steps == Converted(lib, kind, target, steps)
    {
      g := new GridSpace.Wrap(target, Converted(lib, kind, target, steps));
    }
  }

  // ------------------------------------------------------- array objects

  /** Every element multiplied by `unit`, in order. */
  function ScaleEach(xs: seq<real>, unit: real): (ys: seq<real>)
    ensures |ys| == |xs|
    ensures forall i :: 0 <= i < |xs| ==> ys[i] == xs[i] * unit
  {
    if xs == [] then [] else [xs[0] * unit] + ScaleEach(xs[1..], unit)
  }

  /** Host `FrequencyArray(frequencies)`: every value times `RAD * HZ`. */
  function NewFrequencyArray(frequencies: seq<real>): (a: Engine.SignalIdlerFrequencyArray)
    ensures |a.frequencies| == |frequencies|
    ensures forall i :: 0 <= i < |frequencies| ==> a.frequencies[i] == frequencies[i] * RAD * HZ
  {
    Engine.SignalIdlerFrequencyArray(ScaleEach(frequencies, RAD * HZ))
  }

  /** Host `WavelengthArray(wavelengths)`: every value, given in metres, times `M`. */
  function NewWavelengthArray(wavelengths: seq<real>): (a: Engine.SignalIdlerWavelengthArray)
    ensures |a.wavelengths| == |wavelengths|
    ensures forall i :: 0 <= i < |wavelengths| ==> a.wavelengths[i] == wavelengths[i] * M
  {
    Engine.SignalIdlerWavelengthArray(ScaleEach(wavelengths, M))
  }

  // ------------------------------------------------------- iteration

  /** The sequence the wrapped variant's own iterator yields. */
  function VariantPairs(r: SIRange, lib: Engine.SpaceLibrary): seq<Engine.FrequencyPair> {
    match r
    case FrequencySpace(fs) => lib.frequencyPairs(fs)
    case FrequencyArray(fa) => lib.frequencyArrayPairs(fa)
    case Wavelength(ws) => lib.wavelengthPairs(ws)
    case WavelengthArray(wa) => lib.wavelengthArrayPairs(wa)
    case SumDiffFrequency(sdfs) => lib.sumDiffPairs(sdfs)
  }

  /** An engine iterator behind the box: what it will yield, and how far it has got. */
  class PairCursor {
    const pairs: seq<Engine.FrequencyPair>
    var position: nat

    ghost predicate Valid()
      reads this
    {
      position <= |pairs|
    }

    function Remaining(): seq<Engine.FrequencyPair>
      reads this
      requires Valid()
    {
      pairs[position..]
    }

    constructor (pairs: seq<Engine.FrequencyPair>)
      ensures Valid() && this.pairs == pairs && Remaining() == pairs
    {
      this.pairs := pairs;
      position := 0;
    }

    method Next() returns (item: Option<Engine.FrequencyPair>)
      requires Valid()
      modifies this
      ensures Valid()
      ensures old(Remaining()) == [] ==> item == None && Remaining() == []
      ensures old(Remaining()) != [] ==> item == Some(old(Remaining())[0]) && Remaining() == old(Remaining())[1..]
    {
      if position == |pairs| {
        item := None;
      } else {
        item := Some(pairs[position]);
        position := position + 1;
      }
    }
  }

  /** `SIIterator`: the boxed iterator; `next` only forwards to the box. */
  class SIIterator {
    const inner: PairCursor

    ghost predicate Valid()
      reads this, inner
    {
      inner.Valid()
    }

    function Remaining(): seq<Engine.FrequencyPair>
      reads this, inner
      requires Valid()
    {
      inner.Remaining()
    }

    constructor (inner: PairCursor)
      requires inner.Valid()
      ensures this.inner == inner && Valid()
    {
      this.inner := inner;
    }

    method Next() returns (item: Option<Engine.FrequencyPair>)
      requires Valid()
      modifies inner
      ensures Valid()
      ensures old(Remaining()) == [] ==> item == None && Remaining() == []
      ensures old(Remaining()) != [] ==> item == Some(old(Remaining())[0]) && Remaining() == old(Remaining())[1..]
    {
      item := inner.Next();
    }
  }

  /**
   * `into_signal_idler_iterator`: the dispatch on the variant happens here,
   * once; the result yields exactly that variant's sequence.
   */
  method IntoSignalIdlerIterator(r: SIRange, lib: Engine.SpaceLibrary) returns (it: SIIterator)
    ensures fresh(it) && fresh(it.inner)
    ensures it.Valid() && it.Remaining() == VariantPairs(r, lib)
  {
    var cursor: PairCursor;
    match r {
      case FrequencySpace(fs) => cursor := new PairCursor(lib.frequencyPairs(fs));
      case FrequencyArray(fa) => cursor := new PairCursor(lib.frequencyArrayPairs(fa));
      case Wavelength(ws) => cursor := new PairCursor(lib.wavelengthPairs(ws));
      case WavelengthArray(wa) => cursor := new PairCursor(lib.wavelengthArrayPairs(wa));
      case SumDiffFrequency(sdfs) => cursor := new PairCursor(lib.sumDiffPairs(sdfs));
    }
    it := new SIIterator(cursor);
  }

  /**
   * What a consumer sees when it walks the erased iterator to its end: the
   * wrapped variant's sequence, complete and in order.  Two walks over the
   * same range therefore see the same pairs.
   */
  method Drain(r: SIRange, lib: Engine.SpaceLibrary) returns (pairs: seq<Engine.FrequencyPair>)
    ensures pairs == VariantPairs(r, lib)
  {
    var it := IntoSignalIdlerIterator(r, lib);
    pairs := [];
    var item := it.Next();
    while item.Some?
      invariant fresh(it.inner)
      invariant it.Valid()
      invariant item.Some? ==> pairs + [item.value] + it.Remaining() == VariantPairs(r, lib)
      invariant item.None? ==> pairs == VariantPairs(r, lib)
      decreases |it.Remaining()|, item.Some?
    {
      pairs := pairs + [item.value];
      item := it.Next();
    }
  }
}
