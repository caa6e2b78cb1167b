/**
 * The dimensional constants the bindings multiply and divide by.  Every
 * quantity crosses the host boundary as `external = internal / scale` and
 * `internal = external * scale`, with one scale per field.
 */
module Units {

  /** The circle constant as an IEEE double; only `DEG > 0` is relied on. */
  const PI: real := 3.141592653589793
  /** One degree in radians. */
  const DEG: real := PI / 180.0

  const MICRO: real := 0.000001
  const NANO: real := 0.000000001
  const PICO: real := 0.000000000001
  const MEGA: real := 1000000.0

  /** SI base and derived units of the engine's quantity algebra; each has numeric value 1. */
  const RAD: real := 1.0
  const HZ: real := 1.0
  const S: real := 1.0
  const M: real := 1.0
  const W: real := 1.0
  const V: real := 1.0

  /** Speed of light in vacuum, metres per second. */
  const C: real := 299792458.0

  /** Offset between the Celsius and Kelvin scales. */
  const ZERO_CELSIUS_IN_KELVIN: real := 273.15

  /** The library's `from_celsius_to_kelvin`. */
  function CelsiusToKelvin(c: real): (k: real)
    ensures k - c == ZERO_CELSIUS_IN_KELVIN
  {
    c + ZERO_CELSIUS_IN_KELVIN
  }

  /** The library's `from_kelvin_to_celsius`. */
  function KelvinToCelsius(k: real): (c: real)
    ensures k - c == ZERO_CELSIUS_IN_KELVIN
  {
    k - ZERO_CELSIUS_IN_KELVIN
  }

  /** Both directions of the temperature pair undo each other. */
  lemma TemperatureRoundTrip(c: real, k: real)
    ensures KelvinToCelsius(CelsiusToKelvin(c)) == c
    ensures CelsiusToKelvin(KelvinToCelsius(k)) == k
  {
  }

  /**
   * Vacuum wavelength <-> angular frequency, `x |-> 2 pi c / x`.  The same
   * map converts in both directions.  The IEEE pair 0 <-> infinity is
   * modelled as 0 <-> 0, which keeps the map an involution.
   */
  function Reciprocal2PiC(x: real): (y: real)
    ensures x == 0.0 <==> y == 0.0
    ensures x != 0.0 ==> x * y == 2.0 * PI * C
  {
    if x == 0.0 then 0.0 else 2.0 * PI * C / x
  }

  lemma Reciprocal2PiCInvolution(x: real)
    ensures Reciprocal2PiC(Reciprocal2PiC(x)) == x
  {
  }
}
