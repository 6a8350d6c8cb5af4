/**
 * The physical conversion constants of the viewer. Every Java `double` is a
 * Dafny `real`, so the derived constants are the exact quotients.
 */
module Units {

  const AU_TO_KM: real := 149597870.7
  const LY_TO_KM: real := 9.461e12
  /** Astronomical units to light-years, defined as a quotient of the two above. */
  const AU_TO_LY: real := AU_TO_KM / LY_TO_KM

  const EARTH_MASS_TO_KG: real := 5.972e24
  const SOLAR_MASS_TO_KG: real := 1.989e30
  /** Earth masses to solar masses, defined as a quotient of the two above. */
  const EARTH_MASS_TO_SOLAR_MASS: real := EARTH_MASS_TO_KG / SOLAR_MASS_TO_KG

  const EARTH_RADIUS_TO_KM: real := 6371.0
  const SOLAR_RADIUS_KM: real := 696340.0

  /** The set of every conversion factor above. */
  function Factors(): set<real>
  {
    {AU_TO_KM, LY_TO_KM, AU_TO_LY, EARTH_MASS_TO_KG, SOLAR_MASS_TO_KG,
     EARTH_MASS_TO_SOLAR_MASS, EARTH_RADIUS_TO_KM, SOLAR_RADIUS_KM}
  }

  /** The derived constants are the quotients they are defined as, in both directions. */
  lemma DerivedConstants()
    ensures AU_TO_LY * LY_TO_KM == AU_TO_KM
    ensures EARTH_MASS_TO_SOLAR_MASS * SOLAR_MASS_TO_KG == EARTH_MASS_TO_KG
  {
  }

  /** Every factor is strictly positive, so scaling a positive quantity by any of them keeps it positive. */
  lemma {:induction false} ScalingKeepsPositive(q: real, f: real)
    requires q > 0.0 && f in Factors()
    ensures f > 0.0 && q * f > 0.0
  {
  }

  /** An astronomical unit is a small positive fraction of a light-year. */
  lemma AuIsFractionOfLightYear()
    ensures 0.0 < AU_TO_LY < 1.0
    ensures 0.0 < EARTH_MASS_TO_SOLAR_MASS < 1.0
  {
  }

  /** The Sun is larger and heavier than the Earth. */
  lemma SunExceedsEarth()
    ensures SOLAR_RADIUS_KM > EARTH_RADIUS_TO_KM
    ensures SOLAR_MASS_TO_KG > EARTH_MASS_TO_KG
  {
  }
}
