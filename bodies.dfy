/**
 * The simulation's bodies. CelestialBody holds the state every body shares
 * (a name, a position in light-years from the Sun, a mass in kg and a
 * radius in km); Star and Planet each own one and fill it in from their
 * constructors, the way the subclasses' constructors fill in the inherited
 * fields.
 */
module Bodies {
  import opened Units
  import opened JavaText
  import opened Geometry
  import opened Spectral

  class CelestialBody {
    const name: string
    var x: real
    var y: real
    var z: real
    var massKg: real
    var radiusKm: real

    /** A fresh body sits at the origin with zero mass and radius, as Java's default field values do. */
    constructor (name: string)
      ensures this.name == name
      ensures Position() == Origin && massKg == 0.0 && radiusKm == 0.0
    {
      this.name := name;
      x, y, z := 0.0, 0.0, 0.0;
      massKg, radiusKm := 0.0, 0.0;
    }

    function Position(): Vec3
      reads this
    {
      Vec3(x, y, z)
    }

    /** Moves the body; mass and radius are untouched. */
    method SetPosition(p: Vec3)
      modifies this
      ensures Position() == p
      ensures massKg == old(massKg) && radiusKm == old(radiusKm)
    {
      x, y, z := p.x, p.y, p.z;
    }
  }

  class Star {
    const body: CelestialBody
    const hipId: int
    const habitable: bool
    /** The trimmed spectral class, e.g. "G2V" or "M5.5Ve". */
    const spectralClass: string
    const distanceParsecs: real
    const distanceLy: real
    const xGalactic: real
    const yGalactic: real
    const zGalactic: real
    const absoluteMagnitude: real

    function Name(): string
    {
      body.name
    }

    /**
     * A star of the catalog format: its distance in light-years is derived
     * from parsecs, its mass is always estimated from the class, it sits at
     * its galactic coordinates converted to light-years (the Sun at the
     * origin), and its radius is estimated from the class and that mass.
     */
    constructor Catalog(hipId: int, habitable: bool, name: string, spectralClass: string,
                        distanceParsecs: real, xGalactic: real, yGalactic: real, zGalactic: real,
                        absoluteMagnitude: real, pow: (real, real) -> real)
      ensures fresh(body) && Name() == name
      ensures this.hipId == hipId && this.habitable == habitable
      ensures this.spectralClass == Trim(spectralClass)
      ensures this.distanceParsecs == distanceParsecs && distanceLy == distanceParsecs * PARSEC_TO_LY
      ensures this.xGalactic == xGalactic && this.yGalactic == yGalactic && this.zGalactic == zGalactic
      ensures this.absoluteMagnitude == absoluteMagnitude
      ensures body.massKg == EstimatedMassSolar(Trim(spectralClass)) * SOLAR_MASS_TO_KG
      ensures body.Position() == CatalogPosition(name, xGalactic, yGalactic, zGalactic)
      ensures body.radiusKm == StarRadiusKm(name, Trim(spectralClass), body.massKg, pow)
    {
      body := new CelestialBody(name);
      this.hipId := hipId;
      this.habitable := habitable;
      this.spectralClass := Trim(spectralClass);
      this.distanceParsecs := distanceParsecs;
      distanceLy := distanceParsecs * PARSEC_TO_LY;
      this.xGalactic := xGalactic;
      this.yGalactic := yGalactic;
      this.zGalactic := zGalactic;
      this.absoluteMagnitude := absoluteMagnitude;
      new;
      if body.massKg <= 0.0 {
        EstimateMassFromSpectralClass();
      }
      CalculatePosition();
      CalculateRadius(pow);
    }

    /**
     * A star of the legacy format: no catalog number, galactic coordinates
     * zero, the given mass in solar masses taken as is, the position from
     * right ascension and declination, and the radius from the class and
     * that mass.
     */
    constructor Legacy(name: string, spectralClass: string, distanceLy: real, raStr: string, decStr: string,
                       massSolar: real, absoluteMagnitude: real, m: Libm)
      ensures fresh(body) && Name() == name
      ensures hipId == 0 && !habitable
      ensures this.spectralClass == Trim(spectralClass)
      ensures this.distanceLy == distanceLy && distanceParsecs == distanceLy / PARSEC_TO_LY
      ensures xGalactic == 0.0 && yGalactic == 0.0 && zGalactic == 0.0
      ensures this.absoluteMagnitude == absoluteMagnitude
      ensures body.massKg == massSolar * SOLAR_MASS_TO_KG
      ensures body.Position() == EquatorialPosition(name, distanceLy, raStr, decStr, m)
      ensures body.radiusKm == StarRadiusKm(name, Trim(spectralClass), body.massKg, m.pow)
    {
      body := new CelestialBody(name);
      hipId := 0;
      habitable := false;
      this.spectralClass := Trim(spectralClass);
      this.distanceLy := distanceLy;
      distanceParsecs := distanceLy / PARSEC_TO_LY;
      xGalactic, yGalactic, zGalactic := 0.0, 0.0, 0.0;
      this.absoluteMagnitude := absoluteMagnitude;
      new;
      body.massKg := massSolar * SOLAR_MASS_TO_KG;
      CalculatePositionFromEquatorial(raStr, decStr, m);
      CalculateRadius(m.pow);
    }

    /** Sets the mass to the class-based estimate; position and radius are untouched. */
    method EstimateMassFromSpectralClass()
      modifies body
      ensures body.massKg == EstimatedMassSolar(spectralClass) * SOLAR_MASS_TO_KG
      ensures body.Position() == old(body.Position()) && body.radiusKm == old(body.radiusKm)
    {
      body.massKg := EstimatedMassSolar(spectralClass) * SOLAR_MASS_TO_KG;
    }

    /** Places the star at its galactic coordinates in light-years, or the Sun at the origin. */
    method CalculatePosition()
      modifies body
      ensures body.Position() == CatalogPosition(Name(), xGalactic, yGalactic, zGalactic)
      ensures body.massKg == old(body.massKg) && body.radiusKm == old(body.radiusKm)
    {
      if IsSun(body.name) {
        body.SetPosition(Origin);
        return;
      }
      var xLy := xGalactic * PARSEC_TO_LY;
      var yLy := yGalactic * PARSEC_TO_LY;
      var zLy := zGalactic * PARSEC_TO_LY;
      body.SetPosition(Vec3(xLy, yLy, zLy));
    }

    /** Places the star from right ascension and declination, falling back to the origin. */
    method CalculatePositionFromEquatorial(raStr: string, decStr: string, m: Libm)
      modifies body
      ensures body.Position() == EquatorialPosition(Name(), distanceLy, raStr, decStr, m)
      ensures body.massKg == old(body.massKg) && body.radiusKm == old(body.radiusKm)
    {
      if IsSun(body.name) {
        body.SetPosition(Origin);
        return;
      }
      if raStr == "0" || decStr == "0" || distanceLy == 0.0 {
        body.SetPosition(Origin);
        return;
      }
      var ra := ParseRa(raStr);
      var dec := ParseDec(decStr);
      if ra.None? || dec.None? {
        body.SetPosition(Origin);
        return;
      }
      body.SetPosition(EquatorialToCartesian(distanceLy, ra.value, dec.value, m));
    }

    /** Sets the radius from the class and the current mass, the Sun to one solar radius. */
    method CalculateRadius(pow: (real, real) -> real)
      modifies body
      ensures body.radiusKm == StarRadiusKm(Name(), spectralClass, body.massKg, pow)
      ensures body.Position() == old(body.Position()) && body.massKg == old(body.massKg)
    {
      if IsSun(body.name) {
        body.radiusKm := SOLAR_RADIUS_KM;
        return;
      }
      body.radiusKm := RadiusSolar(spectralClass, body.massKg, pow) * SOLAR_RADIUS_KM;
    }
  }

  /** A planet's position: the origin without a host, otherwise the host's position moved along x by the orbit distance in light-years, towards −x for a negative distance, which is not rejected. */
  function PlanetPosition(host: Option<Vec3>, distanceFromStarAU: real): (p: Vec3)
    ensures host.None? ==> p == Origin
    ensures host.Some? ==> p.y == host.value.y && p.z == host.value.z
    ensures host.Some? ==> Norm2(Sub(p, host.value)) == (distanceFromStarAU * AU_TO_LY) * (distanceFromStarAU * AU_TO_LY)
    ensures host.Some? && distanceFromStarAU >= 0.0 ==> p.x >= host.value.x
    ensures host.Some? && distanceFromStarAU < 0.0 ==> p.x < host.value.x
  {
    match host
    case None => Origin
    case Some(h) => Vec3(h.x + distanceFromStarAU * AU_TO_LY, h.y, h.z)
  }

  class Planet {
    const body: CelestialBody
    const hostStar: Star?
    const distanceFromStarAU: real
    const hasRings: bool

    /** A planet never shares its body with its host star. */
    ghost predicate Valid()
      reads this
    {
      hostStar != null ==> hostStar.body != body
    }

    function HostPosition(): Option<Vec3>
      reads this, if hostStar != null then {hostStar.body} else {}
    {
      if hostStar == null then None else Some(hostStar.body.Position())
    }

    /** Mass and radius are converted from Earth units; the position is the host's, offset by the orbit distance. */
    constructor (name: string, hostStar: Star?, distanceFromStarAU: real, massEarth: real, radiusEarth: real, hasRings: bool)
      ensures fresh(body) && body.name == name && Valid()
      ensures this.hostStar == hostStar && this.distanceFromStarAU == distanceFromStarAU && this.hasRings == hasRings
      ensures body.massKg == massEarth * EARTH_MASS_TO_KG && body.radiusKm == radiusEarth * EARTH_RADIUS_TO_KM
      ensures body.Position() == PlanetPosition(HostPosition(), distanceFromStarAU)
    {
      body := new CelestialBody(name);
      this.hostStar := hostStar;
      this.distanceFromStarAU := distanceFromStarAU;
      this.hasRings := hasRings;
      new;
      body.massKg := massEarth * EARTH_MASS_TO_KG;
      body.radiusKm := radiusEarth * EARTH_RADIUS_TO_KM;
      CalculatePosition();
    }

    /** Places the planet next to its host star, or at the origin without one. */
    method CalculatePosition()
      requires Valid()
      modifies body
      ensures body.Position() == PlanetPosition(HostPosition(), distanceFromStarAU)
      ensures body.massKg == old(body.massKg) && body.radiusKm == old(body.radiusKm)
    {
      if hostStar == null {
        body.SetPosition(Origin);
        return;
      }
      var distLy := distanceFromStarAU * AU_TO_LY;
      var starX := hostStar.body.x;
      var starY := hostStar.body.y;
      var starZ := hostStar.body.z;
      body.SetPosition(Vec3(starX + distLy, starY, starZ));
    }
  }
}
