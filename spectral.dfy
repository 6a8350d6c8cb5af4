/**
 * The pure half of Star: the per-letter lookup tables, luminosity-class
 * extraction, the mass and radius estimates, the two position formulas,
 * right ascension and declination parsing, and the display colour.
 */
module Spectral {
  import opened Units
  import opened JavaText
  import opened Geometry

  /** Light-years per parsec, the factor Star uses inline. */
  const PARSEC_TO_LY: real := 3.26156

  /** The cap on an estimated radius, in solar radii. */
  const MAX_RADIUS_SOLAR: real := 25.0

  // ---------------------------------------------------------------- tables

  /** Main-sequence mass in solar masses by spectral letter. */
  const MASS_TABLE: map<char, real> := map[
    'O' := 40.0, 'B' := 10.0, 'A' := 2.5, 'F' := 1.5, 'G' := 1.0, 'K' := 0.7, 'M' := 0.3,
    'L' := 0.08, 'T' := 0.05, 'Y' := 0.02,
    'W' := 25.0, 'C' := 3.0, 'S' := 2.5, 'D' := 0.7, 'Q' := 1.4, 'X' := 10.0, 'N' := 2.8, 'R' := 2.5]

  /** Main-sequence radius in solar radii by spectral letter. */
  const RADIUS_TABLE: map<char, real> := map[
    'O' := 15.0, 'B' := 7.0, 'A' := 1.8, 'F' := 1.3, 'G' := 1.0, 'K' := 0.8, 'M' := 0.5,
    'L' := 0.1, 'T' := 0.08, 'Y' := 0.07,
    'W' := 12.0, 'C' := 100.0, 'S' := 80.0, 'D' := 0.01, 'Q' := 0.0001, 'X' := 0.0001, 'N' := 90.0, 'R' := 70.0]

  datatype Rgb = Rgb(r: int, g: int, b: int)

  const WHITE: Rgb := Rgb(255, 255, 255)

  /** Display colour by spectral letter. */
  const COLOR_TABLE: map<char, Rgb> := map[
    'O' := Rgb(155, 180, 255), 'B' := Rgb(170, 195, 255), 'A' := Rgb(210, 225, 255),
    'F' := Rgb(255, 245, 230), 'G' := Rgb(255, 230, 130), 'K' := Rgb(255, 190, 100),
    'M' := Rgb(255, 140, 90),
    'L' := Rgb(230, 100, 50), 'T' := Rgb(200, 80, 40), 'Y' := Rgb(170, 70, 40),
    'W' := Rgb(120, 170, 255), 'C' := Rgb(255, 100, 100), 'S' := Rgb(255, 120, 90),
    'D' := Rgb(200, 210, 255), 'Q' := Rgb(170, 180, 200), 'X' := Rgb(30, 30, 40),
    'P' := Rgb(180, 190, 255), 'N' := Rgb(240, 170, 130), 'R' := Rgb(255, 110, 90)]

  function GetOrDefault<V>(m: map<char, V>, k: char, d: V): V
  {
    if k in m then m[k] else d
  }

  // ---------------------------------------------------------------- luminosity class

  const LUMINOSITY_CLASSES: set<string> := {"I", "II", "III", "IV", "V", "VI", "VII"}

  /** The class named by a space-prefixed numeral, where " I" also catches " II", " III" and " IV"; "" when there is none. */
  function SpacedNumeral(u: string): (lum: string)
    ensures lum == [] || lum in LUMINOSITY_CLASSES
  {
    if Contains(u, " I") then
      if Contains(u, " III") then "III" else if Contains(u, " II") then "II" else "I"
    else if Contains(u, " IV") then "IV"
    else if Contains(u, " V") then "V"
    else if Contains(u, " VI") then "VI"
    else if Contains(u, " VII") then "VII"
    else ""
  }

  /** The class named by a numeral suffix, longest forms first except "VII" after "VI"; "" when there is none. */
  function SuffixNumeral(u: string): (lum: string)
    ensures lum == [] || lum in LUMINOSITY_CLASSES
  {
    if EndsWith(u, "III") then "III"
    else if EndsWith(u, "II") then "II"
    else if EndsWith(u, "IV") then "IV"
    else if EndsWith(u, "VI") then "VI"
    else if EndsWith(u, "VII") then "VII"
    else if EndsWith(u, "I") then "I"
    else if EndsWith(u, "V") then "V"
    else ""
  }

  /** The fallback when no numeral is present: any 'D' means dwarf, else any 'G' means giant, else main sequence. */
  function LetterGuess(u: string): (lum: string)
    ensures lum in LUMINOSITY_CLASSES
  {
    if Contains(u, "DWARF") || Contains(u, "D") then "V"
    else if Contains(u, "GIANT") || Contains(u, "G") then "III"
    else if Contains(u, "SUPERGIANT") || Contains(u, "SG") then "I"
    else "V"
  }

  /**
   * The luminosity class read from the upper-cased spectral class: a
   * space-prefixed numeral first, then a numeral suffix, then the letter
   * heuristics; "" for an empty class.
   */
  function LuminosityClass(sc: string): (lum: string)
    ensures lum == [] <==> sc == []
    ensures lum != [] ==> lum in LUMINOSITY_CLASSES
  {
    if sc == [] then "" else ClassOfUpper(Upper(sc))
  }

  /** The luminosity class of an upper-cased spectral class: spaced numeral, then suffix, then letters. */
  function ClassOfUpper(u: string): (lum: string)
    ensures lum in LUMINOSITY_CLASSES
  {
    var spaced := SpacedNumeral(u);
    if spaced != [] then spaced
    else
      var suffix := SuffixNumeral(u);
      if suffix != [] then suffix else LetterGuess(u)
  }

  /** Class "VII" is never produced: " VII" is caught by " V" and a "VII" suffix by "II". */
  lemma LuminosityClassNeverVII(sc: string)
    ensures LuminosityClass(sc) != "VII"
  {
    if sc != [] {
      var u := Upper(sc);
      SpacedNumeralNeverVII(u);
      SuffixNumeralNeverVII(u);
    }
  }

  lemma SpacedNumeralNeverVII(u: string)
    ensures SpacedNumeral(u) != "VII"
  {
    if Contains(u, " VII") {
      assert StartsWith(" VII", " V");
      ContainsTransitive(u, " VII", " V");
    }
  }

  lemma SuffixNumeralNeverVII(u: string)
    ensures SuffixNumeral(u) != "VII"
  {
    if EndsWith(u, "VII") {
      assert u[|u| - 2..] == u[|u| - 3..][1..];
    }
  }

  /** Class "VI" only ever comes from a suffix, never from a space-prefixed " VI" (which " V" catches first). */
  lemma LuminosityClassVIIsSuffix(sc: string)
    requires LuminosityClass(sc) == "VI"
    ensures EndsWith(Upper(sc), "VI") && !Contains(Upper(sc), " V")
  {
    ClassVIIsSuffix(Upper(sc));
  }

  lemma ClassVIIsSuffix(u: string)
    requires ClassOfUpper(u) == "VI"
    ensures EndsWith(u, "VI") && !Contains(u, " V")
  {
    SpacedNumeralNeverVI(u);
    LetterGuessNeverVI(u);
    NoSpacedNumeral(u);
    SuffixNumeralVI(u);
  }

  lemma NoSpacedNumeral(u: string)
    ensures SpacedNumeral(u) == [] ==> !Contains(u, " V")
  {
  }

  lemma SuffixNumeralVI(u: string)
    ensures SuffixNumeral(u) == "VI" ==> EndsWith(u, "VI")
  {
  }

  lemma LetterGuessNeverVI(u: string)
    ensures LetterGuess(u) != "VI"
  {
  }

  lemma SpacedNumeralNeverVI(u: string)
    ensures SpacedNumeral(u) != "VI"
  {
    if Contains(u, " VI") {
      assert StartsWith(" VI", " V");
      ContainsTransitive(u, " VI", " V");
    }
  }

  /** "G2 IV" contains " I", so a subgiant is read as a supergiant. */
  lemma SubgiantReadAsSupergiant()
    ensures LuminosityClass("G2 IV") == "I"
  {
    var u := "G2 IV";
    assert Upper(u) == u;
    ContainsAt(u, " I", 2);
    assert !StartsWith(u, " II") by { assert u[..3][0] == 'G'; }
    assert !StartsWith(u[1..], " II") by { assert u[1..][..3][0] == '2'; }
    assert !StartsWith(u[2..], " II") by { assert u[2..][..3][2] == 'V'; }
    NotContainsLonger(u[3..], " II");
    assert u[2..][1..] == u[3..];
    assert u[1..][1..] == u[2..];
    assert !Contains(u, " II");
    if Contains(u, " III") {
      assert StartsWith(" III", " II");
      ContainsTransitive(u, " III", " II");
    }
  }

  /** A bare "G2" has no numeral and contains 'G', so it is read as a giant. */
  lemma BareGReadAsGiant()
    ensures LuminosityClass("G2") == "III"
  {
    var u := "G2";
    assert Upper(u) == u;
    NotContainsMissingChar(u, " I");
    NotContainsMissingChar(u, " IV");
    NotContainsMissingChar(u, " V");
    NotContainsMissingChar(u, " VI");
    NotContainsMissingChar(u, " VII");
    NotContainsMissingChar(u, "DWARF");
    NotContainsMissingChar(u, "D");
    ContainsAt(u, "G", 0);
  }

  /** A bare "M0" has no numeral and none of the letters 'D' or 'G', so it is main sequence. */
  lemma BareMIsMainSequence()
    ensures LuminosityClass("M0") == "V"
  {
    var u := "M0";
    assert Upper(u) == u;
    NotContainsMissingChar(u, " I");
    NotContainsMissingChar(u, " IV");
    NotContainsMissingChar(u, " V");
    NotContainsMissingChar(u, " VI");
    NotContainsMissingChar(u, " VII");
    NotContainsMissingChar(u, "DWARF");
    NotContainsMissingChar(u, "D");
    NotContainsMissingChar(u, "GIANT");
    NotContainsMissingChar(u, "G");
    NotContainsMissingChar(u, "SUPERGIANT");
    NotContainsMissingChar(u, "SG");
  }

  lemma UpperOfLower(s: string)
    ensures Upper(Lower(s)) == Upper(s)
  {
  }

  /** Classification ignores letter case. */
  lemma LuminosityClassIgnoresCase(sc: string)
    ensures LuminosityClass(Lower(sc)) == LuminosityClass(sc)
  {
    UpperOfLower(sc);
  }

  // ---------------------------------------------------------------- mass

  /** The numeric subtype: the second character when it is a digit. */
  function Subtype(sc: string): (d: Option<nat>)
    ensures d.Some? ==> d.value <= 9
  {
    if |sc| > 1 && IsDigit(sc[1]) then Some(DigitValue(sc[1])) else None
  }

  /** Main-sequence mass for a letter and subtype digit; letters without a formula keep the table value. */
  function SubtypeMassSolar(t: char, d: nat, base: real): real
  {
    match t
    case 'O' => 40.0 - d as real * 3.0
    case 'B' => 18.0 - d as real * 1.5
    case 'A' => 3.2 - d as real * 0.18
    case 'F' => 1.7 - d as real * 0.07
    case 'G' => 1.1 - d as real * 0.04
    case 'K' => 0.8 - d as real * 0.04
    case 'M' => 0.5 - d as real * 0.04
    case _ => base
  }

  function MassLuminosityFactor(lum: string): (f: real)
    ensures f >= 1.0
  {
    if lum == "I" then 15.0
    else if lum == "II" then 9.0
    else if lum == "III" then 5.0
    else if lum == "IV" then 2.0
    else 1.0
  }

  /** The main-sequence mass in solar masses before the luminosity factor. */
  function MainSequenceMassSolar(sc: string): (m: real)
    requires sc != []
    ensures m > 0.0
  {
    var t := UpperChar(sc[0]);
    var base := GetOrDefault(MASS_TABLE, t, 1.0);
    match Subtype(sc)
    case Some(d) => SubtypeMassSolar(t, d, base)
    case None => base
  }

  /** The mass estimate in solar masses: one for an empty class, otherwise the main-sequence value times the luminosity factor. */
  function EstimatedMassSolar(sc: string): (m: real)
    ensures m > 0.0
    ensures sc == [] ==> m == 1.0
  {
    if sc == [] then 1.0
    else MainSequenceMassSolar(sc) * MassLuminosityFactor(LuminosityClass(sc))
  }

  /** A main-sequence M0 star weighs half a Sun: subtype 0 gives the formula's intercept. */
  lemma M0WeighsHalfASun()
    ensures EstimatedMassSolar("M0") == 0.5
  {
    BareMIsMainSequence();
    assert Subtype("M0") == Some(0);
  }

  /** A bare "G2" is read as a giant, so its mass is five times the G2 formula. */
  lemma BareG2MassIsGiantMass()
    ensures EstimatedMassSolar("G2") == (1.1 - 2.0 * 0.04) * 5.0
  {
    BareGReadAsGiant();
    assert Subtype("G2") == Some(2);
  }

  /** Within one letter, a larger subtype digit never gives a larger main-sequence mass. */
  lemma SubtypeMassNonIncreasing(t: char, d1: nat, d2: nat, base: real)
    requires d1 <= d2
    ensures SubtypeMassSolar(t, d2, base) <= SubtypeMassSolar(t, d1, base)
  {
  }

  // ---------------------------------------------------------------- radius

  /** Main-sequence radius for a letter and subtype digit; letters without a formula keep the table value. */
  function SubtypeRadiusSolar(t: char, d: nat, base: real): real
  {
    match t
    case 'O' => 20.0 - d as real * 1.0
    case 'B' => 10.0 - d as real * 0.6
    case 'A' => 2.5 - d as real * 0.08
    case 'F' => 1.6 - d as real * 0.05
    case 'G' => 1.1 - d as real * 0.03
    case 'K' => 0.85 - d as real * 0.04
    case 'M' => 0.5 - d as real * 0.03
    case _ => base
  }

  function RadiusLuminosityFactor(lum: string): (f: real)
    ensures f >= 1.0
  {
    if lum == "I" then 20.0
    else if lum == "II" then 10.0
    else if lum == "III" then 6.0
    else if lum == "IV" then 2.0
    else 1.0
  }

  /** The spectral letter used for the radius: 'G' for an empty class. */
  function RadiusLetter(sc: string): char
  {
    if sc == [] then 'G' else UpperChar(sc[0])
  }

  /** The main-sequence radius in solar radii before the luminosity factor. */
  function MainSequenceRadiusSolar(sc: string): (r: real)
    ensures r > 0.0
  {
    var t := RadiusLetter(sc);
    var base := GetOrDefault(RADIUS_TABLE, t, 1.0);
    match Subtype(sc)
    case Some(d) => SubtypeRadiusSolar(t, d, base)
    case None => base
  }

  /** A positive radius times a luminosity factor of at least one. */
  function ScaleRadius(x: real, f: real): (r: real)
    requires x > 0.0 && f >= 1.0
    ensures r >= x
  {
    assert x * f - x == x * (f - 1.0);
    x * f
  }

  /** The radius estimate in solar radii from the class alone, after the luminosity factor and the cap. */
  function CappedRadiusSolar(sc: string): (r: real)
    ensures 0.0 < r <= MAX_RADIUS_SOLAR
  {
    var base := MainSequenceRadiusSolar(sc);
    var factor := RadiusLuminosityFactor(LuminosityClass(sc));
    CapRadius(ScaleRadius(base, factor))
  }

  /** `Math.min(r, MAX_RADIUS_SOLAR)` for a positive radius. */
  function CapRadius(x: real): (r: real)
    requires x > 0.0
    ensures 0.0 < r <= MAX_RADIUS_SOLAR && r <= x
    ensures r == x || r == MAX_RADIUS_SOLAR
  {
    if x < MAX_RADIUS_SOLAR then x else MAX_RADIUS_SOLAR
  }

  /**
   * The radius in solar radii: the capped estimate, except that a
   * main-sequence star of known positive mass m uses m^0.8 (0.1 < m < 1),
   * m^0.57 (1 <= m < 2) or m^0.5 (m >= 2).
   */
  function RadiusSolar(sc: string, massKg: real, pow: (real, real) -> real): real
  {
    var capped := CappedRadiusSolar(sc);
    if LuminosityClass(sc) == "V" && massKg > 0.0 then
      var m := massKg / SOLAR_MASS_TO_KG;
      if 0.1 < m < 2.0 then (if m < 1.0 then pow(m, 0.8) else pow(m, 0.57))
      else if m >= 2.0 then pow(m, 0.5)
      else capped
    else capped
  }

  predicate IsSun(name: string)
  {
    EqualsIgnoreCase(name, "Sun")
  }

  /** The stored radius in km: exactly one solar radius for the Sun, otherwise RadiusSolar in km. */
  function StarRadiusKm(name: string, sc: string, massKg: real, pow: (real, real) -> real): real
  {
    if IsSun(name) then SOLAR_RADIUS_KM else RadiusSolar(sc, massKg, pow) * SOLAR_RADIUS_KM
  }

  /**
   * The radius is the capped class estimate (positive, at most 25 solar
   * radii) unless the star is main sequence with mass above 0.1 solar
   * masses, and then it is one of the three power laws.
   */
  lemma RadiusIsCappedOrPowerLaw(sc: string, massKg: real, pow: (real, real) -> real)
    ensures var r := RadiusSolar(sc, massKg, pow);
            var m := massKg / SOLAR_MASS_TO_KG;
            if LuminosityClass(sc) == "V" && m > 0.1 then
              r == pow(m, if m < 1.0 then 0.8 else if m < 2.0 then 0.57 else 0.5)
            else 0.0 < r <= MAX_RADIUS_SOLAR && r == CappedRadiusSolar(sc)
  {
    var m := massKg / SOLAR_MASS_TO_KG;
    if m > 0.1 {
      assert massKg > 0.0;
    }
    if massKg > 0.0 {
      assert m > 0.0;
    }
  }

  // ---------------------------------------------------------------- positions

  /** Position of a catalog star: the origin for the Sun, otherwise the galactic coordinates in light-years. */
  function CatalogPosition(name: string, xg: real, yg: real, zg: real): Vec3
  {
    if IsSun(name) then Origin else Vec3(xg * PARSEC_TO_LY, yg * PARSEC_TO_LY, zg * PARSEC_TO_LY)
  }

  /**
   * Position of a legacy star: the standard equatorial-to-Cartesian formula
   * scaled by the distance, or the origin for the Sun, a "0" coordinate, a
   * zero distance or a coordinate that does not parse.
   */
  function EquatorialPosition(name: string, distanceLy: real, raStr: string, decStr: string, m: Libm): Vec3
  {
    if IsSun(name) || raStr == "0" || decStr == "0" || distanceLy == 0.0 then Origin
    else
      var ra := ParseRa(raStr);
      var dec := ParseDec(decStr);
      if ra.None? || dec.None? then Origin
      else EquatorialToCartesian(distanceLy, ra.value, dec.value, m)
  }

  /** The standard conversion of a distance, right ascension and declination to Cartesian coordinates. */
  function EquatorialToCartesian(distance: real, ra: real, dec: real, m: Libm): Vec3
  {
    Vec3(distance * m.cos(dec) * m.cos(ra), distance * m.cos(dec) * m.sin(ra), distance * m.sin(dec))
  }

  /** The Sun is pinned: at the origin under both position rules and exactly one solar radius. */
  lemma SunIsPinned(name: string, sc: string, massKg: real, xg: real, yg: real, zg: real,
                    distanceLy: real, raStr: string, decStr: string, m: Libm)
    requires Lower(name) == "sun"
    ensures CatalogPosition(name, xg, yg, zg) == Origin
    ensures EquatorialPosition(name, distanceLy, raStr, decStr, m) == Origin
    ensures StarRadiusKm(name, sc, massKg, m.pow) == SOLAR_RADIUS_KM
  {
    assert Lower("Sun") == "sun";
  }

  // ---------------------------------------------------------------- RA / Dec

  /** Hours, minutes and seconds read from exactly three ':'-separated fields. */
  function ParseSexagesimal(s: string): (r: Option<real>)
    ensures r.Some? ==> |Split(s, ':')| == 3
    ensures r.Some? <==> |Split(s, ':')| == 3 && ParseDouble(Split(s, ':')[0]).Some? &&
                         ParseDouble(Split(s, ':')[1]).Some? && ParseDouble(Split(s, ':')[2]).Some?
  {
    var parts := Split(s, ':');
    if |parts| != 3 then None
    else
      var hours, minutes, seconds := ParseDouble(parts[0]), ParseDouble(parts[1]), ParseDouble(parts[2]);
      if hours.Some? && minutes.Some? && seconds.Some? then
        Some(hours.value + minutes.value / 60.0 + seconds.value / 3600.0)
      else None
  }

  /** Right ascension `HH:MM:SS.ss` in radians; total hours outside [0, 24) are an error. */
  function ParseRa(s: string): (r: Option<real>)
    ensures r.Some? ==> 0.0 <= r.value < 2.0 * PI
    ensures r.Some? <==> (ParseSexagesimal(s).Some? && 0.0 <= ParseSexagesimal(s).value < 24.0)
  {
    match ParseSexagesimal(s)
    case None => None
    case Some(hours) =>
      if hours < 0.0 || hours >= 24.0 then None else Some(ToRadians(hours * 15.0))
  }

  /** Declination `(+|-)DD:MM:SS.ss` in radians; a result outside [-90, 90] degrees is an error. */
  function ParseDec(s: string): (r: Option<real>)
    ensures r.Some? ==> -PI / 2.0 <= r.value <= PI / 2.0
    ensures var body := if s != [] && (s[0] == '-' || s[0] == '+') then s[1..] else s;
            var v := ParseSexagesimal(body);
            r.Some? <==> v.Some? && -90.0 <= (if s != [] && s[0] == '-' then -v.value else v.value) <= 90.0
  {
    var signed := s != [] && (s[0] == '-' || s[0] == '+');
    var body := if signed then s[1..] else s;
    SignedDec(signed && s[0] == '-', body)
  }

  /** The declination in radians of the unsigned text `body`, negated when `negative`. */
  function SignedDec(negative: bool, body: string): (r: Option<real>)
    ensures r.Some? ==> -PI / 2.0 <= r.value <= PI / 2.0
    ensures var v := ParseSexagesimal(body);
            r.Some? <==> v.Some? && -90.0 <= (if negative then -v.value else v.value) <= 90.0
  {
    match ParseSexagesimal(body)
    case None => None
    case Some(deg) =>
      var total := if negative then -deg else deg;
      if total < -90.0 || total > 90.0 then None else Some(ToRadians(total))
  }

  /** The separator never occurs in a digit string. */
  lemma NoColonInDigits(n: nat)
    ensures ':' !in NatToString(n)
  {
  }

  /** Whole hours (or degrees), minutes and seconds written as "H:M:S". */
  function SexagesimalText(h: nat, m: nat, s: nat): string
  {
    NatToString(h) + ":" + NatToString(m) + ":" + NatToString(s)
  }

  /** "H:M:S" written with digit strings reads as H + M/60 + S/3600. */
  lemma SexagesimalValue(h: nat, m: nat, s: nat)
    ensures var r := ParseSexagesimal(SexagesimalText(h, m, s));
            r.Some? && r.value == h as real + m as real / 60.0 + s as real / 3600.0
  {
    var a, b, c := NatToString(h), NatToString(m), NatToString(s);
    var text := a + ":" + b + ":" + c;
    NoColonInDigits(h);
    NoColonInDigits(m);
    NoColonInDigits(s);
    SplitThree(a, b, c, ':');
    assert text == a + [':'] + b + [':'] + c;
    DigitStringParsesAsDouble(h);
    DigitStringParsesAsDouble(m);
    DigitStringParsesAsDouble(s);
    SexagesimalFields(text, h as real, m as real, s as real);
  }

  /** Three fields that each parse as a double give the hours (or degrees) plus minutes/60 plus seconds/3600. */
  lemma SexagesimalFields(text: string, x: real, y: real, z: real)
    requires |Split(text, ':')| == 3
    requires ParseDouble(Split(text, ':')[0]) == Some(x)
    requires ParseDouble(Split(text, ':')[1]) == Some(y)
    requires ParseDouble(Split(text, ':')[2]) == Some(z)
    ensures ParseSexagesimal(text).Some? && ParseSexagesimal(text).value == x + y / 60.0 + z / 3600.0
  {
  }

  /** An "H:M:S" right ascension below 24 hours reads as that many hours times 15 degrees. */
  lemma RaTextValue(h: nat, m: nat, s: nat)
    requires h as real + m as real / 60.0 + s as real / 3600.0 < 24.0
    ensures var r := ParseRa(SexagesimalText(h, m, s));
            r.Some? && r.value == ToRadians((h as real + m as real / 60.0 + s as real / 3600.0) * 15.0)
  {
    SexagesimalValue(h, m, s);
  }

  /** A "-D:M:S" declination within 90 degrees reads as the negated degrees; beyond 90 it is refused. */
  lemma NegativeDecTextValue(d: nat, m: nat, s: nat)
    ensures var total := d as real + m as real / 60.0 + s as real / 3600.0;
            var r := ParseDec("-" + SexagesimalText(d, m, s));
            (total <= 90.0 ==> r.Some? && r.value == ToRadians(-total)) && (total > 90.0 ==> r.None?)
  {
    var body := SexagesimalText(d, m, s);
    var total := d as real + m as real / 60.0 + s as real / 3600.0;
    assert ParseSexagesimal(body).Some? && ParseSexagesimal(body).value == total by {
      SexagesimalValue(d, m, s);
    }
    assert total >= 0.0;
    assert body != [] && IsDigit(body[0]) by {
      SexagesimalTextUnsigned(d, m, s);
    }
    NegatedDecValue(body, total);
  }

  /** The text of a sexagesimal value starts with a digit, so no sign is taken from it. */
  lemma SexagesimalTextUnsigned(d: nat, m: nat, s: nat)
    ensures var body := SexagesimalText(d, m, s);
            body != [] && IsDigit(body[0])
  {
    var body := SexagesimalText(d, m, s);
    assert body[0] == NatToString(d)[0];
  }

  /** "-" before an unsigned sexagesimal body reading `total >= 0` degrees gives the negated angle, when within 90 degrees. */
  lemma NegatedDecValue(body: string, total: real)
    requires body != [] && body[0] != '-' && body[0] != '+'
    requires ParseSexagesimal(body).Some? && ParseSexagesimal(body).value == total && total >= 0.0
    ensures var r := ParseDec("-" + body);
            (total <= 90.0 ==> r.Some? && r.value == ToRadians(-total)) && (total > 90.0 ==> r.None?)
  {
    DecSigns(body);
  }

  /** A leading '-' negates the declination: the two signs give opposite angles. */
  lemma DecSignIsSymmetric(body: string)
    requires body == [] || (body[0] != '-' && body[0] != '+')
    ensures ParseDec("+" + body).Some? <==> ParseDec("-" + body).Some?
    ensures ParseDec("+" + body).Some? ==> ParseDec("-" + body).value == -ParseDec("+" + body).value
    ensures ParseDec("+" + body) == ParseDec(body)
  {
    DecSigns(body);
    NegatedDec(body);
  }

  lemma DecSigns(body: string)
    requires body == [] || (body[0] != '-' && body[0] != '+')
    ensures ParseDec("+" + body) == SignedDec(false, body)
    ensures ParseDec("-" + body) == SignedDec(true, body)
    ensures ParseDec(body) == SignedDec(false, body)
  {
    assert ("+" + body)[1..] == body;
    assert ("-" + body)[1..] == body;
  }

  lemma NegatedDec(body: string)
    ensures SignedDec(false, body).Some? <==> SignedDec(true, body).Some?
    ensures SignedDec(false, body).Some? ==> SignedDec(true, body).value == -SignedDec(false, body).value
  {
  }

  // ---------------------------------------------------------------- colour

  /** Display colour: the G colour for an empty class, otherwise by upper-cased first letter, white when unknown. */
  function StarColor(sc: string): (c: Rgb)
    ensures 0 <= c.r <= 255 && 0 <= c.g <= 255 && 0 <= c.b <= 255
    ensures sc == [] ==> c == COLOR_TABLE['G']
    ensures sc != [] && UpperChar(sc[0]) in COLOR_TABLE ==> c == COLOR_TABLE[UpperChar(sc[0])]
    ensures sc != [] && UpperChar(sc[0]) !in COLOR_TABLE ==> c == WHITE
  {
    if sc == [] then GetOrDefault(COLOR_TABLE, 'G', Rgb(255, 255, 0))
    else GetOrDefault(COLOR_TABLE, UpperChar(sc[0]), WHITE)
  }

  /** The colour does not depend on the case of the class's first letter. */
  lemma StarColorIgnoresCase(a: string, b: string)
    requires a != [] && b != [] && LowerChar(a[0]) == LowerChar(b[0])
    ensures StarColor(a) == StarColor(b)
  {
    assert UpperChar(a[0]) == UpperChar(b[0]);
  }
}
