/**
 * The catalog readers. Every input line is decoded on its own into a
 * record (or into nothing, which covers the lines the loader skips and the
 * lines whose parsing throws); the star loader then files each star under
 * its lower-case name, its "hip<N>" key or its system_name key, and the
 * planet loader attaches each planet to the star filed under its host's
 * lower-case name.
 */
module DataLoader {
  import opened Units
  import opened JavaText
  import opened Geometry
  import opened Spectral
  import opened Bodies

  // ---------------------------------------------------------------- line decoding

  /** The whole line is commas (or empty): the loaders' `^,*` skip pattern. */
  predicate OnlyCommas(s: string)
  {
    forall i :: 0 <= i < |s| ==> s[i] == ','
  }

  /** A trimmed line the loaders skip before splitting: empty, a '#' comment or only commas. */
  predicate SkippedLine(line: string)
  {
    line == [] || StartsWith(line, "#") || OnlyCommas(line)
  }

  /** A star row as decoded from one line of the star file. */
  datatype StarRecord =
    | CatalogStar(hipId: int, habitable: bool, name: string, spectralClass: string,
                  distanceParsecs: real, xGalactic: real, yGalactic: real, zGalactic: real, absMag: real)
    | LegacyStar(systemName: string, name: string, spectralClass: string, distanceLy: real,
                 ra: string, dec: string, massSolar: real, absMag: real)

  /** A numeric field that may be left empty, meaning zero. */
  function FieldOrZero(f: string): (r: Option<real>)
    ensures Trim(f) == [] ==> r == Some(0.0)
  {
    var t := Trim(f);
    if t == [] then Some(0.0) else ParseDouble(t)
  }

  /**
   * A catalog row `Hip,Hab?,Name,Spectral,Distance,Xg,Yg,Zg[,AbsMag]`:
   * nothing when the catalog number or a number field does not parse or the
   * name is empty.
   */
  function DecodeCatalogRow(parts: seq<string>): (r: Option<StarRecord>)
    requires |parts| >= 8
    ensures r.Some? ==> r.value.CatalogStar? && r.value.name == Trim(parts[2]) && r.value.name != []
    ensures r.Some? ==> (r.value.habitable <==> Trim(parts[1]) != [] && Trim(parts[1]) != "0")
    ensures r.Some? ==> (Trim(parts[0]) == [] ==> r.value.hipId == 0) &&
                        (Trim(parts[0]) != [] ==> ParseInt(Trim(parts[0])) == Some(r.value.hipId))
    ensures r.Some? ==> FieldOrZero(parts[4]) == Some(r.value.distanceParsecs) &&
                        FieldOrZero(parts[5]) == Some(r.value.xGalactic) &&
                        FieldOrZero(parts[6]) == Some(r.value.yGalactic) &&
                        FieldOrZero(parts[7]) == Some(r.value.zGalactic)
    ensures r.Some? && (|parts| == 8 || Trim(parts[8]) == []) ==>
              r.value.absMag == (if IsSun(r.value.name) then 4.85 else 0.0)
    ensures r.Some? && |parts| > 8 && Trim(parts[8]) != [] ==> ParseDouble(Trim(parts[8])) == Some(r.value.absMag)
  {
    var hipField := Trim(parts[0]);
    var hip := if hipField == [] then Some(0) else ParseInt(hipField);
    var habField := Trim(parts[1]);
    var name := Trim(parts[2]);
    var dist := FieldOrZero(parts[4]);
    var xg := FieldOrZero(parts[5]);
    var yg := FieldOrZero(parts[6]);
    var zg := FieldOrZero(parts[7]);
    var absMag :=
      if |parts| > 8 && Trim(parts[8]) != [] then ParseDouble(Trim(parts[8]))
      else Some(if IsSun(name) then 4.85 else 0.0);
    if hip.None? || name == [] || dist.None? || xg.None? || yg.None? || zg.None? || absMag.None? then None
    else
      Some(CatalogStar(hip.value, habField != [] && habField != "0", name, Trim(parts[3]),
                       dist.value, xg.value, yg.value, zg.value, absMag.value))
  }

  /**
   * A legacy row `System,Name,Class,DistanceLy,RA,Dec,Mass,AbsMag`: the Sun
   * gets one solar mass and magnitude 4.85 without reading its fields;
   * every other star must have a parseable mass and an eighth field.
   */
  function DecodeLegacyRow(parts: seq<string>): (r: Option<StarRecord>)
    requires |parts| >= 7
    ensures r.Some? ==> r.value.LegacyStar? && r.value.name == Trim(parts[1]) && r.value.name != []
    ensures r.Some? ==> r.value.systemName == Trim(parts[0]) && r.value.spectralClass == Trim(parts[2]) &&
                        r.value.ra == Trim(parts[4]) && r.value.dec == Trim(parts[5])
    ensures r.Some? ==> ParseDouble(Trim(parts[3])) == Some(r.value.distanceLy)
    ensures r.Some? && IsSun(r.value.name) ==> r.value.massSolar == 1.0 && r.value.absMag == 4.85
    ensures r.Some? && !IsSun(r.value.name) ==>
              |parts| > 7 && ParseDouble(Trim(parts[6])) == Some(r.value.massSolar) &&
              ParseDouble(Trim(parts[7])) == Some(r.value.absMag)
  {
    var name := Trim(parts[1]);
    var dist := ParseDouble(Trim(parts[3]));
    var mass := if IsSun(name) then Some(1.0) else ParseDouble(Trim(parts[6]));
    var absMag :=
      if IsSun(name) then Some(4.85)
      else if |parts| > 7 then ParseDouble(Trim(parts[7]))
      else None;
    if dist.None? || mass.None? || absMag.None? || name == [] then None
    else
      Some(LegacyStar(Trim(parts[0]), name, Trim(parts[2]), dist.value,
                      Trim(parts[4]), Trim(parts[5]), mass.value, absMag.value))
  }

  /** One line of the star file after the header: the catalog format when it has eight fields and a numeric first field, else the legacy format when it has seven. */
  function DecodeStarRow(raw: string): (r: Option<StarRecord>)
    ensures r.Some? ==> !SkippedLine(Trim(raw))
  {
    var line := Trim(raw);
    if SkippedLine(line) then None
    else
      var parts := SplitAll(line, ',');
      if |parts| >= 8 && IsNumeric(parts[0]) then DecodeCatalogRow(parts)
      else if |parts| >= 7 then DecodeLegacyRow(parts)
      else None
  }

  /**
   * The format is chosen by the field count and the first field: a catalog
   * record comes only from eight or more fields starting with an integer, a
   * legacy record only from seven or more fields otherwise, and a line with
   * fewer than seven fields yields nothing.
   */
  lemma RowFormatDispatch(raw: string)
    ensures var parts := SplitAll(Trim(raw), ',');
      var r := DecodeStarRow(raw);
      (r.Some? && r.value.CatalogStar? ==> |parts| >= 8 && IsNumeric(parts[0])) &&
      (r.Some? && r.value.LegacyStar? ==> |parts| >= 7 && !(|parts| >= 8 && IsNumeric(parts[0]))) &&
      (|parts| < 7 ==> r.None?)
  {
  }

  /** A legacy row of exactly seven fields has no magnitude field, so only the Sun's row can load. */
  lemma SevenFieldLegacyRowIsSun(raw: string)
    requires |SplitAll(Trim(raw), ',')| == 7
    requires DecodeStarRow(raw).Some?
    ensures DecodeStarRow(raw).value.LegacyStar? && IsSun(DecodeStarRow(raw).value.name)
  {
    var parts := SplitAll(Trim(raw), ',');
    assert !(|parts| >= 8);
    assert DecodeStarRow(raw) == DecodeLegacyRow(parts);
    LegacyRowWithoutMagnitude(parts);
  }

  /** Seven legacy fields leave no magnitude to read: only the Sun's row, whose magnitude is fixed, decodes. */
  lemma LegacyRowWithoutMagnitude(parts: seq<string>)
    requires |parts| == 7
    ensures DecodeLegacyRow(parts).Some? ==> IsSun(Trim(parts[1]))
  {
  }

  // ---------------------------------------------------------------- star keys

  function NameKey(name: string): string
  {
    Lower(name)
  }

  function HipKey(hipId: int): string
  {
    "hip" + IntToString(hipId)
  }

  /** The legacy compound key: system and name joined by '_', lower-cased, spaces turned into '_'. */
  function CompoundKey(systemName: string, name: string): (k: string)
    ensures |k| > |NameKey(name)|
  {
    Replace(Lower(systemName + "_" + name), ' ', '_')
  }

  /**
   * The keys a row's star is put under: `always` are put unconditionally,
   * in order; `ifFree` is put afterwards only when it is still absent.
   */
  datatype Filing = Filing(always: seq<string>, ifFree: Option<string>)

  /** A catalog star takes its name key and, for a positive catalog number, its hip key; a legacy star takes its compound key, then its name key if free. */
  function FilingOf(rec: StarRecord): (f: Filing)
    ensures rec.CatalogStar? ==> NameKey(rec.name) in f.always && f.ifFree.None?
    ensures rec.CatalogStar? && rec.hipId > 0 ==> HipKey(rec.hipId) in f.always
    ensures rec.LegacyStar? ==> f.always == [CompoundKey(rec.systemName, rec.name)] && f.ifFree == Some(NameKey(rec.name))
  {
    match rec
    case CatalogStar(hipId, _, name, _, _, _, _, _, _) =>
      Filing([NameKey(name)] + (if hipId > 0 then [HipKey(hipId)] else []), None)
    case LegacyStar(systemName, name, _, _, _, _, _, _) =>
      Filing([CompoundKey(systemName, name)], Some(NameKey(name)))
  }

  /** `k` ends up holding the new value when `f` is filed into a map with keys `present`. */
  predicate Takes(f: Filing, k: string, present: set<string>)
  {
    k in f.always || (f.ifFree == Some(k) && k !in present && k !in f.always)
  }

  /** `put` for each key of `keys`, in order. */
  function PutAll<V>(m: map<string, V>, keys: seq<string>, v: V): (r: map<string, V>)
    decreases |keys|
    ensures forall k :: k in r <==> k in m || k in keys
    ensures forall k :: k in r ==> r[k] == if k in keys then v else m[k]
  {
    if keys == [] then m else PutAll(m[keys[0] := v], keys[1..], v)
  }

  /** The map after the loader's puts for one row: the keys the row takes now hold `v`, every other entry is kept. */
  function File<V>(m: map<string, V>, f: Filing, v: V): (r: map<string, V>)
    ensures forall k :: k in r <==> k in m || Takes(f, k, m.Keys)
    ensures forall k :: k in r ==> r[k] == if Takes(f, k, m.Keys) then v else m[k]
  {
    var put := PutAll(m, f.always, v);
    match f.ifFree
    case None => put
    case Some(k) => if k in put then put else put[k := v]
  }

  /**
   * Files the star of line `i`: a catalog row's name key always ends up
   * naming line `i`, while a legacy row leaves an existing name key alone.
   */
  function AddRow(index: map<string, nat>, rec: StarRecord, i: nat): (r: map<string, nat>)
    ensures r.Keys >= index.Keys
    ensures forall k :: k in r && r[k] != i ==> k in index && r[k] == index[k]
    ensures rec.CatalogStar? ==> NameKey(rec.name) in r && r[NameKey(rec.name)] == i
    ensures rec.CatalogStar? && rec.hipId > 0 ==> HipKey(rec.hipId) in r && r[HipKey(rec.hipId)] == i
    ensures rec.LegacyStar? ==> CompoundKey(rec.systemName, rec.name) in r && r[CompoundKey(rec.systemName, rec.name)] == i
    ensures rec.LegacyStar? ==> NameKey(rec.name) in r
    ensures rec.LegacyStar? && NameKey(rec.name) in index ==> r[NameKey(rec.name)] == index[NameKey(rec.name)]
  {
    File(index, FilingOf(rec), i)
  }

  /** The decoded rows of a file, line by line. */
  function DecodeStarRows(lines: seq<string>): (rows: seq<Option<StarRecord>>)
    ensures |rows| == |lines|
    ensures forall i :: 0 <= i < |lines| ==> rows[i] == DecodeStarRow(lines[i])
  {
    seq(|lines|, i requires 0 <= i < |lines| => DecodeStarRow(lines[i]))
  }

  function AddOptionalRow(index: map<string, nat>, row: Option<StarRecord>, i: nat): map<string, nat>
  {
    match row
    case None => index
    case Some(rec) => AddRow(index, rec, i)
  }

  /** The index after rows `i..`, starting from `index`. */
  function IndexFrom(rows: seq<Option<StarRecord>>, i: nat, index: map<string, nat>): (r: map<string, nat>)
    decreases |rows| - i
  {
    if i >= |rows| then index
    else IndexFrom(rows, i + 1, AddOptionalRow(index, rows[i], i))
  }

  /** For each key of the loaded map, the line whose star it holds; line 0 is the header. */
  function StarIndex(lines: seq<string>): map<string, nat>
  {
    IndexFrom(DecodeStarRows(lines), 1, map[])
  }

  predicate IndexRefersToRows(rows: seq<Option<StarRecord>>, index: map<string, nat>)
  {
    forall k :: k in index ==> 1 <= index[k] < |rows| && rows[index[k]].Some?
  }

  /** Every key refers to a star row (never the header), starting from an index that does. */
  lemma {:induction false} IndexFromRefersToRows(rows: seq<Option<StarRecord>>, i: nat, index: map<string, nat>)
    requires 1 <= i && IndexRefersToRows(rows, index)
    ensures IndexRefersToRows(rows, IndexFrom(rows, i, index))
    decreases |rows| - i
  {
    if i < |rows| {
      IndexFromRefersToRows(rows, i + 1, AddOptionalRow(index, rows[i], i));
    }
  }

  /** Every key of the loaded map refers to a decodable star row after the header. */
  lemma StarIndexRefersToRows(lines: seq<string>)
    ensures forall k :: k in StarIndex(lines) ==>
      1 <= StarIndex(lines)[k] < |lines| && DecodeStarRow(lines[StarIndex(lines)[k]]).Some?
  {
    IndexFromRefersToRows(DecodeStarRows(lines), 1, map[]);
  }

  /** Processing one more row extends the index by that row. */
  lemma {:induction false} IndexFromSnoc(rows: seq<Option<StarRecord>>, row: Option<StarRecord>, i: nat, index: map<string, nat>)
    requires i <= |rows|
    ensures IndexFrom(rows + [row], i, index) == AddOptionalRow(IndexFrom(rows, i, index), row, |rows|)
    decreases |rows| - i
  {
    if i < |rows| {
      assert (rows + [row])[i] == rows[i];
      IndexFromSnoc(rows, row, i + 1, AddOptionalRow(index, rows[i], i));
    } else {
      assert (rows + [row])[i] == row;
    }
  }

  /** The index of a file with one more line is the old index with that line's row filed. */
  lemma StarIndexSnoc(lines: seq<string>, line: string)
    requires lines != []
    ensures StarIndex(lines + [line]) == AddOptionalRow(StarIndex(lines), DecodeStarRow(line), |lines|)
  {
    var rows, row := DecodeStarRows(lines), DecodeStarRow(line);
    DecodeStarRowsSnoc(lines, line);
    IndexFromSnoc(rows, row, 1, map[]);
  }

  lemma DecodeStarRowsSnoc(lines: seq<string>, line: string)
    ensures DecodeStarRows(lines + [line]) == DecodeStarRows(lines) + [DecodeStarRow(line)]
  {
    var rows := DecodeStarRows(lines + [line]);
    assert rows[|lines|] == DecodeStarRow(line);
    assert rows[..|lines|] == DecodeStarRows(lines);
    assert rows == rows[..|lines|] + [rows[|lines|]];
  }

  /** A later catalog row takes over its name key, whatever was filed under it before. */
  lemma LaterCatalogRowWins(lines: seq<string>, line: string)
    requires lines != [] && DecodeStarRow(line).Some? && DecodeStarRow(line).value.CatalogStar?
    ensures var key := NameKey(DecodeStarRow(line).value.name);
            key in StarIndex(lines + [line]) && StarIndex(lines + [line])[key] == |lines|
  {
    var rec := DecodeStarRow(line).value;
    StarIndexSnoc(lines, line);
    assert StarIndex(lines + [line]) == AddRow(StarIndex(lines), rec, |lines|);
  }

  /** A later legacy row never takes over a name key that is already filed. */
  lemma EarlierNameKeyKeptByLegacyRow(lines: seq<string>, line: string, key: string)
    requires lines != [] && DecodeStarRow(line).Some? && DecodeStarRow(line).value.LegacyStar?
    requires key == NameKey(DecodeStarRow(line).value.name) && key in StarIndex(lines)
    ensures key in StarIndex(lines + [line]) && StarIndex(lines + [line])[key] == StarIndex(lines)[key]
  {
    var rec := DecodeStarRow(line).value;
    StarIndexSnoc(lines, line);
    assert StarIndex(lines + [line]) == AddRow(StarIndex(lines), rec, |lines|);
  }

  predicate KeysLowerCase(index: map<string, nat>)
  {
    forall k :: k in index ==> IsLowerCase(k)
  }

  /** Every key AddRow files under is lower-case. */
  lemma AddRowKeysLowerCase(index: map<string, nat>, rec: StarRecord, i: nat)
    requires KeysLowerCase(index)
    ensures KeysLowerCase(AddRow(index, rec, i))
  {
    LowerCaseIsLowerFixpoint(rec.name);
    match rec
    case CatalogStar(hipId, _, _, _, _, _, _, _, _) =>
      var k := HipKey(hipId);
      forall j | 0 <= j < |k|
        ensures !('A' <= k[j] <= 'Z')
      {
        if j >= 3 {
          var digits := IntToString(hipId);
          assert k[j] == digits[j - 3];
          if hipId < 0 {
            assert digits[1..] == NatToString(-hipId);
            if j > 3 {
              assert digits[j - 3] == NatToString(-hipId)[j - 4];
            }
          }
        }
      }
    case LegacyStar(systemName, name, _, _, _, _, _, _) =>
      LowerCaseIsLowerFixpoint(systemName + "_" + name);
  }

  lemma {:induction false} IndexFromKeysLowerCase(rows: seq<Option<StarRecord>>, i: nat, index: map<string, nat>)
    requires KeysLowerCase(index)
    ensures KeysLowerCase(IndexFrom(rows, i, index))
    decreases |rows| - i
  {
    if i < |rows| {
      if rows[i].Some? {
        AddRowKeysLowerCase(index, rows[i].value, i);
      }
      IndexFromKeysLowerCase(rows, i + 1, AddOptionalRow(index, rows[i], i));
    }
  }

  /** Every key of the loaded map is lower-case, which is what makes the lower-cased lookups of the planet loader and the search case-insensitive. */
  lemma StarKeysAreLowerCase(lines: seq<string>)
    ensures forall k :: k in StarIndex(lines) ==> IsLowerCase(k)
  {
    IndexFromKeysLowerCase(DecodeStarRows(lines), 1, map[]);
  }

  // ---------------------------------------------------------------- building stars

  /** `s` is the star the loader builds from `rec`. */
  predicate BuiltFrom(s: Star, rec: StarRecord, m: Libm)
    reads s.body
  {
    s.Name() == rec.name && s.spectralClass == Trim(rec.spectralClass) &&
    match rec
    case CatalogStar(hipId, habitable, name, sc, dist, xg, yg, zg, absMag) =>
      s.hipId == hipId && s.habitable == habitable && s.distanceParsecs == dist &&
      s.absoluteMagnitude == absMag &&
      s.body.massKg == EstimatedMassSolar(Trim(sc)) * SOLAR_MASS_TO_KG &&
      s.body.Position() == CatalogPosition(name, xg, yg, zg) &&
      s.body.radiusKm == StarRadiusKm(name, Trim(sc), s.body.massKg, m.pow)
    case LegacyStar(_, name, sc, dist, ra, dec, massSolar, absMag) =>
      s.hipId == 0 && s.distanceLy == dist && s.absoluteMagnitude == absMag &&
      s.body.massKg == massSolar * SOLAR_MASS_TO_KG &&
      s.body.Position() == EquatorialPosition(name, dist, ra, dec, m) &&
      s.body.radiusKm == StarRadiusKm(name, Trim(sc), s.body.massKg, m.pow)
  }

  method BuildStar(rec: StarRecord, m: Libm) returns (s: Star)
    ensures fresh(s) && fresh(s.body)
    ensures BuiltFrom(s, rec, m)
  {
    if rec.CatalogStar? {
      s := new Star.Catalog(rec.hipId, rec.habitable, rec.name, rec.spectralClass, rec.distanceParsecs,
                            rec.xGalactic, rec.yGalactic, rec.zGalactic, rec.absMag, m.pow);
    } else {
      s := new Star.Legacy(rec.name, rec.spectralClass, rec.distanceLy, rec.ra, rec.dec, rec.massSolar, rec.absMag, m);
    }
  }

  /**
   * A map of values agrees with an index over rows before `upTo`: the same
   * keys, each naming a decodable row, and two keys holding the same value
   * exactly when they name the same row.
   */
  predicate InStep<V(==)>(vals: map<string, V>, index: map<string, nat>, rows: seq<Option<StarRecord>>, upTo: nat)
  {
    vals.Keys == index.Keys &&
    (forall k :: k in vals ==> 1 <= index[k] < upTo && index[k] < |rows| && rows[index[k]].Some?) &&
    (forall k1, k2 :: k1 in vals && k2 in vals ==> (vals[k1] == vals[k2] <==> index[k1] == index[k2]))
  }

  /** Each star is the one built from the row its key names. */
  predicate AllBuilt(stars: map<string, Star>, index: map<string, nat>, rows: seq<Option<StarRecord>>, m: Libm)
    reads set k | k in stars :: stars[k].body
  {
    forall k :: k in stars && k in index && index[k] < |rows| && rows[index[k]].Some? ==>
      BuiltFrom(stars[k], rows[index[k]].value, m)
  }

  /** The loader's map agrees with an index over rows before `upTo`, star by star. */
  predicate Loaded(stars: map<string, Star>, index: map<string, nat>, rows: seq<Option<StarRecord>>, upTo: nat, m: Libm)
    reads set k | k in stars :: stars[k].body
  {
    InStep(stars, index, rows, upTo) && AllBuilt(stars, index, rows, m)
  }

  /** Handles row `i` of the star file: builds its star, if any, and puts it under the keys the row takes. */
  method AddStarRow(stars: map<string, Star>, ghost index: map<string, nat>, ghost rows: seq<Option<StarRecord>>,
                    row: Option<StarRecord>, i: nat, m: Libm)
    returns (stars': map<string, Star>, ghost index': map<string, nat>)
    requires 1 <= i < |rows| && row == rows[i]
    requires Loaded(stars, index, rows, i, m)
    ensures index' == AddOptionalRow(index, row, i)
    ensures Loaded(stars', index', rows, i + 1, m)
    ensures forall k :: k in stars' ==> (k in stars && stars'[k] == stars[k]) || (fresh(stars'[k]) && fresh(stars'[k].body))
  {
    if row.None? {
      return stars, index;
    }
    var rec := row.value;
    var s := BuildStar(rec, m);
    assert Loaded(stars, index, rows, i, m);
    assert s !in stars.Values;
    InStepAfterFile(stars, index, rows, i, rec, s);
    AllBuiltAfterFile(stars, index, rows, i, m, rec, s);
    stars' := File(stars, FilingOf(rec), s);
    index' := AddOptionalRow(index, row, i);
  }

  /** Putting a new value under the keys row `i` takes keeps a map in step with the index extended by that row. */
  lemma InStepAfterFile<V>(vals: map<string, V>, index: map<string, nat>, rows: seq<Option<StarRecord>>, i: nat,
                           rec: StarRecord, v: V)
    requires 1 <= i < |rows| && rows[i] == Some(rec)
    requires InStep(vals, index, rows, i) && v !in vals.Values
    ensures InStep(File(vals, FilingOf(rec), v), AddOptionalRow(index, rows[i], i), rows, i + 1)
  {
    var f := FilingOf(rec);
    assert AddOptionalRow(index, rows[i], i) == File(index, f, i);
    FiledKeysInStep(vals, index, rows, i, f, v);
    FiledValuesInStep(vals, index, rows, i, f, v);
  }

  /** After filing, every key still names a decodable row, now before `i + 1`. */
  lemma FiledKeysInStep<V>(vals: map<string, V>, index: map<string, nat>, rows: seq<Option<StarRecord>>, i: nat,
                           f: Filing, v: V)
    requires 1 <= i < |rows| && rows[i].Some? && InStep(vals, index, rows, i)
    ensures var vals', index' := File(vals, f, v), File(index, f, i);
      vals'.Keys == index'.Keys &&
      forall k :: k in vals' ==> 1 <= index'[k] < i + 1 && index'[k] < |rows| && rows[index'[k]].Some?
  {
  }

  /** After filing a value not yet present, two keys share a value exactly when they name the same row. */
  lemma FiledValuesInStep<V>(vals: map<string, V>, index: map<string, nat>, rows: seq<Option<StarRecord>>, i: nat,
                             f: Filing, v: V)
    requires 1 <= i && InStep(vals, index, rows, i) && v !in vals.Values
    ensures var vals', index' := File(vals, f, v), File(index, f, i);
      forall k1, k2 :: k1 in vals' && k2 in vals' ==> (vals'[k1] == vals'[k2] <==> index'[k1] == index'[k2])
  {
    var vals' := File(vals, f, v);
    var index' := File(index, f, i);
    forall k1, k2 | k1 in vals' && k2 in vals'
      ensures vals'[k1] == vals'[k2] <==> index'[k1] == index'[k2]
    {
      if !Takes(f, k1, vals.Keys) {
        assert index[k1] < i && vals[k1] in vals.Values;
      }
      if !Takes(f, k2, vals.Keys) {
        assert index[k2] < i && vals[k2] in vals.Values;
      }
    }
  }

  /** Putting the star built from row `i` under the keys that row takes keeps every key's star built from its row. */
  lemma AllBuiltAfterFile(stars: map<string, Star>, index: map<string, nat>, rows: seq<Option<StarRecord>>, i: nat,
                          m: Libm, rec: StarRecord, s: Star)
    requires i < |rows| && rows[i] == Some(rec) && stars.Keys == index.Keys
    requires AllBuilt(stars, index, rows, m) && BuiltFrom(s, rec, m)
    ensures AllBuilt(File(stars, FilingOf(rec), s), File(index, FilingOf(rec), i), rows, m)
  {
    var f := FilingOf(rec);
    var stars' := File(stars, f, s);
    var index' := File(index, f, i);
    forall k | k in stars' && k in index' && index'[k] < |rows| && rows[index'[k]].Some?
      ensures BuiltFrom(stars'[k], rows[index'[k]].value, m)
    {
      if !Takes(f, k, stars.Keys) {
        assert stars'[k] == stars[k] && index'[k] == index[k];
      }
    }
  }

  /**
   * Reads the star file (its first line is the header): the loaded map has
   * exactly the keys of StarIndex, each key holds a fresh star built from
   * the row StarIndex names, and two keys hold the same star exactly when
   * they name the same row.
   */
  method ParseStars(lines: seq<string>, m: Libm) returns (stars: map<string, Star>)
    ensures stars.Keys == StarIndex(lines).Keys
    ensures forall k :: k in stars ==> fresh(stars[k]) && fresh(stars[k].body)
    ensures forall k :: k in stars ==>
      var i := StarIndex(lines)[k];
      1 <= i < |lines| && DecodeStarRow(lines[i]).Some? && BuiltFrom(stars[k], DecodeStarRow(lines[i]).value, m)
    ensures forall k1, k2 :: k1 in stars && k2 in stars ==>
      (stars[k1] == stars[k2] <==> StarIndex(lines)[k1] == StarIndex(lines)[k2])
  {
    if |lines| == 0 {
      return map[];
    }
    var rows := DecodeStarRows(lines);
    stars := AddStarRows(rows, m);
    LoadedFile(stars, lines, m);
  }

  /** Handles the rows after the header one by one, starting from an empty map. */
  method AddStarRows(rows: seq<Option<StarRecord>>, m: Libm) returns (stars: map<string, Star>)
    requires |rows| >= 1
    ensures Loaded(stars, IndexFrom(rows, 1, map[]), rows, |rows|, m)
    ensures forall k :: k in stars ==> fresh(stars[k]) && fresh(stars[k].body)
  {
    stars := map[];
    ghost var index: map<string, nat> := map[];
    var i := 1;
    while i < |rows|
      invariant 1 <= i <= |rows|
      invariant IndexFrom(rows, i, index) == IndexFrom(rows, 1, map[])
      invariant Loaded(stars, index, rows, i, m)
      invariant forall k :: k in stars ==> fresh(stars[k]) && fresh(stars[k].body)
    {
      stars, index := AddStarRow(stars, index, rows, rows[i], i, m);
      i := i + 1;
    }
  }

  /** A map loaded from the whole file is described by StarIndex row by row. */
  lemma LoadedFile(stars: map<string, Star>, lines: seq<string>, m: Libm)
    requires Loaded(stars, StarIndex(lines), DecodeStarRows(lines), |lines|, m)
    ensures stars.Keys == StarIndex(lines).Keys
    ensures forall k :: k in stars ==>
      var i := StarIndex(lines)[k];
      1 <= i < |lines| && DecodeStarRow(lines[i]).Some? && BuiltFrom(stars[k], DecodeStarRow(lines[i]).value, m)
    ensures forall k1, k2 :: k1 in stars && k2 in stars ==>
      (stars[k1] == stars[k2] <==> StarIndex(lines)[k1] == StarIndex(lines)[k2])
  {
  }

  // ---------------------------------------------------------------- planets

  datatype PlanetRecord = PlanetRecord(name: string, starName: string, distanceFromStarAU: real,
                                       massEarth: real, radiusEarth: real, hasRings: bool)

  /**
   * One line of the planet file after the header:
   * `Name,Star,DistanceAU,MassEarth,RadiusEarth,Rings`; nothing when the
   * line is skipped, has fewer than six fields, a number does not parse or
   * a name is empty.
   */
  function DecodePlanetRow(raw: string): (r: Option<PlanetRecord>)
    ensures r.Some? ==> r.value.name != [] && r.value.starName != []
    ensures r.Some? ==> |SplitAll(Trim(raw), ',')| >= 6
    ensures r.Some? ==> (r.value.hasRings <==> Lower(Trim(SplitAll(Trim(raw), ',')[5])) in {"1", "yes"})
    ensures r.Some? ==> var parts := SplitAll(Trim(raw), ',');
              r.value.name == Trim(parts[0]) && r.value.starName == Trim(parts[1]) &&
              ParseDouble(Trim(parts[2])) == Some(r.value.distanceFromStarAU) &&
              ParseDouble(Trim(parts[3])) == Some(r.value.massEarth) &&
              ParseDouble(Trim(parts[4])) == Some(r.value.radiusEarth)
  {
    var line := Trim(raw);
    if SkippedLine(line) then None
    else
      var parts := SplitAll(line, ',');
      if |parts| < 6 then None
      else
        var name := Trim(parts[0]);
        var starName := Trim(parts[1]);
        var dfs := ParseDouble(Trim(parts[2]));
        var mass := ParseDouble(Trim(parts[3]));
        var radius := ParseDouble(Trim(parts[4]));
        var rings := Lower(Trim(parts[5]));
        if dfs.None? || mass.None? || radius.None? || name == [] || starName == [] then None
        else Some(PlanetRecord(name, starName, dfs.value, mass.value, radius.value, rings == "1" || rings == "yes"))
  }

  /** The decoded rows of a planet file, line by line. */
  function DecodePlanetRows(lines: seq<string>): (rows: seq<Option<PlanetRecord>>)
    ensures |rows| == |lines|
    ensures forall i :: 0 <= i < |lines| ==> rows[i] == DecodePlanetRow(lines[i])
  {
    seq(|lines|, i requires 0 <= i < |lines| => DecodePlanetRow(lines[i]))
  }

  predicate Hosted(row: Option<PlanetRecord>, keys: set<string>)
  {
    row.Some? && NameKey(row.value.starName) in keys
  }

  /** The rows `i..` whose host is among the loaded star keys, in file order. */
  function HostedFrom(rows: seq<Option<PlanetRecord>>, i: nat, keys: set<string>): (r: seq<PlanetRecord>)
    ensures forall j :: 0 <= j < |r| ==> NameKey(r[j].starName) in keys
    decreases |rows| - i
  {
    if i >= |rows| then []
    else (if Hosted(rows[i], keys) then [rows[i].value] else []) + HostedFrom(rows, i + 1, keys)
  }

  /** The planets the loader keeps: every well-formed row after the header whose host star is loaded. */
  function HostedPlanets(lines: seq<string>, keys: set<string>): seq<PlanetRecord>
  {
    HostedFrom(DecodePlanetRows(lines), 1, keys)
  }

  lemma {:induction false} HostedFromContains(rows: seq<Option<PlanetRecord>>, from: nat, i: nat, keys: set<string>)
    requires from <= i < |rows| && Hosted(rows[i], keys)
    ensures rows[i].value in HostedFrom(rows, from, keys)
    decreases i - from
  {
    if from < i {
      HostedFromContains(rows, from + 1, i, keys);
    }
  }

  /** A well-formed planet row after the header is kept exactly when its host's lower-cased name is a star key. */
  lemma PlanetKeptIffHostLoaded(lines: seq<string>, i: nat, keys: set<string>)
    requires 1 <= i < |lines| && DecodePlanetRow(lines[i]).Some?
    ensures var rec := DecodePlanetRow(lines[i]).value;
            rec in HostedPlanets(lines, keys) <==> NameKey(rec.starName) in keys
  {
    var rows := DecodePlanetRows(lines);
    if Hosted(rows[i], keys) {
      HostedFromContains(rows, 1, i, keys);
    }
  }

  /** `p` is the planet the loader builds from `rec` around `host`. */
  predicate PlanetBuiltFrom(p: Planet, rec: PlanetRecord, host: Star)
    reads p.body, host.body
  {
    p.body.name == rec.name && p.hostStar == host && p.distanceFromStarAU == rec.distanceFromStarAU &&
    p.hasRings == rec.hasRings &&
    p.body.massKg == rec.massEarth * EARTH_MASS_TO_KG && p.body.radiusKm == rec.radiusEarth * EARTH_RADIUS_TO_KM &&
    p.body.Position() == PlanetPosition(Some(host.body.Position()), rec.distanceFromStarAU)
  }

  /**
   * Reads the planet file (its first line is the header) against the loaded
   * stars: one fresh planet per HostedPlanets row, in order, each attached
   * to the star filed under its host's lower-cased name.
   */
  method ParsePlanets(lines: seq<string>, stars: map<string, Star>) returns (planets: seq<Planet>)
    ensures |planets| == |HostedPlanets(lines, stars.Keys)|
    ensures forall j :: 0 <= j < |planets| ==>
      var rec := HostedPlanets(lines, stars.Keys)[j];
      fresh(planets[j].body) && planets[j].Valid() && PlanetBuiltFrom(planets[j], rec, stars[NameKey(rec.starName)])
  {
    var rows := DecodePlanetRows(lines);
    planets := AttachPlanets(rows, stars);
  }

  /** The planet loop over decoded rows: builds the planet of each row after the header whose host is loaded. */
  method AttachPlanets(rows: seq<Option<PlanetRecord>>, stars: map<string, Star>) returns (planets: seq<Planet>)
    ensures |planets| == |HostedFrom(rows, 1, stars.Keys)|
    ensures forall j :: 0 <= j < |planets| ==>
      var rec := HostedFrom(rows, 1, stars.Keys)[j];
      fresh(planets[j].body) && planets[j].Valid() && PlanetBuiltFrom(planets[j], rec, stars[NameKey(rec.starName)])
  {
    planets := [];
    if |rows| == 0 {
      return;
    }
    ghost var keys := stars.Keys;
    ghost var done: seq<PlanetRecord> := [];
    var i := 1;
    while i < |rows|
      invariant 1 <= i <= |rows|
      invariant done + HostedFrom(rows, i, keys) == HostedFrom(rows, 1, keys)
      invariant |planets| == |done|
      invariant forall j :: 0 <= j < |done| ==> NameKey(done[j].starName) in stars
      invariant forall j :: 0 <= j < |planets| ==>
        fresh(planets[j].body) && planets[j].Valid() && PlanetBuiltFrom(planets[j], done[j], stars[NameKey(done[j].starName)])
    {
      var row := rows[i];
      ghost var rest := HostedFrom(rows, i + 1, keys);
      assert HostedFrom(rows, i, keys) == (if Hosted(row, keys) then [row.value] else []) + rest;
      if row.Some? && NameKey(row.value.starName) in stars {
        var rec := row.value;
        var host := stars[NameKey(rec.starName)];
        var p := new Planet(rec.name, host, rec.distanceFromStarAU, rec.massEarth, rec.radiusEarth, rec.hasRings);
        assert (done + [rec]) + rest == done + ([rec] + rest);
        planets := planets + [p];
        done := done + [rec];
      } else {
        assert done + ([] + rest) == done + rest;
      }
      i := i + 1;
    }
  }
}
