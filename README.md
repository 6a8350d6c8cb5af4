# Starz catalog and navigation core, in Dafny

This project models the non-graphical core of the Starz 3D star viewer, a
Java/LWJGL program. The core reads a star catalog and a planet catalog from
CSV lines, derives each star's mass, radius, position and colour from its
spectral class and coordinates, thins out overlapping stars, and decides
which stars a frame draws. It also picks the star at the centre of the view,
answers the search box, moves the camera and builds the index buffer of the
sphere mesh that stars are drawn with.

Every `double` and `float` is a Dafny `real`. `Math.sqrt`, `sin`, `cos`,
`acos`, `pow` and JOML's `normalize` are fields of a `Libm` record that the
caller passes in. The proofs use no numeric fact about them beyond what a
lemma states in its `requires` (for example `sin² + cos² = 1`). `HashMap`
iteration order is an input: a sequence that lists every key exactly once.

Modules, grouped by Java source file, plus shared helpers:

- `Units` holds the conversion constants (`Units.java`).
- `Bodies` holds the classes `CelestialBody`, `Star` and `Planet`. They keep their mutable fields, and their constructors and `calculate*` methods are specified against pure functions of the inputs.
- `Spectral` holds the pure logic of `Star.java`:
  - luminosity class;
  - mass and radius estimates;
  - the Sun rule;
  - RA/Dec parsing;
  - colour.
- `DataLoader` holds the star and planet CSV loaders, which run over a sequence of lines.
- `Overlap`, `TreeMaps`, `ViewQueries` and `StarSearch` hold the specification functions for `UniverseSim.java`:
  - the overlap pass;
  - the `TreeMap` with bumped keys;
  - the visible set and the selection;
  - the search lookup.
- `Universe` holds the imperative `UniverseSim` class, whose methods are proved against those functions.
- `Cameras` holds the `Camera` class and its clamps.
- `Sphere` holds the `SphereMesh` class and its vertex and index generation.
- `JavaText` and `Geometry` hold the Java library behaviour the core relies on:
  - ASCII `toLowerCase`/`toUpperCase`/`trim`;
  - `split`;
  - `Integer.parseInt`/`toString`;
  - a decimal `Double.parseDouble`;
  - the `(int)` cast;
  - vectors.

The source's quirks are kept and proved as they are:

- a class such as `"G2 IV"` is read as luminosity class `I`, because `" I"` is checked before `" IV"` (`SubgiantReadAsSupergiant`);
- a bare `"G2"` is read as a giant through its `G` (`BareGReadAsGiant`);
- `"VII"` can never be returned (`LuminosityClassNeverVII`);
- a star filed under two keys meets itself in the overlap pass and is marked (`SelfPairMarked`).

The overlap pass is proved in both directions. Every name it marks belongs to the larger star of an overlapping pair in one bucket (`MarkAllMarksFairly`). No bucket keeps two overlapping stars whose names both stay unmarked (`MarkAllComplete`).

## Model

| member | source | states |
|---|---|---|
| Units.DerivedConstants | src/main/java/com/universe/Units.java:4-10 | AU→LY times LY→km is AU→km, and Earth→solar mass times solar mass→kg is Earth mass→kg: the derived constants are the stated quotients |
| Units.ScalingKeepsPositive | src/main/java/com/universe/Units.java:4-13 | every conversion factor is positive, so scaling a positive quantity by any of them stays positive |
| Units.AuIsFractionOfLightYear | src/main/java/com/universe/Units.java:4-10 | AU→LY and Earth→solar mass lie strictly between 0 and 1 |
| Units.SunExceedsEarth | src/main/java/com/universe/Units.java:8-13 | the Sun's radius and mass exceed the Earth's |
| Bodies.CelestialBody.constructor | src/main/java/com/universe/CelestialBody.java:10-15 | the name is stored as given; position, mass and radius start at zero |
| Bodies.CelestialBody.SetPosition | src/main/java/com/universe/CelestialBody.java:23-27 | the position read back is exactly the one set; mass and radius are unchanged |
| Bodies.Star.Catalog | src/main/java/com/universe/Star.java:103-124 | a current-format star stores its fields with the class trimmed, converts parsecs to light-years, and gets the estimated mass, the galactic position and the radius the specification functions define |
| Bodies.Star.Legacy | src/main/java/com/universe/Star.java:127-143 | a legacy star has catalog number 0, is not habitable, converts light-years to parsecs, takes the given solar mass, and gets the equatorial position and the radius the specification functions define |
| Bodies.Star.EstimateMassFromSpectralClass | src/main/java/com/universe/Star.java:146-211 | mass becomes the class's estimated solar mass in kg; position and radius are unchanged |
| Bodies.Star.CalculatePosition | src/main/java/com/universe/Star.java:214-229 | position becomes the galactic coordinates in light-years, or the origin for the Sun; mass and radius are unchanged |
| Bodies.Star.CalculatePositionFromEquatorial | src/main/java/com/universe/Star.java:232-259 | position becomes the RA/Dec/distance point, the origin when parsing fails or the distance is 0, and the origin for the Sun; mass and radius are unchanged |
| Bodies.Star.CalculateRadius | src/main/java/com/universe/Star.java:262-341 | radius becomes the estimated radius in km (solar radius for the Sun); position and mass are unchanged |
| Bodies.PlanetPosition | src/main/java/com/universe/Planet.java:28-46 | with no host the planet is at the origin; otherwise it shares the host's y and z, lies on the +x side for a non-negative distance and strictly on the −x side for a negative one (negative distances are not rejected), and its squared offset from the host is the squared AU distance in light-years |
| Bodies.Planet.constructor | src/main/java/com/universe/Planet.java:8-19 | host, AU distance and ring flag are stored as given; Earth masses and radii are converted to kg and km; the position is the placement above |
| Bodies.Planet.CalculatePosition | src/main/java/com/universe/Planet.java:28-46 | the position is recomputed from the host; mass and radius are unchanged |
| Spectral.LuminosityClass | src/main/java/com/universe/Star.java:344-389 | the class is empty exactly when the spectral string is, and otherwise one of I–VII |
| Spectral.ClassOfUpper | src/main/java/com/universe/Star.java:353-388 | for a non-empty upper-cased class the result is always a luminosity class |
| Spectral.SpacedNumeral | src/main/java/com/universe/Star.java:353-366 | the space-prefixed numeral test yields nothing or a luminosity class |
| Spectral.SuffixNumeral | src/main/java/com/universe/Star.java:368-375 | the suffix test yields nothing or a luminosity class |
| Spectral.LetterGuess | src/main/java/com/universe/Star.java:377-388 | the letter fallback always yields a luminosity class |
| Spectral.LuminosityClassNeverVII | src/main/java/com/universe/Star.java:354-375 | no class string is ever read as VII: " V" shadows the spaced test and "II" the suffix test |
| Spectral.LuminosityClassVIIsSuffix | src/main/java/com/universe/Star.java:358-372 | class VI is returned only for an upper-cased class ending in "VI" and containing no " V" |
| Spectral.SubgiantReadAsSupergiant | src/main/java/com/universe/Star.java:354-357 | "G2 IV" is read as class I |
| Spectral.BareGReadAsGiant | src/main/java/com/universe/Star.java:377-383 | "G2" is read as class III |
| Spectral.BareMIsMainSequence | src/main/java/com/universe/Star.java:369-389 | "M0" is read as class V |
| Spectral.LuminosityClassIgnoresCase | src/main/java/com/universe/Star.java:351 | lower-casing the class does not change its luminosity class |
| Spectral.Subtype | src/main/java/com/universe/Star.java:160-161 | the subtype, when present, is a digit 0–9 |
| Spectral.MassLuminosityFactor | src/main/java/com/universe/Star.java:190-210 | the luminosity mass factor is at least 1 |
| Spectral.MainSequenceMassSolar | src/main/java/com/universe/Star.java:153-187 | the subtype or table mass is positive |
| Spectral.EstimatedMassSolar | src/main/java/com/universe/Star.java:146-211 | the estimated mass is positive, and exactly one solar mass for an empty class |
| Spectral.M0WeighsHalfASun | src/main/java/com/universe/Star.java:182-184 | "M0" weighs 0.5 solar masses |
| Spectral.BareG2MassIsGiantMass | src/main/java/com/universe/Star.java:176-210 | "G2" weighs (1.1 − 2·0.04)·5 solar masses, the giant factor applied |
| Spectral.SubtypeMassNonIncreasing | src/main/java/com/universe/Star.java:157-187 | within a letter, a later subtype never weighs more |
| Spectral.RadiusLuminosityFactor | src/main/java/com/universe/Star.java:303-321 | the luminosity radius factor is at least 1 |
| Spectral.MainSequenceRadiusSolar | src/main/java/com/universe/Star.java:269-301 | the subtype or table radius is positive |
| Spectral.ScaleRadius | src/main/java/com/universe/Star.java:303-321 | a factor of at least 1 never shrinks a positive radius |
| Spectral.CapRadius | src/main/java/com/universe/Star.java:323-326 | the cap yields a positive radius of at most 25 solar radii, either the input or the cap |
| Spectral.CappedRadiusSolar | src/main/java/com/universe/Star.java:270-326 | the capped estimate lies in (0, 25] solar radii |
| Spectral.RadiusIsCappedOrPowerLaw | src/main/java/com/universe/Star.java:323-338 | for class V above 0.1 solar masses the radius is m^0.8, m^0.57 or m^0.5 by mass band; otherwise it is the capped estimate |
| Spectral.SunIsPinned | src/main/java/com/universe/Star.java:214-267 | a star named "Sun" in any case sits at the origin in both constructors and has exactly the solar radius |
| Spectral.ParseSexagesimal | src/main/java/com/universe/Star.java:393-398 | a value is read exactly when the text splits into three ':' fields and each of them parses as a double; a field that fails to parse gives nothing |
| Spectral.SexagesimalFields | src/main/java/com/universe/Star.java:393-398 | when the three fields parse as x, y and z, the value read is x + y/60 + z/3600 |
| Spectral.SexagesimalValue | src/main/java/com/universe/Star.java:393-398 | "H:M:S" written in digits reads as H + M/60 + S/3600 |
| Spectral.RaTextValue | src/main/java/com/universe/Star.java:392-401 | an "H:M:S" right ascension below 24 hours reads as toRadians(15 × its hours) |
| Spectral.NegativeDecTextValue | src/main/java/com/universe/Star.java:404-425 | "-D:M:S" reads as toRadians of the negated degrees when they are within 90, and is refused beyond 90 |
| Spectral.ParseRa | src/main/java/com/universe/Star.java:392-401 | RA succeeds exactly when the hours are in [0, 24), and then lies in [0, 2π) |
| Spectral.ParseDec | src/main/java/com/universe/Star.java:404-425 | after an optional leading sign, a declination is read exactly when the text after the sign is sexagesimal and the degrees, negated for '-', lie in [−90, 90]; the result lies in [−π/2, π/2] |
| Spectral.SignedDec | src/main/java/com/universe/Star.java:412-424 | the signed declination is read exactly when the body is sexagesimal and its degrees, negated for '-', lie in [−90, 90]; it then lies in [−π/2, π/2] |
| Spectral.DecSignIsSymmetric | src/main/java/com/universe/Star.java:404-425 | "+x" parses exactly when "−x" does, to its negation, and "+x" parses as "x" |
| Spectral.StarColor | src/main/java/com/universe/Star.java:427-433 | each channel is in 0–255; an empty class takes G's colour; otherwise the colour is the table entry of the upper-cased first letter, or white when that letter is not in the table |
| Spectral.StarColorIgnoresCase | src/main/java/com/universe/Star.java:431-432 | two classes whose first letters differ only in case get the same colour |
| DataLoader.FieldOrZero | src/main/java/com/universe/DataLoader.java:114-119 | an empty numeric field reads as 0.0 |
| DataLoader.DecodeCatalogRow | src/main/java/com/universe/DataLoader.java:96-138 | a decoded current-format row has a non-empty trimmed name; it is habitable exactly when its trimmed flag is non-empty and not "0"; the catalog number is 0 for an empty field, else the parsed integer; distance and galactic x, y, z are FieldOrZero of fields 4–7 (an empty field reads 0.0); a missing or empty magnitude field gives 4.85 for "Sun" in any case and 0.0 otherwise, and a present one is its parsed value |
| DataLoader.DecodeLegacyRow | src/main/java/com/universe/DataLoader.java:141-171 | a decoded legacy row has the trimmed fields 0, 1, 2, 4 and 5 as system, non-empty name, class, RA and Dec, and field 3 parsed as its distance; the Sun gets mass 1.0 and magnitude 4.85; any other star has an eighth field, and its mass and magnitude are fields 6 and 7 parsed, so a number that does not parse gives no row |
| DataLoader.DecodeStarRow | src/main/java/com/universe/DataLoader.java:60-80 | no blank, comment or comma-only line yields a star |
| DataLoader.RowFormatDispatch | src/main/java/com/universe/DataLoader.java:63-75 | a current-format star comes only from ≥8 fields with a numeric first field, a legacy star only from ≥7 fields otherwise, and fewer than 7 fields give nothing |
| DataLoader.SevenFieldLegacyRowIsSun | src/main/java/com/universe/DataLoader.java:152-153 | a seven-field row that loads must be the Sun, since parts[7] is read otherwise |
| DataLoader.CompoundKey | src/main/java/com/universe/DataLoader.java:163 | the compound key is longer than the bare name key, so the two never coincide |
| DataLoader.FilingOf | src/main/java/com/universe/DataLoader.java:131-137 | a current-format row always takes its name key and, for id > 0, "hip"+id; a legacy row always takes its compound key and its name key only if free |
| DataLoader.PutAll | src/main/java/com/universe/DataLoader.java:131-137 | putting under several keys overwrites exactly those keys |
| DataLoader.File | src/main/java/com/universe/DataLoader.java:163-170 | filing changes exactly the keys the row takes, putIfAbsent ones only when absent |
| DataLoader.AddRow | src/main/java/com/universe/DataLoader.java:131-137 | the index only grows; the row's name key (current format), its "hip" key (id > 0) and its compound key (legacy) point at it; a legacy row keeps an existing name key |
| DataLoader.StarIndexRefersToRows | src/main/java/com/universe/DataLoader.java:50-59 | every key names a decodable line after the header |
| DataLoader.LaterCatalogRowWins | src/main/java/com/universe/DataLoader.java:131-132 | a later current-format row takes over its name key |
| DataLoader.EarlierNameKeyKeptByLegacyRow | src/main/java/com/universe/DataLoader.java:167-170 | a later legacy row never takes over a filed name key |
| DataLoader.StarKeysAreLowerCase | src/main/java/com/universe/DataLoader.java:131-167 | every key of the loaded map is lower-case |
| DataLoader.BuildStar | src/main/java/com/universe/DataLoader.java:127-160 | the star built is the constructor's result for the decoded row |
| DataLoader.AddStarRow | src/main/java/com/universe/DataLoader.java:60-80 | one line's step keeps the map in step with the index and each star built from its row |
| DataLoader.ParseStars | src/main/java/com/universe/DataLoader.java:44-82 | the map's keys are the index's; each key holds the star built from the line it names; two keys hold the same star exactly when they name the same line |
| DataLoader.AddStarRows | src/main/java/com/universe/DataLoader.java:47-82 | the loop over decoded rows after the header loads every row |
| DataLoader.LoadedFile | src/main/java/com/universe/DataLoader.java:44-82 | the loop invariant at the end is the loader's promise |
| DataLoader.DecodePlanetRow | src/main/java/com/universe/DataLoader.java:212-235 | a decoded planet came from ≥6 fields; its non-empty name and host are the trimmed fields 0 and 1; its distance, mass and radius are fields 2–4 parsed, so a number that does not parse gives no planet; it has rings exactly when field 5 is "1" or "yes" in any case |
| DataLoader.HostedFrom | src/main/java/com/universe/DataLoader.java:237-243 | every kept planet's host is a loaded star key |
| DataLoader.PlanetKeptIffHostLoaded | src/main/java/com/universe/DataLoader.java:237-243 | a well-formed planet row is kept exactly when its host's lower-cased name is loaded |
| DataLoader.ParsePlanets | src/main/java/com/universe/DataLoader.java:199-252 | one fresh planet per kept row, in order, each built around the star filed under its host's name |
| DataLoader.AttachPlanets | src/main/java/com/universe/DataLoader.java:203-251 | the planet loop builds exactly the kept rows' planets |
| Cameras.FrontDirectionIsUnit | src/main/java/com/universe/Camera.java:57-63 | the front vector from yaw and pitch has length 1 |
| Cameras.InitialFrontLooksDownNegativeZ | src/main/java/com/universe/Camera.java:24-28 | at yaw −90, pitch 0 the camera looks along −z |
| Cameras.RightIsHorizontal | src/main/java/com/universe/Camera.java:65 | front × world-up is horizontal and perpendicular to front |
| Cameras.Opposite | src/main/java/com/universe/Camera.java:97-112 | each direction has a distinct opposite |
| Cameras.OppositeMovesCancel | src/main/java/com/universe/Camera.java:97-102 | a move followed by the opposite move with the same step returns to the start |
| Cameras.MoveLength | src/main/java/com/universe/Camera.java:89-115 | a move's squared length is (speed·dt)² times the axis's squared length |
| Cameras.ClampPitch | src/main/java/com/universe/Camera.java:128-133 | the pitch ends in [−89, 89], unchanged exactly when already inside |
| Cameras.ScrolledZoom | src/main/java/com/universe/Camera.java:142-150 | zoom − offset, clamped to [1, 120], unchanged exactly when inside |
| Cameras.ScrollIsMonotone | src/main/java/com/universe/Camera.java:142-150 | scrolling further never zooms out less |
| Cameras.AdjustedSpeed | src/main/java/com/universe/Camera.java:153-169 | ×1.5 capped at 100, ÷1.5 floored at 0.01; a speed in range stays in range |
| Cameras.SpeedStepsUndo | src/main/java/com/universe/Camera.java:153-169 | an uncapped increase followed by a decrease restores the speed |
| Cameras.SpeedBoundsAreFixpoints | src/main/java/com/universe/Camera.java:153-169 | increasing at 100 and decreasing at 0.01 change nothing |
| Cameras.Camera.constructor | src/main/java/com/universe/Camera.java:41-54 | the main constructor copies position and up and sets yaw −90, pitch 0, speed 1, sensitivity 0.1, zoom 45 and the derived basis |
| Cameras.Camera.At | src/main/java/com/universe/Camera.java:31-33 | the same with world up (0,1,0) |
| Cameras.Camera.AtCoordinates | src/main/java/com/universe/Camera.java:36-38 | the same from three coordinates |
| Cameras.Camera.Initialize | src/main/java/com/universe/Camera.java:41-54 | reinitialises the camera to the constructor's state |
| Cameras.Camera.UpdateCameraVectors | src/main/java/com/universe/Camera.java:57-67 | the basis becomes the one yaw, pitch and world up define; nothing else changes |
| Cameras.Camera.ProcessKeyboard | src/main/java/com/universe/Camera.java:89-115 | the position moves by speed·dt along the direction's axis; no other field changes |
| Cameras.Camera.ProcessMouseMovement | src/main/java/com/universe/Camera.java:119-138 | yaw and pitch gain offset·sensitivity, the pitch clamped when asked; the basis is recomputed |
| Cameras.Camera.ProcessMouseScroll | src/main/java/com/universe/Camera.java:142-150 | zoom is the clamped scroll and stays in [1, 120]; nothing else changes |
| Cameras.Camera.AdjustSpeed | src/main/java/com/universe/Camera.java:153-169 | the speed is the adjusted speed and keeps the range invariant; nothing else changes |
| Sphere.VertexOnUnitSphere | src/main/java/com/universe/SphereMesh.java:18-40 | every vertex lies on the unit sphere |
| Sphere.Row | src/main/java/com/universe/SphereMesh.java:23-39 | a latitude row has lon+1 vertices |
| Sphere.RowsLayout | src/main/java/com/universe/SphereMesh.java:18-40 | after k rows, vertex (lat, lon) sits at lat·(lon+1)+lon |
| Sphere.GridLayout | src/main/java/com/universe/SphereMesh.java:18-40 | the grid holds (lat+1)(lon+1) vertices, each at its index |
| Sphere.Flatten | src/main/java/com/universe/SphereMesh.java:28-38 | three floats per vertex |
| Sphere.FlattenAt | src/main/java/com/universe/SphereMesh.java:28-38 | floats 3i, 3i+1, 3i+2 are vertex i's x, y, z |
| Sphere.QuadJoinsCellCorners | src/main/java/com/universe/SphereMesh.java:44-53 | each cell emits (first, second, first+1), (second, second+1, first+1) with second = first+lon+1, each triangle with distinct corners |
| Sphere.GridIndicesInRange | src/main/java/com/universe/SphereMesh.java:44-53 | 6·lat·lon indices, each below the vertex count |
| Sphere.AppendRow | src/main/java/com/universe/SphereMesh.java:18-39 | one latitude row appends its vertices' floats to positions, and the normals equal the positions |
| Sphere.BuildVertices | src/main/java/com/universe/SphereMesh.java:18-40 | the position list is the flattened grid of 3(lat+1)(lon+1) floats, and the normal list equals it |
| Sphere.BuildIndices | src/main/java/com/universe/SphereMesh.java:42-55 | the index list is the grid's triangles, 6·lat·lon of them |
| Sphere.CopyToArray | src/main/java/com/universe/SphereMesh.java:57-62 | the array is an element-for-element copy of the list |
| Sphere.SphereMesh.constructor | src/main/java/com/universe/SphereMesh.java:13-65 | arrays hold the grid, equal normals and the index buffer; vertexCount = (lat+1)(lon+1), indexCount = 6·lat·lon, and every index is below vertexCount |
| Overlap.SameBucketSameCell | src/main/java/com/universe/UniverseSim.java:893 | two stars share a bucket key exactly when their (int)-truncated x, y and z agree |
| Overlap.Members | src/main/java/com/universe/UniverseSim.java:891-899 | a bucket holds exactly the stars with its key, in iteration order |
| Overlap.GroupIsBuckets | src/main/java/com/universe/UniverseSim.java:891-899 | a key is bucketed exactly when some star has it, and its bucket is exactly those stars |
| Overlap.WithinIsDistanceBelow | src/main/java/com/universe/UniverseSim.java:921-930 | the square-free test equals "distance < radius·1.057e-13" |
| Overlap.OverlapsSymmetric | src/main/java/com/universe/UniverseSim.java:921-930 | overlap does not depend on the order of the pair |
| Overlap.Inner | src/main/java/com/universe/UniverseSim.java:912-944 | the inner loop only adds names of the bucket |
| Overlap.Outer | src/main/java/com/universe/UniverseSim.java:907-945 | the outer loop only adds names of the bucket |
| Overlap.MarkAll | src/main/java/com/universe/UniverseSim.java:902-946 | the pass over buckets only adds names |
| Overlap.SmallBucketsMarkNothing | src/main/java/com/universe/UniverseSim.java:904 | a bucket of at most one star marks nothing |
| Overlap.MarkAllMarksFairly | src/main/java/com/universe/UniverseSim.java:933-942 | every marked name belongs to an overlapping pair in one bucket and is its larger star, or the second on a tie |
| Overlap.InnerComplete | src/main/java/com/universe/UniverseSim.java:912-944 | if star1 stays unmarked after its inner loop, it overlaps no later star that also stays unmarked |
| Overlap.OuterComplete | src/main/java/com/universe/UniverseSim.java:907-945 | after the outer loop, no two stars that both stay unmarked overlap |
| Overlap.MarkBucketComplete | src/main/java/com/universe/UniverseSim.java:904-945 | after a bucket's pass, no two of its stars whose names stay unmarked overlap |
| Overlap.MarkAllComplete | src/main/java/com/universe/UniverseSim.java:902-946 | after the pass over all buckets, no bucket holds two overlapping stars whose names both stay unmarked |
| Overlap.SelfPairMarked | src/main/java/com/universe/UniverseSim.java:891-945 | a star present twice in a bucket, with positive radius, is marked by meeting itself |
| Overlap.CapitalisedNamesRemoveNothing | src/main/java/com/universe/UniverseSim.java:950-952 | marked names that are not lower-case remove nothing from a lower-case-keyed map |
| TreeMaps.Put | src/main/java/com/universe/UniverseSim.java:557 | a put adds one entry and keeps the others |
| TreeMaps.PutOrdered | src/main/java/com/universe/UniverseSim.java:557 | putting a fresh key keeps iteration order strict |
| TreeMaps.FreeKey | src/main/java/com/universe/UniverseSim.java:553-556 | the bumped key is at least the distance and not yet taken |
| ViewQueries.CollectShape | src/main/java/com/universe/UniverseSim.java:538-558 | the filled map is ordered and holds each accepted star exactly once, under a key no smaller than its distance |
| ViewQueries.VisibleSetSpec | src/main/java/com/universe/UniverseSim.java:534-558 | keys strictly decrease; a star is drawn exactly when in view (≤1000, dot > cos 75°), then once, keyed at least its distance |
| ViewQueries.Candidates | src/main/java/com/universe/UniverseSim.java:741-762 | candidates refer to stars of the iteration |
| ViewQueries.ScoreBelowOne | src/main/java/com/universe/UniverseSim.java:787-798 | a candidate's score is below 1, so below Double.MAX_VALUE |
| ViewQueries.CandidateScoresBelowOne | src/main/java/com/universe/UniverseSim.java:774-798 | every selection candidate scores below 1, so the best-so-far never keeps Double.MAX_VALUE |
| ViewQueries.ScanFindsBest | src/main/java/com/universe/UniverseSim.java:768-805 | the scan returns the lowest score among the first 10 entries within 100, the earliest on ties, and none when none is scored |
| ViewQueries.PickSpec | src/main/java/com/universe/UniverseSim.java:765-810 | the pick is among the first 10; it is the best scored entry, or the nearest candidate when nothing is scored, and none only without candidates |
| ViewQueries.ClosestIsCandidate | src/main/java/com/universe/UniverseSim.java:730-814 | a star is picked exactly when one is selectable (≤500, angle < 15°), and the pick is selectable |
| StarSearch.Query | src/main/java/com/universe/UniverseSim.java:166 | the query is lower-case with no blank at either end |
| StarSearch.FirstContaining | src/main/java/com/universe/UniverseSim.java:195-203 | the first star whose lower-cased name contains the query, and none exactly when no star's does |
| StarSearch.QueryIgnoresCase | src/main/java/com/universe/UniverseSim.java:166 | upper- or lower-casing the input gives the same query |
| StarSearch.QueryIgnoresPadding | src/main/java/com/universe/UniverseSim.java:166 | a blank on either side gives the same query |
| StarSearch.SearchIgnoresCaseAndPadding | src/main/java/com/universe/UniverseSim.java:166-203 | case and surrounding blanks never change the star found |
| StarSearch.NumberIsRead | src/main/java/com/universe/UniverseSim.java:169-186 | "hip<n>" and "<n>" both name catalog number n |
| StarSearch.LeadingZerosNameTheSameStar | src/main/java/com/universe/UniverseSim.java:170-174 | "hip007" and "hip+7" name number 7; a bare "hip" names none |
| StarSearch.CatalogNumberFindsStar | src/main/java/com/universe/UniverseSim.java:169-186 | a star filed under "hip<n>" is found by "hip<n>" and by "<n>" |
| StarSearch.SearchFindsMapStar | src/main/java/com/universe/UniverseSim.java:166-203 | a found star is a star of the map; nothing is found exactly when the number, the exact key and every name fail |
| Universe.PutUnique | src/main/java/com/universe/UniverseSim.java:553-557 | the key-bumping loop then put is the TreeMap put under the free key |
| Universe.MarkOverlapping | src/main/java/com/universe/UniverseSim.java:907-945 | the nested pair loops mark exactly what the bucket specification marks |
| Universe.MarkAllBuckets | src/main/java/com/universe/UniverseSim.java:902-946 | the pass marks exactly MarkAll over some enumeration of the buckets, and no bucket keeps two overlapping stars that both stay unmarked |
| Universe.UniverseSim.constructor | src/main/java/com/universe/UniverseSim.java:85-87 | the search box starts closed, empty and without a result |
| Universe.UniverseSim.RemoveOverlappingStars | src/main/java/com/universe/UniverseSim.java:882-966 | the new map is the old minus the names marked over the buckets of the iteration; nothing else changes |
| Universe.UniverseSim.RemoveNames | src/main/java/com/universe/UniverseSim.java:950-952 | a key stays exactly when it was present and is not a marked name, and every entry kept has its old star; nothing else changes |
| Universe.UniverseSim.BucketStars | src/main/java/com/universe/UniverseSim.java:891-899 | the bucket map is the grouping of the stars in iteration order |
| Universe.UniverseSim.VisibleStars | src/main/java/com/universe/UniverseSim.java:537-558 | the frame's TreeMap is the visible set |
| Universe.UniverseSim.CollectCandidates | src/main/java/com/universe/UniverseSim.java:741-762 | the candidate TreeMap is the candidate set |
| Universe.UniverseSim.StarClosestToCenter | src/main/java/com/universe/UniverseSim.java:730-814 | the returned star is the one Closest picks, or null |
| Universe.UniverseSim.ScoreNearest | src/main/java/com/universe/UniverseSim.java:765-810 | the scoring loop's result is the scan's pick |
| Universe.UniverseSim.FindByName | src/main/java/com/universe/UniverseSim.java:195-203 | the name loop finds the first containing star |
| Universe.UniverseSim.FindByNumber | src/main/java/com/universe/UniverseSim.java:169-186 | the star under "hip"+the number the query names, or null |
| Universe.UniverseSim.Lookup | src/main/java/com/universe/UniverseSim.java:166-203 | the lookup yields Search's star |
| Universe.UniverseSim.MoveCameraBeside | src/main/java/com/universe/UniverseSim.java:206-209 | the camera sits at the star with z + 0.1 and its basis is recomputed; its angles, speed and zoom are unchanged |
| Universe.UniverseSim.SearchOnEnter | src/main/java/com/universe/UniverseSim.java:164-212 | the result is Search's star; if found the camera moves beside it, otherwise it stays; the box closes; the map is unchanged |
| JavaText.LowerCaseIsLowerFixpoint | src/main/java/com/universe/DataLoader.java:131 | toLowerCase yields lower-case text and is idempotent, and it leaves unchanged exactly the text that is already lower-case |
| JavaText.Trim | src/main/java/com/universe/DataLoader.java:60 | String.trim leaves no blank at either end |
| JavaText.TrimSkipsLeadingBlank | src/main/java/com/universe/UniverseSim.java:166 | a leading blank does not change the trim |
| JavaText.TrimSkipsTrailingBlank | src/main/java/com/universe/UniverseSim.java:166 | a trailing blank does not change the trim |
| JavaText.SplitAll | src/main/java/com/universe/DataLoader.java:63 | split(",", -1) gives at least one field and no field contains the separator |
| JavaText.JoinSplit | src/main/java/com/universe/DataLoader.java:63 | joining the fields back gives the line |
| JavaText.SplitJoin | src/main/java/com/universe/UniverseSim.java:893 | splitting a join of separator-free fields gives the fields back |
| JavaText.ParseInt | src/main/java/com/universe/DataLoader.java:85-93 | Integer.parseInt yields a 32-bit value from non-empty text, and fails otherwise |
| JavaText.IntToStringParses | src/main/java/com/universe/UniverseSim.java:868-876 | Integer.toString followed by parseInt gives back any 32-bit int |
| JavaText.DigitStringParsesAsDouble | src/main/java/com/universe/DataLoader.java:114 | a digit string parses as the number it writes |

## Left out

- Graphics, windowing and UI are not part of this model. This covers OpenGL, GLFW, STB fonts, `UiRenderer`, `ShaderProgram`, `render` beyond the visible-set loop, the sidebar, `formatScientificNotation`, `getViewMatrix`, and the search box's key editing (UniverseSim.java:213-240).
- Reading files and resources is not modelled. The loaders take the file's lines as a sequence.
- Console messages, the header-format warnings and `System.gc()` are left out. They change no state the model keeps.
- Floating point is modelled as reals:
  - no IEEE rounding;
  - no float↔double casts;
  - no NaN or Infinity. The one NaN the viewer meets is kept: a star at the camera's exact position has a zero direction vector, which JOML normalises to NaN, so it fails the cone tests. InView and Selectable exclude it explicitly. The `(float)` cast of a tiny non-zero offset to zero is not modelled.
- The 1e-6 key bump is exact.
- Math functions are uninterpreted. `sqrt`, `sin`, `cos`, `acos`, `pow` and `normalize` come from a `Libm` parameter, with no numeric facts beyond lemma preconditions. The overlap test avoids `sqrt` by comparing squares, which equals the source's test for the true square root.
- `Double.parseDouble` is a decimal parser (sign, digits, point, exponent, `f`/`d` suffix). It rejects `NaN`, `Infinity` and hexadecimal literals, which Java accepts.
- Spectral.Subtype: reads only the ASCII digits '0'–'9'. `Character.isDigit` and `Character.getNumericValue` also accept the other Unicode decimal digits (Arabic-Indic, Devanagari, fullwidth, …), which are not modelled. A class whose second character is U+0663 (Arabic-Indic digit three) therefore has no subtype here, while the source reads subtype 3.
- Case mapping covers ASCII only. `toLowerCase`, `toUpperCase` and `trim` act on ASCII letters and on characters up to U+0020. Non-ASCII case mapping and non-ASCII digits in `Integer.parseInt` are left out.
- `null` is not modelled. A null spectral class, RA/Dec string or name cannot arise from the CSV loaders; a null host star is modelled as `Option`.
- Exceptions thrown while decoding a line are modelled as the line yielding nothing. The source catches them and moves on.
- `HashMap` iteration order is an input, and the overlap pass's bucket order is chosen by the method. The model states only that each order lists every key once, not which order Java produces.
- Stars in the overlap buckets are snapshots of name, position and radius. TreeMap values are positions in the iteration order.
- `Planet.calculateRadius` has no member. Its body is empty in the source, and the constructor's radius is kept.
- Sphere.SphereMesh.constructor: requires at least one latitude band and one longitude band. With zero bands the source divides by zero and produces NaN vertices. With a negative band count its loops do not run, or run without appending, and it builds an empty mesh. Neither case is modelled. Its only caller uses 16 by 16.
- Universe.UniverseSim.constructor: starts from a given star map and camera. The window setup and loading in `init` are not modelled.
- Several loops run in helper methods (`AddStarRows`, `AttachPlanets`, `MarkOverlapping`, `ScoreNearest`, `FindByName`, `FindByNumber`) rather than inline. Each helper keeps the source's order of steps.
