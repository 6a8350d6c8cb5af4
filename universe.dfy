/**
 * The viewer's state and its catalog passes: the star map, the camera and
 * the search box. The passes read the stars in the map's iteration order,
 * given as a list of its keys; the overlap pass picks the order of its own
 * bucket map itself and reports it.
 */
module Universe {
  import opened JavaText
  import opened Geometry
  import opened Bodies
  import opened Cameras
  import opened CatalogView
  import opened Overlap
  import opened TreeMaps
  import opened ViewQueries
  import opened StarSearch
  import DataLoader

  /** The star found by a search, or null. */
  function Found(r: Option<Star>): Star?
  {
    if r.Some? then r.value else null
  }

  /** Where a found star puts the camera: at the star, a tenth of a light-year along +z. */
  function Beside(p: Vec3): Vec3
  {
    Vec3(p.x, p.y, p.z + 0.1)
  }

  /** `put` under the distance `d`, bumped by KEY_STEP while that key is taken. */
  method PutUnique(es: seq<Entry>, d: real, index: nat, reversed: bool) returns (r: seq<Entry>)
    ensures r == Put(es, Entry(FreeKey(es, d), index), reversed)
  {
    var key := d;
    while HasKey(es, key)
      invariant FreeKey(es, key) == FreeKey(es, d)
      decreases CountFrom(es, key)
    {
      CountDrops(es, key);
      key := key + KEY_STEP;
    }
    r := Put(es, Entry(key, index), reversed);
  }

  /** The pair loops over one bucket, `marked` being the names marked so far. */
  method MarkOverlapping(bucket: seq<StarView>, marked: set<string>) returns (r: set<string>)
    ensures r == MarkBucket(bucket, marked)
  {
    r := marked;
    if |bucket| <= 1 {
      return;
    }
    var i := 0;
    while i < |bucket|
      invariant 0 <= i <= |bucket|
      invariant Outer(bucket, i, r) == Outer(bucket, 0, marked)
    {
      var star1 := bucket[i];
      if star1.name !in r {
        ghost var r0 := r;
        var j := i + 1;
        while j < |bucket|
          invariant i + 1 <= j <= |bucket|
          invariant Inner(bucket, i, j, r) == Inner(bucket, i, i + 1, r0)
        {
          var star2 := bucket[j];
          if star2.name !in r && Overlaps(star1, star2) {
            if star1.radiusKm > star2.radiusKm {
              r := r + {star1.name};
              break;
            }
            r := r + {star2.name};
          }
          j := j + 1;
        }
      }
      i := i + 1;
    }
  }

  /** The bucket loop: every bucket visited once, in an order of the map's own choosing, which is returned. */
  method MarkAllBuckets(positionMap: map<string, seq<StarView>>) returns (starsToRemove: set<string>, ghost bucketOrder: seq<string>)
    ensures IsKeyOrder(bucketOrder, positionMap)
    ensures starsToRemove == MarkAll(positionMap, bucketOrder, {})
    ensures forall k :: k in positionMap ==> UnmarkedApart(positionMap[k], starsToRemove)
  {
    starsToRemove := {};
    var todo := positionMap.Keys;
    bucketOrder := [];
    while todo != {}
      invariant todo <= positionMap.Keys
      invariant forall k :: k in positionMap <==> k in bucketOrder || k in todo
      invariant forall k :: k in bucketOrder ==> k !in todo
      invariant forall p, q :: 0 <= p < q < |bucketOrder| ==> bucketOrder[p] != bucketOrder[q]
      invariant starsToRemove == MarkAll(positionMap, bucketOrder, {})
      decreases |todo|
    {
      var key :| key in todo;
      starsToRemove := MarkOverlapping(positionMap[key], starsToRemove);
      assert (bucketOrder + [key])[..|bucketOrder|] == bucketOrder;
      bucketOrder := bucketOrder + [key];
      todo := todo - {key};
    }
    MarkAllComplete(positionMap, bucketOrder, {});
  }

  class UniverseSim {
    var stars: map<string, Star>
    var camera: Camera
    var searchMode: bool
    var searchInput: string
    var searchResult: Star?

    /** The viewer over a loaded star map and a camera, the search box closed and empty. */
    constructor (stars: map<string, Star>, camera: Camera)
      ensures this.stars == stars && this.camera == camera
      ensures !searchMode && searchInput == [] && searchResult == null
    {
      this.stars := stars;
      this.camera := camera;
      searchMode := false;
      searchInput := [];
      searchResult := null;
    }

    /**
     * Removes every map entry whose key is the name of a star marked as
     * overlapping: the stars are grouped into buckets by their truncated
     * coordinates, the buckets are visited in the order `bucketOrder`, and
     * the pairs of each bucket are marked as MarkBucket says.
     */
    method RemoveOverlappingStars(order: seq<string>) returns (ghost bucketOrder: seq<string>)
      requires IsKeyOrder(order, stars)
      modifies this
      ensures IsKeyOrder(bucketOrder, old(Group(Views(Values(stars, order)))))
      ensures stars == old(stars) - MarkAll(old(Group(Views(Values(stars, order)))), bucketOrder, {})
      ensures camera == old(camera) && searchMode == old(searchMode)
      ensures searchInput == old(searchInput) && searchResult == old(searchResult)
    {
      ghost var buckets := Group(Views(Values(stars, order)));
      var positionMap := BucketStars(order);
      assert positionMap == buckets;
      var starsToRemove;
      starsToRemove, bucketOrder := MarkAllBuckets(positionMap);

      RemoveNames(starsToRemove);
      assert buckets == old(Group(Views(Values(stars, order))));
    }

    /** The removal loop: each marked name is removed as a key of the star map, whether or not it is one. */
    method RemoveNames(starsToRemove: set<string>)
      modifies this
      ensures stars == old(stars) - starsToRemove
      ensures forall k :: k in stars <==> k in old(stars) && k !in starsToRemove
      ensures forall k :: k in stars ==> stars[k] == old(stars)[k]
      ensures camera == old(camera) && searchMode == old(searchMode)
      ensures searchInput == old(searchInput) && searchResult == old(searchResult)
    {
      var toRemove := starsToRemove;
      assert starsToRemove - toRemove == {};
      assert stars == old(stars) - (starsToRemove - toRemove);
      while toRemove != {}
        invariant toRemove <= starsToRemove
        invariant stars == old(stars) - (starsToRemove - toRemove)
        invariant camera == old(camera) && searchMode == old(searchMode)
        invariant searchInput == old(searchInput) && searchResult == old(searchResult)
        decreases |toRemove|
      {
        var starName :| starName in toRemove;
        stars := stars - {starName};
        toRemove := toRemove - {starName};
      }
      assert starsToRemove - toRemove == starsToRemove;
    }

    /** The first loop of the overlap pass: every star, in the iteration order `order`, appended to the bucket of its truncated coordinates. */
    method BucketStars(order: seq<string>) returns (positionMap: map<string, seq<StarView>>)
      requires forall k :: k in order ==> k in stars
      ensures positionMap == Group(Views(Values(stars, order)))
    {
      ghost var vs := Views(Values(stars, order));
      positionMap := map[];
      var i := 0;
      while i < |order|
        invariant 0 <= i <= |order|
        invariant positionMap == Group(vs[..i])
      {
        var star := ViewOf(stars[order[i]]);
        var posKey := BucketKey(star.pos);
        var bucket := if posKey in positionMap then positionMap[posKey] else [];
        positionMap := positionMap[posKey := bucket + [star]];
        GroupSnoc(vs, i);
        assert star == vs[i];
        i := i + 1;
      }
      assert vs[..|order|] == vs;
    }

    /**
     * The stars drawn this frame, farthest first: each as its position in
     * the iteration order `order`, under its distance from the camera.
     */
    method VisibleStars(order: seq<string>, m: Libm) returns (visible: seq<Entry>)
      requires forall k :: k in order ==> k in stars
      ensures visible == VisibleSet(Views(Values(stars, order)), camera.position, camera.front, m)
    {
      var camPos := camera.position;
      var camDir := camera.front;
      var fovAngleCosine := m.cos(ToRadians(FOV_HALF_ANGLE));
      ghost var vs := Views(Values(stars, order));
      visible := [];
      var i := 0;
      while i < |order|
        invariant 0 <= i <= |order|
        invariant visible == Collect(vs, i, InViewTest(camPos, camDir, m), DistanceFrom(camPos, m), true)
      {
        var pos := stars[order[i]].body.Position();
        var toStar := Sub(pos, camPos);
        var distanceToStar := m.sqrt(Norm2(toStar));
        assert vs[i].pos == pos;
        if !(distanceToStar > VIEW_DISTANCE) && toStar != Origin {
          var dotProduct := Dot(m.normalize(toStar), camDir);
          if dotProduct > fovAngleCosine {
            visible := PutUnique(visible, distanceToStar, i, true);
          }
        }
        i := i + 1;
      }
    }

    /** The selection candidates, nearest first, each as its position in the iteration order `order`. */
    method CollectCandidates(order: seq<string>, m: Libm) returns (candidateStars: seq<Entry>)
      requires forall k :: k in order ==> k in stars
      ensures candidateStars == Candidates(Views(Values(stars, order)), camera.position, camera.front, m)
    {
      var camPos := camera.position;
      var camDir := camera.front;
      var maxAngle := ToRadians(SELECT_ANGLE);
      ghost var vs := Views(Values(stars, order));
      candidateStars := [];
      var i := 0;
      while i < |order|
        invariant 0 <= i <= |order|
        invariant candidateStars == Collect(vs, i, SelectableTest(camPos, camDir, m), DistanceFrom(camPos, m), false)
      {
        var pos := stars[order[i]].body.Position();
        var toStar := Sub(pos, camPos);
        var distanceToStar := m.sqrt(Norm2(toStar));
        assert vs[i].pos == pos;
        if !(distanceToStar > SELECT_DISTANCE) && toStar != Origin {
          var angle := m.acos(Max(-1.0, Min(1.0, Dot(camDir, m.normalize(toStar)))));
          if angle < maxAngle {
            candidateStars := PutUnique(candidateStars, distanceToStar, i, false);
          }
        }
        i := i + 1;
      }
    }

    /**
     * The star at the centre of the view: the candidates within 500
     * light-years and 15 degrees, nearest first, the best score among the
     * first ten of them within 100 light-years, else the nearest candidate.
     */
    method StarClosestToCenter(order: seq<string>, m: Libm) returns (closest: Star?)
      requires forall k :: k in order ==> k in stars
      ensures var pick := Closest(Views(Values(stars, order)), camera.position, camera.front, m);
        (pick.None? ==> closest == null) &&
        (pick.Some? ==> pick.value < |order| && closest == stars[order[pick.value]])
    {
      closest := null;
      var candidateStars := CollectCandidates(order, m);
      ClosestIsCandidate(Views(Values(stars, order)), camera.position, camera.front, m);
      if candidateStars != [] {
        ghost var pick;
        closest, pick := ScoreNearest(order, candidateStars, m);
        if closest == null {
          closest := stars[order[candidateStars[0].index]];
        }
      }
    }

    /**
     * The scoring loop over the candidates, nearest first: entries beyond 100
     * light-years are skipped, a strictly lower score replaces the best so
     * far, and the loop stops at the tenth entry that is not skipped.
     */
    method ScoreNearest(order: seq<string>, candidateStars: seq<Entry>, m: Libm) returns (closest: Star?, ghost pick: Option<nat>)
      requires forall k :: k in order ==> k in stars
      requires forall p :: 0 <= p < |candidateStars| ==> candidateStars[p].index < |order|
      ensures pick == ScanFrom(Keys(candidateStars), Scores(candidateStars, Views(Values(stars, order)), camera.position, camera.front, m), 0, None, DOUBLE_MAX)
      ensures pick.None? ==> closest == null
      ensures pick.Some? ==> pick.value < |candidateStars| && closest == stars[order[candidateStars[pick.value].index]]
    {
      var camPos := camera.position;
      var camDir := camera.front;
      var maxAngle := ToRadians(SELECT_ANGLE);
      ghost var vs := Views(Values(stars, order));
      ghost var keys := Keys(candidateStars);
      ghost var scores := Scores(candidateStars, vs, camPos, camDir, m);
      closest := null;
      pick := None;
      var closestScore := DOUBLE_MAX;
      var count := 0;
      var p := 0;
      while p < |candidateStars|
        invariant 0 <= p <= |candidateStars| && count == p
        invariant pick.Some? ==> pick.value < |candidateStars|
        invariant closest == (if pick.Some? then stars[order[candidateStars[pick.value].index]] else null)
        invariant ScanFrom(keys, scores, p, pick, closestScore) == ScanFrom(keys, scores, 0, None, DOUBLE_MAX)
      {
        count := count + 1;
        var entry := candidateStars[p];
        var star := stars[order[entry.index]];
        var distanceToStar := entry.key;
        if !(distanceToStar > SCORE_DISTANCE) {
          var toStar := Sub(star.body.Position(), camPos);
          var angle := m.acos(Max(-1.0, Min(1.0, Dot(camDir, m.normalize(toStar)))));
          var score := Score(distanceToStar, angle);
          assert vs[entry.index].pos == star.body.Position();
          assert score == scores[p];
          if score < closestScore {
            closest := star;
            closestScore := score;
            pick := Some(p);
          }
          if count >= MAX_SCORED {
            assert ScanFrom(keys, scores, 0, None, DOUBLE_MAX) == pick;
            return;
          }
        }
        p := p + 1;
      }
    }

    /** The first star, in the iteration order `order`, whose lowercased name contains the query. */
    method FindByName(order: seq<string>, query: string) returns (found: Star?)
      requires forall k :: k in order ==> k in stars
      ensures found == Found(NameMatch(Values(stars, order), query))
    {
      ghost var vs := Values(stars, order);
      var i := 0;
      while i < |order|
        invariant 0 <= i <= |order|
        invariant forall q :: 0 <= q < i ==> !Contains(Lower(vs[q].Name()), query)
      {
        var star := stars[order[i]];
        if Contains(Lower(star.Name()), query) {
          assert FirstContaining(vs, query) == Some(i);
          return star;
        }
        i := i + 1;
      }
      return null;
    }

    /**
     * Enter in the search box: the typed text is looked up as Search says;
     * a star found moves the camera beside it and recomputes its vectors,
     * and the search box closes either way.
     */
    method SearchOnEnter(order: seq<string>, m: Libm)
      requires forall k :: k in order ==> k in stars
      modifies this, camera
      ensures stars == old(stars) && searchInput == old(searchInput) && camera == old(camera) && !searchMode
      ensures searchResult == Found(Search(old(stars), Values(old(stars), order), old(searchInput)))
      ensures searchResult != null ==>
        camera.position == Beside(searchResult.body.Position()) &&
        camera.CurrentBasis() == CameraBasis(camera.yaw, camera.pitch, camera.worldUp, m)
      ensures searchResult == null ==> camera.position == old(camera.position) && camera.CurrentBasis() == old(camera.CurrentBasis())
      ensures camera.yaw == old(camera.yaw) && camera.pitch == old(camera.pitch) && camera.worldUp == old(camera.worldUp)
      ensures camera.movementSpeed == old(camera.movementSpeed) && camera.zoom == old(camera.zoom)
      ensures camera.mouseSensitivity == old(camera.mouseSensitivity)
    {
      var found := Lookup(order, searchInput);
      if found != null {
        MoveCameraBeside(found, m);
      }
      searchResult := found;
      searchMode := false;
    }

    /** Puts the camera just beside the star and recomputes its vectors; nothing else changes. */
    method MoveCameraBeside(target: Star, m: Libm)
      modifies camera
      ensures camera.position == Beside(target.body.Position())
      ensures camera.CurrentBasis() == CameraBasis(camera.yaw, camera.pitch, camera.worldUp, m)
      ensures camera.yaw == old(camera.yaw) && camera.pitch == old(camera.pitch) && camera.worldUp == old(camera.worldUp)
      ensures camera.movementSpeed == old(camera.movementSpeed) && camera.zoom == old(camera.zoom)
      ensures camera.mouseSensitivity == old(camera.mouseSensitivity)
    {
      camera.position := Beside(target.body.Position());
      camera.UpdateCameraVectors(m);
    }

    /** The lookup itself: by catalog number, then by exact key, then by name. */
    method Lookup(order: seq<string>, input: string) returns (found: Star?)
      requires forall k :: k in order ==> k in stars
      ensures found == Found(Search(stars, Values(stars, order), input))
    {
      var query := Query(input);
      found := FindByNumber(query);
      if found == null {
        if query in stars {
          found := stars[query];
        }
        if found == null {
          found := FindByName(order, query);
        }
      }
    }

    /** The star filed under the catalog number the query names, if any. */
    method FindByNumber(query: string) returns (found: Star?)
      ensures var hip := HipNumber(query);
        found == if hip.Some? && DataLoader.HipKey(hip.value) in stars then stars[DataLoader.HipKey(hip.value)] else null
    {
      found := null;
      if StartsWith(query, "hip") && |query| > 3 {
        var hipId := ParseInt(query[3..]);
        if hipId.Some? && DataLoader.HipKey(hipId.value) in stars {
          found := stars[DataLoader.HipKey(hipId.value)];
        }
      } else if IsNumeric(query) {
        var hipId := ParseInt(query);
        if hipId.Some? && DataLoader.HipKey(hipId.value) in stars {
          found := stars[DataLoader.HipKey(hipId.value)];
        }
      }
    }
  }
}
