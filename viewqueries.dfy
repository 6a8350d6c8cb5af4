/**
 * The two per-frame queries over the stars: the set drawn each frame
 * (stars within 1000 light-years and within 75 degrees of the view
 * direction, farthest first) and the star picked at the centre of the view
 * (stars within 500 light-years and 15 degrees, nearest first, the best
 * score among the first ten within 100 light-years).
 */
module ViewQueries {
  import opened JavaText
  import opened Geometry
  import opened CatalogView
  import opened TreeMaps

  const VIEW_DISTANCE: real := 1000.0
  /** Half the field of view used for culling, in degrees. */
  const FOV_HALF_ANGLE: real := 75.0
  const SELECT_DISTANCE: real := 500.0
  /** The selection cone's half angle, in degrees. */
  const SELECT_ANGLE: real := 15.0
  const SCORE_DISTANCE: real := 100.0
  const MAX_SCORED: nat := 10
  const NEAR_DISTANCE: real := 5.0
  /** `Double.MAX_VALUE`, the initial best score. */
  const DOUBLE_MAX: real := 1.7976931348623157e308

  /** `Math.min` and `Math.max`. */
  function Min(a: real, b: real): real
  {
    if a <= b then a else b
  }

  function Max(a: real, b: real): real
  {
    if a >= b then a else b
  }

  /** The distance from the camera to the star. */
  function Distance(v: StarView, camPos: Vec3, m: Libm): real
  {
    m.sqrt(Norm2(Sub(v.pos, camPos)))
  }

  /**
   * Drawn this frame: not farther than 1000 light-years, and the direction to
   * it within 75 degrees of the view direction. A star at the camera's own
   * position has no direction: normalising the zero vector gives NaN, which
   * fails the comparison, so such a star is never drawn.
   */
  predicate InView(v: StarView, camPos: Vec3, front: Vec3, m: Libm)
  {
    !(Distance(v, camPos, m) > VIEW_DISTANCE) && Sub(v.pos, camPos) != Origin &&
    Dot(m.normalize(Sub(v.pos, camPos)), front) > m.cos(ToRadians(FOV_HALF_ANGLE))
  }

  /** The angle between the view direction and the direction to the star, its cosine clamped to [-1, 1]. */
  function Angle(v: StarView, camPos: Vec3, front: Vec3, m: Libm): real
  {
    m.acos(Max(-1.0, Min(1.0, Dot(front, m.normalize(Sub(v.pos, camPos))))))
  }

  /**
   * A selection candidate: not farther than 500 light-years, and within the
   * 15-degree cone. As in InView, a star at the camera's position has a NaN
   * angle (the clamp passes NaN through) and is never a candidate.
   */
  predicate Selectable(v: StarView, camPos: Vec3, front: Vec3, m: Libm)
  {
    !(Distance(v, camPos, m) > SELECT_DISTANCE) && Sub(v.pos, camPos) != Origin &&
    Angle(v, camPos, front, m) < ToRadians(SELECT_ANGLE)
  }

  /** The visible-set filter, the selection filter and the map key, as function values for Collect. */
  function InViewTest(camPos: Vec3, front: Vec3, m: Libm): StarView -> bool
  {
    v => InView(v, camPos, front, m)
  }

  function SelectableTest(camPos: Vec3, front: Vec3, m: Libm): StarView -> bool
  {
    v => Selectable(v, camPos, front, m)
  }

  function DistanceFrom(camPos: Vec3, m: Libm): StarView -> real
  {
    v => Distance(v, camPos, m)
  }

  // ---------------------------------------------------------------- collecting

  /** The tree map after the first `n` stars: each accepted star put under its distance, bumped to a free key. */
  function Collect(views: seq<StarView>, n: nat, accept: StarView -> bool, dist: StarView -> real, reversed: bool): seq<Entry>
    requires n <= |views|
  {
    if n == 0 then []
    else
      var es := Collect(views, n - 1, accept, dist, reversed);
      var v := views[n - 1];
      if accept(v) then Put(es, Entry(FreeKey(es, dist(v)), n - 1), reversed) else es
  }

  /** The position at which Put inserted its entry. */
  lemma {:induction false} PutInserts(es: seq<Entry>, e: Entry, reversed: bool) returns (k: nat)
    ensures k <= |es| && Put(es, e, reversed) == es[..k] + [e] + es[k..]
  {
    if es == [] || Precedes(e.key, es[0].key, reversed) {
      k := 0;
    } else {
      var k' := PutInserts(es[1..], e, reversed);
      k := k' + 1;
      assert es[..k] == [es[0]] + es[1..][..k'];
      assert es[k..] == es[1..][k'..];
    }
  }

  /** Every entry is an accepted star among the first `n`, under a key no smaller than its distance. */
  ghost predicate OnlyAccepted(views: seq<StarView>, n: nat, accept: StarView -> bool, dist: StarView -> real, es: seq<Entry>)
    requires n <= |views|
  {
    forall p :: 0 <= p < |es| ==> es[p].index < n && accept(views[es[p].index]) && es[p].key >= dist(views[es[p].index])
  }

  /** Every accepted star among the first `n` has an entry. */
  ghost predicate AllAccepted(views: seq<StarView>, n: nat, accept: StarView -> bool, es: seq<Entry>)
    requires n <= |views|
  {
    forall i :: 0 <= i < n && accept(views[i]) ==> exists p :: 0 <= p < |es| && es[p].index == i
  }

  /** No star has two entries. */
  predicate DistinctStars(es: seq<Entry>)
  {
    forall p, q :: 0 <= p < q < |es| ==> es[p].index != es[q].index
  }

  /**
   * `es` is in iteration order; it holds every accepted star among the first
   * `n` exactly once and no other star, each under a key no smaller than its
   * distance.
   */
  ghost predicate Shaped(views: seq<StarView>, n: nat, accept: StarView -> bool, dist: StarView -> real, reversed: bool, es: seq<Entry>)
    requires n <= |views|
  {
    Ordered(es, reversed) && OnlyAccepted(views, n, accept, dist, es) &&
    AllAccepted(views, n, accept, es) && DistinctStars(es)
  }

  lemma InsertOnlyAccepted(views: seq<StarView>, n: nat, accept: StarView -> bool, dist: StarView -> real, es: seq<Entry>, k: nat, e: Entry)
    requires 0 < n <= |views| && k <= |es|
    requires OnlyAccepted(views, n - 1, accept, dist, es)
    requires e.index == n - 1 && accept(views[n - 1]) && e.key >= dist(views[n - 1])
    ensures OnlyAccepted(views, n, accept, dist, es[..k] + [e] + es[k..])
  {
    var es' := es[..k] + [e] + es[k..];
    forall p | 0 <= p < |es'|
      ensures es'[p].index < n && accept(views[es'[p].index]) && es'[p].key >= dist(views[es'[p].index])
    {
      if p < k {
        assert es'[p] == es[p];
      } else if p > k {
        assert es'[p] == es[p - 1];
      }
    }
  }

  lemma InsertAllAccepted(views: seq<StarView>, n: nat, accept: StarView -> bool, es: seq<Entry>, k: nat, e: Entry)
    requires 0 < n <= |views| && k <= |es|
    requires AllAccepted(views, n - 1, accept, es)
    requires e.index == n - 1
    ensures AllAccepted(views, n, accept, es[..k] + [e] + es[k..])
  {
    var es' := es[..k] + [e] + es[k..];
    forall i | 0 <= i < n && accept(views[i])
      ensures exists p :: 0 <= p < |es'| && es'[p].index == i
    {
      if i < n - 1 {
        var p :| 0 <= p < |es| && es[p].index == i;
        if p < k {
          assert es'[p] == es[p];
        } else {
          assert es'[p + 1] == es[p];
        }
      } else {
        assert es'[k] == e;
      }
    }
  }

  lemma InsertDistinct(es: seq<Entry>, k: nat, e: Entry)
    requires k <= |es| && DistinctStars(es)
    requires forall p :: 0 <= p < |es| ==> es[p].index < e.index
    ensures DistinctStars(es[..k] + [e] + es[k..])
  {
    var es' := es[..k] + [e] + es[k..];
    forall p, q | 0 <= p < q < |es'|
      ensures es'[p].index != es'[q].index
    {
      var p' := if p < k then p else p - 1;
      var q' := if q <= k then q else q - 1;
      if p != k && q != k {
        assert es'[p] == es[p'] && es'[q] == es[q'];
      } else if p == k {
        assert es'[q] == es[q'];
      } else {
        assert es'[p] == es[p'];
      }
    }
  }

  /** Putting the next accepted star under a free key keeps the shape. */
  lemma PutKeepsShape(views: seq<StarView>, n: nat, accept: StarView -> bool, dist: StarView -> real, reversed: bool, es: seq<Entry>)
    requires 0 < n <= |views| && accept(views[n - 1])
    requires Shaped(views, n - 1, accept, dist, reversed, es)
    ensures Shaped(views, n, accept, dist, reversed, Put(es, Entry(FreeKey(es, dist(views[n - 1])), n - 1), reversed))
  {
    var e := Entry(FreeKey(es, dist(views[n - 1])), n - 1);
    PutOrdered(es, e, reversed);
    var k := PutInserts(es, e, reversed);
    InsertOnlyAccepted(views, n, accept, dist, es, k, e);
    InsertAllAccepted(views, n, accept, es, k, e);
    InsertDistinct(es, k, e);
  }

  /** The collected map has the shape. */
  lemma {:induction false} CollectShape(views: seq<StarView>, n: nat, accept: StarView -> bool, dist: StarView -> real, reversed: bool)
    requires n <= |views|
    ensures Shaped(views, n, accept, dist, reversed, Collect(views, n, accept, dist, reversed))
  {
    if n > 0 {
      CollectShape(views, n - 1, accept, dist, reversed);
      var es := Collect(views, n - 1, accept, dist, reversed);
      if accept(views[n - 1]) {
        PutKeepsShape(views, n, accept, dist, reversed, es);
      }
    }
  }

  // ---------------------------------------------------------------- visible set

  /** The stars drawn this frame, farthest first. */
  function VisibleSet(views: seq<StarView>, camPos: Vec3, front: Vec3, m: Libm): seq<Entry>
  {
    Collect(views, |views|, InViewTest(camPos, front, m), DistanceFrom(camPos, m), true)
  }

  /**
   * The frame's set: keys strictly decreasing; a star is in it exactly when
   * it is in view, and then exactly once, under a key no smaller than its
   * distance.
   */
  lemma VisibleSetSpec(views: seq<StarView>, camPos: Vec3, front: Vec3, m: Libm)
    ensures var es := VisibleSet(views, camPos, front, m);
      (forall p, q :: 0 <= p < q < |es| ==> es[p].key > es[q].key) &&
      (forall p :: 0 <= p < |es| ==>
         es[p].index < |views| && es[p].key >= Distance(views[es[p].index], camPos, m)) &&
      (forall i :: 0 <= i < |views| ==> (InView(views[i], camPos, front, m) <==> exists p :: 0 <= p < |es| && es[p].index == i)) &&
      (forall p, q :: 0 <= p < q < |es| ==> es[p].index != es[q].index)
  {
    CollectShape(views, |views|, InViewTest(camPos, front, m), DistanceFrom(camPos, m), true);
  }

  // ---------------------------------------------------------------- selection

  /** The candidates for selection, nearest first. */
  function Candidates(views: seq<StarView>, camPos: Vec3, front: Vec3, m: Libm): (es: seq<Entry>)
    ensures forall p :: 0 <= p < |es| ==> es[p].index < |views|
  {
    CollectShape(views, |views|, SelectableTest(camPos, front, m), DistanceFrom(camPos, m), false);
    Collect(views, |views|, SelectableTest(camPos, front, m), DistanceFrom(camPos, m), false)
  }

  /** The selection score (lower is better): mostly the angle, partly the distance up to 10 light-years, halved within 5. */
  function Score(key: real, angle: real): real
  {
    var distanceWeight := Min(key / 10.0, 1.0);
    var angleWeight := angle / ToRadians(SELECT_ANGLE);
    var score := angleWeight * 0.7 + distanceWeight * 0.3;
    if key < NEAR_DISTANCE then score * 0.5 else score
  }

  /** Inside the cone every score is below 1, so the first star scored always beats the initial `Double.MAX_VALUE`. */
  lemma ScoreBelowOne(key: real, angle: real)
    requires angle < ToRadians(SELECT_ANGLE)
    ensures Score(key, angle) < 1.0
  {
    var c := ToRadians(SELECT_ANGLE);
    assert c > 0.0;
    assert angle / c < 1.0;
  }

  /** The score of each candidate, in iteration order. */
  function Scores(es: seq<Entry>, views: seq<StarView>, camPos: Vec3, front: Vec3, m: Libm): (r: seq<real>)
    requires forall p :: 0 <= p < |es| ==> es[p].index < |views|
    ensures |r| == |es|
    ensures forall p :: 0 <= p < |es| ==> r[p] == Score(es[p].key, Angle(views[es[p].index], camPos, front, m))
  {
    seq(|es|, p requires 0 <= p < |es| => Score(es[p].key, Angle(views[es[p].index], camPos, front, m)))
  }

  /** Entry `q` is scored: it is among the first ten and not farther than 100 light-years. */
  predicate Scored(keys: seq<real>, q: int)
  {
    0 <= q < MAX_SCORED && q < |keys| && keys[q] <= SCORE_DISTANCE
  }

  /**
   * The scoring loop from entry `p` on: entries beyond 100 light-years are
   * skipped, a strictly lower score replaces the best so far, and the loop
   * stops after the tenth entry that is not skipped.
   */
  function ScanFrom(keys: seq<real>, scores: seq<real>, p: nat, closest: Option<nat>, closestScore: real): Option<nat>
    requires |keys| == |scores| && p <= |keys|
    decreases |keys| - p
  {
    if p == |keys| then closest
    else if keys[p] > SCORE_DISTANCE then ScanFrom(keys, scores, p + 1, closest, closestScore)
    else
      var better := scores[p] < closestScore;
      var c := if better then Some(p) else closest;
      var cs := if better then scores[p] else closestScore;
      if p + 1 >= MAX_SCORED then c else ScanFrom(keys, scores, p + 1, c, cs)
  }

  /** The pick: none without candidates, else the best-scored entry, else the nearest. */
  function Pick(keys: seq<real>, scores: seq<real>): Option<nat>
    requires |keys| == |scores|
  {
    if keys == [] then None
    else
      match ScanFrom(keys, scores, 0, None, DOUBLE_MAX)
      case Some(p) => Some(p)
      case None => Some(0)
  }

  predicate Ascending(keys: seq<real>)
  {
    forall i, j :: 0 <= i < j < |keys| ==> keys[i] < keys[j]
  }

  /** `c` is the best of the scored entries before `p`, the earliest on ties, with score `cs`. */
  ghost predicate BestBefore(keys: seq<real>, scores: seq<real>, p: nat, c: Option<nat>, cs: real)
    requires |keys| == |scores|
  {
    (c.None? ==> cs == DOUBLE_MAX && forall q :: 0 <= q < p ==> !Scored(keys, q)) &&
    (c.Some? ==>
       c.value < p && Scored(keys, c.value) && cs == scores[c.value] &&
       (forall q :: 0 <= q < p && Scored(keys, q) ==> cs <= scores[q]) &&
       (forall q :: 0 <= q < c.value && Scored(keys, q) ==> cs < scores[q]))
  }

  /** `r` is the best of all scored entries, the earliest on ties, and none exactly when nothing is scored. */
  ghost predicate IsBest(keys: seq<real>, scores: seq<real>, r: Option<nat>)
    requires |keys| == |scores|
  {
    (r.None? <==> forall q :: !Scored(keys, q)) &&
    (r.Some? ==>
       Scored(keys, r.value) &&
       (forall q :: Scored(keys, q) ==> scores[r.value] <= scores[q]) &&
       (forall q :: 0 <= q < r.value && Scored(keys, q) ==> scores[r.value] < scores[q]))
  }

  lemma {:induction false} ScanFindsBest(keys: seq<real>, scores: seq<real>, p: nat, c: Option<nat>, cs: real)
    requires |keys| == |scores| && p <= |keys| && Ascending(keys)
    requires forall q :: 0 <= q < |scores| ==> scores[q] < DOUBLE_MAX
    requires BestBefore(keys, scores, p, c, cs)
    requires p >= MAX_SCORED ==> forall q :: p <= q < |keys| ==> keys[q] > SCORE_DISTANCE
    ensures IsBest(keys, scores, ScanFrom(keys, scores, p, c, cs))
    decreases |keys| - p
  {
    if p < |keys| {
      if keys[p] > SCORE_DISTANCE {
        assert !Scored(keys, p);
        ScanFindsBest(keys, scores, p + 1, c, cs);
      } else {
        assert Scored(keys, p);
        var better := scores[p] < cs;
        var c' := if better then Some(p) else c;
        var cs' := if better then scores[p] else cs;
        assert BestBefore(keys, scores, p + 1, c', cs');
        if p + 1 < MAX_SCORED {
          ScanFindsBest(keys, scores, p + 1, c', cs');
        }
      }
    }
  }

  /**
   * The pick is none exactly when there are no candidates, and otherwise one
   * of the first ten: the best-scored entry (the earliest on ties) when
   * some entry is scored, else the nearest candidate.
   */
  lemma PickSpec(keys: seq<real>, scores: seq<real>)
    requires |keys| == |scores| && Ascending(keys)
    requires forall q :: 0 <= q < |scores| ==> scores[q] < DOUBLE_MAX
    ensures Pick(keys, scores).None? <==> keys == []
    ensures Pick(keys, scores).Some? ==> Pick(keys, scores).value < |keys| && Pick(keys, scores).value < MAX_SCORED
    ensures keys != [] && (exists q :: Scored(keys, q)) ==> IsBest(keys, scores, Pick(keys, scores))
    ensures keys != [] && (forall q :: !Scored(keys, q)) ==> Pick(keys, scores) == Some(0)
  {
    if keys != [] {
      ScanFindsBest(keys, scores, 0, None, DOUBLE_MAX);
    }
  }

  /** The star picked at the centre of the view, as its position in the iteration order. */
  function Closest(views: seq<StarView>, camPos: Vec3, front: Vec3, m: Libm): Option<nat>
  {
    var cands := Candidates(views, camPos, front, m);
    match Pick(Keys(cands), Scores(cands, views, camPos, front, m))
    case None => None
    case Some(p) => if p < |cands| then Some(cands[p].index) else None
  }

  /** Every candidate scores below 1: the score of the best so far never stays at `Double.MAX_VALUE`. */
  lemma CandidateScoresBelowOne(views: seq<StarView>, camPos: Vec3, front: Vec3, m: Libm)
    ensures var cands := Candidates(views, camPos, front, m);
            var scores := Scores(cands, views, camPos, front, m);
            forall q :: 0 <= q < |scores| ==> scores[q] < 1.0
  {
    CollectShape(views, |views|, SelectableTest(camPos, front, m), DistanceFrom(camPos, m), false);
    var cands := Candidates(views, camPos, front, m);
    var scores := Scores(cands, views, camPos, front, m);
    forall q | 0 <= q < |scores|
      ensures scores[q] < 1.0
    {
      ScoreBelowOne(cands[q].key, Angle(views[cands[q].index], camPos, front, m));
    }
  }

  /** A star is picked exactly when some star is a candidate, and the pick is always a candidate. */
  lemma ClosestIsCandidate(views: seq<StarView>, camPos: Vec3, front: Vec3, m: Libm)
    ensures Closest(views, camPos, front, m).None? <==>
              forall i :: 0 <= i < |views| ==> !Selectable(views[i], camPos, front, m)
    ensures Closest(views, camPos, front, m).Some? ==>
              var i := Closest(views, camPos, front, m).value;
              i < |views| && Selectable(views[i], camPos, front, m)
  {
    CollectShape(views, |views|, SelectableTest(camPos, front, m), DistanceFrom(camPos, m), false);
    var cands := Candidates(views, camPos, front, m);
    var keys := Keys(cands);
    var scores := Scores(cands, views, camPos, front, m);
    CandidateScoresBelowOne(views, camPos, front, m);
    PickSpec(keys, scores);
    if cands != [] {
      assert Selectable(views[cands[0].index], camPos, front, m);
    }
  }
}
