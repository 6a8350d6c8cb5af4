/**
 * The overlap pass run once after loading: stars are grouped into buckets by
 * the integer parts of their coordinates, pairs within a bucket are compared
 * for overlap, the larger star of an overlapping pair has its name marked,
 * and the marked names are removed from the star map.
 */
module Overlap {
  import opened JavaText
  import opened Geometry
  import opened CatalogView

  /** The kilometres-to-light-years factor the pass uses for radii. */
  const KM_TO_LY: real := 1.057e-13

  // ---------------------------------------------------------------- buckets

  /** The bucket of a position: `(int) x + "," + (int) y + "," + (int) z`. */
  function BucketKey(p: Vec3): string
  {
    IntToString(IntCast(p.x)) + "," + IntToString(IntCast(p.y)) + "," + IntToString(IntCast(p.z))
  }

  lemma NoCommaInInt(n: int)
    ensures ',' !in IntToString(n)
  {
  }

  /** Comma-free parts are recovered from their comma-joined text. */
  lemma CommaJoinInjective(a: string, b: string, c: string, a': string, b': string, c': string)
    requires ',' !in a && ',' !in b && ',' !in c && ',' !in a' && ',' !in b' && ',' !in c'
    requires a + "," + b + "," + c == a' + "," + b' + "," + c'
    ensures a == a' && b == b' && c == c'
  {
    var parts, parts' := [a, b, c], [a', b', c'];
    JoinThree(a, b, c, ',');
    JoinThree(a', b', c', ',');
    assert Join(parts, ',') == Join(parts', ',');
    SplitJoin(parts, ',');
    SplitJoin(parts', ',');
    assert parts == parts';
    assert parts[0] == a && parts[1] == b && parts[2] == c;
  }

  /** `Integer.toString` tells 32-bit integers apart. */
  lemma IntToStringInjective(x: int, y: int)
    requires INT_MIN <= x <= INT_MAX && INT_MIN <= y <= INT_MAX
    requires IntToString(x) == IntToString(y)
    ensures x == y
  {
    IntToStringParses(x);
    IntToStringParses(y);
  }

  /** Two positions share a bucket exactly when the integer parts of all three coordinates agree. */
  lemma SameBucketSameCell(p: Vec3, q: Vec3)
    ensures BucketKey(p) == BucketKey(q) <==>
              IntCast(p.x) == IntCast(q.x) && IntCast(p.y) == IntCast(q.y) && IntCast(p.z) == IntCast(q.z)
  {
    if BucketKey(p) == BucketKey(q) {
      NoCommaInInt(IntCast(p.x)); NoCommaInInt(IntCast(p.y)); NoCommaInInt(IntCast(p.z));
      NoCommaInInt(IntCast(q.x)); NoCommaInInt(IntCast(q.y)); NoCommaInInt(IntCast(q.z));
      CommaJoinInjective(IntToString(IntCast(p.x)), IntToString(IntCast(p.y)), IntToString(IntCast(p.z)),
                         IntToString(IntCast(q.x)), IntToString(IntCast(q.y)), IntToString(IntCast(q.z)));
      IntToStringInjective(IntCast(p.x), IntCast(q.x));
      IntToStringInjective(IntCast(p.y), IntCast(q.y));
      IntToStringInjective(IntCast(p.z), IntCast(q.z));
    }
  }

  /** The stars of one bucket, in iteration order. */
  function Members(vs: seq<StarView>, key: string): (r: seq<StarView>)
    ensures |r| <= |vs|
    ensures forall i :: 0 <= i < |r| ==> BucketKey(r[i].pos) == key
    ensures forall v :: v in r <==> v in vs && BucketKey(v.pos) == key
  {
    if vs == [] then []
    else
      var init := vs[..|vs| - 1];
      var v := vs[|vs| - 1];
      assert vs == init + [v];
      Members(init, key) + (if BucketKey(v.pos) == key then [v] else [])
  }

  /** The bucket map after adding the stars `vs` one by one, each appended to its bucket's list. */
  function Group(vs: seq<StarView>): map<string, seq<StarView>>
  {
    if vs == [] then map[]
    else
      var g := Group(vs[..|vs| - 1]);
      var v := vs[|vs| - 1];
      var key := BucketKey(v.pos);
      g[key := (if key in g then g[key] else []) + [v]]
  }

  /** Adding the next star of the iteration to the bucket map built so far. */
  lemma GroupSnoc(vs: seq<StarView>, i: nat)
    requires i < |vs|
    ensures Group(vs[..i + 1]) ==
      var g := Group(vs[..i]);
      var key := BucketKey(vs[i].pos);
      g[key := (if key in g then g[key] else []) + [vs[i]]]
  {
    assert vs[..i + 1][..i] == vs[..i];
  }

  /** The bucket map has a bucket for `key` exactly when some star falls in it, and that bucket holds exactly those stars, in iteration order. */
  lemma {:induction false} GroupIsBuckets(vs: seq<StarView>, key: string)
    ensures key in Group(vs) <==> Members(vs, key) != []
    ensures key in Group(vs) ==> Group(vs)[key] == Members(vs, key)
  {
    if vs != [] {
      GroupIsBuckets(vs[..|vs| - 1], key);
    }
  }

  // ---------------------------------------------------------------- marking

  /** `sqrt(d2) < r` for a squared distance `d2 >= 0`, stated without the square root. */
  predicate Within(d2: real, r: real)
  {
    r > 0.0 && d2 < r * r
  }

  /** Within is the distance comparison it replaces. */
  lemma WithinIsDistanceBelow(d: real, r: real)
    requires d >= 0.0
    ensures Within(d * d, r) <==> d < r
  {
    if d < r {
      calc {
        d * d;
      <= d * r;
      <  r * r;
      }
    } else if r > 0.0 {
      calc {
        d * d;
      >= r * d;
      >= r * r;
      }
    }
  }

  /** The centre of either star lies inside the other one's radius. */
  predicate Overlaps(a: StarView, b: StarView)
  {
    var d2 := Norm2(Sub(a.pos, b.pos));
    Within(d2, a.radiusKm * KM_TO_LY) || Within(d2, b.radiusKm * KM_TO_LY)
  }

  /** The overlap test does not depend on which star comes first. */
  lemma OverlapsSymmetric(a: StarView, b: StarView)
    ensures Overlaps(a, b) <==> Overlaps(b, a)
  {
    assert Norm2(Sub(a.pos, b.pos)) == Norm2(Sub(b.pos, a.pos));
  }

  /** The names of the stars of a bucket. */
  function Names(b: seq<StarView>): set<string>
  {
    set v | v in b :: v.name
  }

  /**
   * The inner loop for `star1 = b[i]`, continuing at `star2 = b[j]`: marked
   * stars are skipped; on an overlap the larger star is marked, star1 when
   * strictly larger (which ends the loop), star2 otherwise.
   */
  function Inner(b: seq<StarView>, i: nat, j: nat, marked: set<string>): (r: set<string>)
    requires i < j <= |b|
    ensures marked <= r
    ensures r - marked <= Names(b)
    decreases |b| - j
  {
    if j == |b| then marked
    else if b[j].name in marked then Inner(b, i, j + 1, marked)
    else if Overlaps(b[i], b[j]) then
      if b[i].radiusKm > b[j].radiusKm then marked + {b[i].name}
      else Inner(b, i, j + 1, marked + {b[j].name})
    else Inner(b, i, j + 1, marked)
  }

  /** The outer loop over `star1 = b[i]` onwards; a star whose name is already marked is not compared. */
  function Outer(b: seq<StarView>, i: nat, marked: set<string>): (r: set<string>)
    requires i <= |b|
    ensures marked <= r
    ensures r - marked <= Names(b)
    decreases |b| - i
  {
    if i == |b| then marked
    else if b[i].name in marked then Outer(b, i + 1, marked)
    else Outer(b, i + 1, Inner(b, i, i + 1, marked))
  }

  /** One bucket's pass; a bucket of at most one star is skipped. */
  function MarkBucket(b: seq<StarView>, marked: set<string>): set<string>
  {
    if |b| <= 1 then marked else Outer(b, 0, marked)
  }

  /** The buckets in the order `keys`, the marks accumulating across buckets. */
  function MarkAll(buckets: map<string, seq<StarView>>, keys: seq<string>, marked: set<string>): (r: set<string>)
    requires forall k :: k in keys ==> k in buckets
    ensures marked <= r
  {
    if keys == [] then marked
    else MarkBucket(buckets[keys[|keys| - 1]], MarkAll(buckets, keys[..|keys| - 1], marked))
  }

  /** Skipping small buckets changes nothing: the full pass over such a bucket marks nothing either. */
  lemma SmallBucketsMarkNothing(b: seq<StarView>, marked: set<string>)
    requires |b| <= 1
    ensures Outer(b, 0, marked) == marked
  {
  }

  /**
   * `n` names a star of a pair in the bucket that overlaps and is not the
   * smaller of the two: the first of the pair when strictly larger, the
   * second otherwise.
   */
  ghost predicate MarkedFairly(b: seq<StarView>, n: string)
  {
    exists i, j :: 0 <= i < j < |b| && Overlaps(b[i], b[j]) &&
      ((n == b[i].name && b[i].radiusKm > b[j].radiusKm) ||
       (n == b[j].name && b[i].radiusKm <= b[j].radiusKm))
  }

  lemma {:induction false} InnerMarksFairly(b: seq<StarView>, i: nat, j: nat, marked: set<string>)
    requires i < j <= |b|
    ensures forall n :: n in Inner(b, i, j, marked) - marked ==> MarkedFairly(b, n)
    decreases |b| - j
  {
    if j < |b| && b[j].name !in marked {
      if Overlaps(b[i], b[j]) {
        if b[i].radiusKm <= b[j].radiusKm {
          InnerMarksFairly(b, i, j + 1, marked + {b[j].name});
        }
      } else {
        InnerMarksFairly(b, i, j + 1, marked);
      }
    } else if j < |b| {
      InnerMarksFairly(b, i, j + 1, marked);
    }
  }

  lemma {:induction false} OuterMarksFairly(b: seq<StarView>, i: nat, marked: set<string>)
    requires i <= |b|
    ensures forall n :: n in Outer(b, i, marked) - marked ==> MarkedFairly(b, n)
    decreases |b| - i
  {
    if i < |b| {
      if b[i].name in marked {
        OuterMarksFairly(b, i + 1, marked);
      } else {
        InnerMarksFairly(b, i, i + 1, marked);
        OuterMarksFairly(b, i + 1, Inner(b, i, i + 1, marked));
      }
    }
  }

  /** Every name the pass marks belongs to the larger star of an overlapping pair within one bucket. */
  lemma {:induction false} MarkAllMarksFairly(buckets: map<string, seq<StarView>>, keys: seq<string>, marked: set<string>)
    requires forall k :: k in keys ==> k in buckets
    ensures forall n :: n in MarkAll(buckets, keys, marked) - marked ==>
              exists k :: k in keys && MarkedFairly(buckets[k], n)
  {
    if keys != [] {
      var pre := keys[..|keys| - 1];
      var last := keys[|keys| - 1];
      MarkAllMarksFairly(buckets, pre, marked);
      var mid := MarkAll(buckets, pre, marked);
      if |buckets[last]| > 1 {
        OuterMarksFairly(buckets[last], 0, mid);
      }
      forall n | n in MarkAll(buckets, keys, marked) - marked
        ensures exists k :: k in keys && MarkedFairly(buckets[k], n)
      {
        if n in mid {
          assert n in MarkAll(buckets, pre, marked) - marked;
          var k :| k in pre && MarkedFairly(buckets[k], n);
          assert k in keys;
        } else {
          assert last in keys;
        }
      }
    }
  }

  /**
   * A star listed twice in one bucket (as a star filed under two keys of the
   * map is) with a positive radius overlaps itself, so its name ends up
   * marked, from `star2 = b[j]` onwards of star1's inner loop.
   */
  lemma {:induction false} SelfPairInner(b: seq<StarView>, i: nat, q: nat, j: nat, marked: set<string>)
    requires i < q <= j < |b| && b[i] == b[j] && b[i].radiusKm > 0.0
    ensures b[i].name in Inner(b, i, q, marked)
    decreases j - q
  {
    if q == j {
      SelfOverlaps(b[i]);
    } else if b[q].name in marked {
      SelfPairInner(b, i, q + 1, j, marked);
    } else if Overlaps(b[i], b[q]) {
      if b[i].radiusKm <= b[q].radiusKm {
        SelfPairInner(b, i, q + 1, j, marked + {b[q].name});
      }
    } else {
      SelfPairInner(b, i, q + 1, j, marked);
    }
  }

  /** A star with a positive radius overlaps itself. */
  lemma SelfOverlaps(v: StarView)
    requires v.radiusKm > 0.0
    ensures Overlaps(v, v)
  {
    assert Norm2(Sub(v.pos, v.pos)) == 0.0;
  }

  lemma {:induction false} SelfPairOuter(b: seq<StarView>, p: nat, i: nat, j: nat, marked: set<string>)
    requires p <= i < j < |b| && b[i] == b[j] && b[i].radiusKm > 0.0
    ensures b[i].name in Outer(b, p, marked)
    decreases i - p
  {
    if b[p].name in marked {
      if p < i {
        SelfPairOuter(b, p + 1, i, j, marked);
      }
    } else {
      var next := Inner(b, p, p + 1, marked);
      if p < i {
        SelfPairOuter(b, p + 1, i, j, next);
      } else {
        SelfPairInner(b, i, i + 1, j, marked);
      }
    }
  }

  /** A star that occurs twice in a bucket with a positive radius is marked by that bucket's pass. */
  lemma SelfPairMarked(b: seq<StarView>, i: nat, j: nat, marked: set<string>)
    requires i < j < |b| && b[i] == b[j] && b[i].radiusKm > 0.0
    ensures b[i].name in MarkBucket(b, marked)
  {
    SelfPairOuter(b, 0, i, j, marked);
  }

  /**
   * Completeness of star1's inner loop: when star1 = b[i] is still unmarked at
   * its end, it overlaps no star from b[j] onwards that is unmarked either.
   */
  lemma {:induction false} InnerComplete(b: seq<StarView>, i: nat, j: nat, marked: set<string>)
    requires i < j <= |b|
    ensures b[i].name !in Inner(b, i, j, marked) ==>
              forall q :: j <= q < |b| && b[q].name !in Inner(b, i, j, marked) ==> !Overlaps(b[i], b[q])
    decreases |b| - j
  {
    if j < |b| {
      if b[j].name in marked {
        InnerComplete(b, i, j + 1, marked);
      } else if Overlaps(b[i], b[j]) {
        if b[i].radiusKm <= b[j].radiusKm {
          InnerComplete(b, i, j + 1, marked + {b[j].name});
        }
      } else {
        InnerComplete(b, i, j + 1, marked);
      }
    }
  }

  /** Completeness of the outer loop: two stars from b[p] onwards that both stay unmarked do not overlap. */
  lemma {:induction false} OuterComplete(b: seq<StarView>, p: nat, marked: set<string>)
    requires p <= |b|
    ensures forall i, j :: p <= i < j < |b| && b[i].name !in Outer(b, p, marked) && b[j].name !in Outer(b, p, marked) ==>
              !Overlaps(b[i], b[j])
    decreases |b| - p
  {
    if p < |b| {
      if b[p].name in marked {
        OuterComplete(b, p + 1, marked);
      } else {
        var mid := Inner(b, p, p + 1, marked);
        InnerComplete(b, p, p + 1, marked);
        OuterComplete(b, p + 1, mid);
      }
    }
  }

  /** No two stars of the bucket whose names are both outside `marked` overlap. */
  predicate UnmarkedApart(b: seq<StarView>, marked: set<string>)
  {
    forall i, j :: 0 <= i < j < |b| && b[i].name !in marked && b[j].name !in marked ==> !Overlaps(b[i], b[j])
  }

  /** After a bucket's pass, no two of its stars that both stay unmarked overlap. */
  lemma MarkBucketComplete(b: seq<StarView>, marked: set<string>)
    ensures UnmarkedApart(b, MarkBucket(b, marked))
  {
    if |b| > 1 {
      OuterComplete(b, 0, marked);
    }
  }

  /**
   * After the pass over all buckets, no two stars of one bucket whose names
   * both stay unmarked overlap: marks only accumulate, so a later bucket
   * cannot undo what an earlier one established.
   */
  lemma {:induction false} MarkAllComplete(buckets: map<string, seq<StarView>>, keys: seq<string>, marked: set<string>)
    requires forall k :: k in keys ==> k in buckets
    ensures forall k :: k in keys ==> UnmarkedApart(buckets[k], MarkAll(buckets, keys, marked))
  {
    if keys != [] {
      var pre := keys[..|keys| - 1];
      var last := keys[|keys| - 1];
      var mid := MarkAll(buckets, pre, marked);
      MarkAllComplete(buckets, pre, marked);
      MarkBucketComplete(buckets[last], mid);
      forall k | k in keys
        ensures UnmarkedApart(buckets[k], MarkAll(buckets, keys, marked))
      {
        if k != last {
          assert k in pre by {
            var x :| 0 <= x < |keys| && keys[x] == k;
            assert x < |keys| - 1;
            assert pre[x] == k;
          }
        }
      }
    }
  }

  // ---------------------------------------------------------------- removal

  /** Names are removed as keys: when every key is lower-case, a marked name holding an upper-case letter removes nothing. */
  lemma CapitalisedNamesRemoveNothing<V>(stars: map<string, V>, marked: set<string>)
    requires forall k :: k in stars ==> IsLowerCase(k)
    requires forall n :: n in marked ==> !IsLowerCase(n)
    ensures stars - marked == stars
  {
  }
}
