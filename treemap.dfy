/**
 * The `TreeMap<Double, Star>` the view queries fill: its entries are kept as
 * the sequence its iteration yields, in ascending key order or, with
 * `Collections.reverseOrder()`, descending. A star is put under its
 * distance, bumped by 0.000001 while that key is already taken, so every
 * put adds a new entry.
 */
module TreeMaps {

  /** One entry: its key and the position, in the stars' iteration order, of its star. */
  datatype Entry = Entry(key: real, index: nat)

  /** The amount a taken key is bumped by. */
  const KEY_STEP: real := 0.000001

  /** The map's comparator: natural order, or reverse order. */
  predicate Precedes(a: real, b: real, reversed: bool)
  {
    if reversed then a > b else a < b
  }

  /** The entries are in strict iteration order, so no key occurs twice. */
  predicate Ordered(es: seq<Entry>, reversed: bool)
  {
    forall i, j :: 0 <= i < j < |es| ==> Precedes(es[i].key, es[j].key, reversed)
  }

  /** `containsKey`. */
  predicate HasKey(es: seq<Entry>, k: real)
  {
    exists i :: 0 <= i < |es| && es[i].key == k
  }

  /** `put` of a key not yet in the map: the entry goes where the comparator places it. */
  function Put(es: seq<Entry>, e: Entry, reversed: bool): (r: seq<Entry>)
    ensures |r| == |es| + 1
    ensures multiset(r) == multiset(es) + multiset{e}
  {
    if es == [] || Precedes(e.key, es[0].key, reversed) then [e] + es
    else
      assert es == [es[0]] + es[1..];
      [es[0]] + Put(es[1..], e, reversed)
  }

  /** Putting a fresh key keeps the entries in iteration order. */
  lemma {:induction false} PutOrdered(es: seq<Entry>, e: Entry, reversed: bool)
    requires Ordered(es, reversed) && !HasKey(es, e.key)
    ensures Ordered(Put(es, e, reversed), reversed)
  {
    if es != [] && !Precedes(e.key, es[0].key, reversed) {
      var rest := es[1..];
      PutOrdered(rest, e, reversed);
      var r := Put(es, e, reversed);
      var tail := Put(rest, e, reversed);
      assert r == [es[0]] + tail;
      assert es[0].key != e.key;
      forall j | 0 < j < |r|
        ensures Precedes(es[0].key, r[j].key, reversed)
      {
        assert r[j] == tail[j - 1];
        assert r[j] in multiset(tail);
        if r[j] != e {
          assert r[j] in multiset(rest);
          var k :| 0 <= k < |rest| && rest[k] == r[j];
          assert es[k + 1] == r[j];
        }
      }
    }
  }

  /** The number of entries whose key is at least `d`. */
  function CountFrom(es: seq<Entry>, d: real): nat
  {
    if es == [] then 0 else (if es[0].key >= d then 1 else 0) + CountFrom(es[1..], d)
  }

  lemma {:induction false} CountFromAntitone(es: seq<Entry>, d: real, d': real)
    requires d <= d'
    ensures CountFrom(es, d') <= CountFrom(es, d)
  {
    if es != [] {
      CountFromAntitone(es[1..], d, d');
    }
  }

  /** Bumping a taken key leaves fewer entries at or above it: the key search ends. */
  lemma {:induction false} CountDrops(es: seq<Entry>, d: real)
    requires HasKey(es, d)
    ensures CountFrom(es, d + KEY_STEP) < CountFrom(es, d)
  {
    if es[0].key == d {
      CountFromAntitone(es[1..], d, d + KEY_STEP);
    } else {
      var i :| 0 <= i < |es| && es[i].key == d;
      assert es[1..][i - 1].key == d;
      CountDrops(es[1..], d);
    }
  }

  /** The key a star at distance `d` is put under: `d` bumped by KEY_STEP until it is free. */
  function FreeKey(es: seq<Entry>, d: real): (k: real)
    ensures k >= d && !HasKey(es, k)
    decreases CountFrom(es, d)
  {
    if HasKey(es, d) then
      CountDrops(es, d);
      FreeKey(es, d + KEY_STEP)
    else d
  }

  /** The keys of the entries, in iteration order. */
  function Keys(es: seq<Entry>): (r: seq<real>)
    ensures |r| == |es| && forall i :: 0 <= i < |es| ==> r[i] == es[i].key
  {
    seq(|es|, i requires 0 <= i < |es| => es[i].key)
  }
}
