/**
 * What the viewer's catalog passes read of the star map: the stars in the
 * map's iteration order and, for each, its name, position and radius.
 * `HashMap.values()` yields every entry once, in an order Java leaves
 * unspecified; the passes take that order as a list of the map's keys.
 * A star filed under several keys is yielded once per key.
 */
module CatalogView {
  import opened Geometry
  import opened Bodies

  /** The fields of a star the passes read: its display name, its position in light-years and its radius in km. */
  datatype StarView = StarView(name: string, pos: Vec3, radiusKm: real)

  function ViewOf(s: Star): (v: StarView)
    reads s.body
    ensures v.name == s.Name() && v.pos == s.body.Position() && v.radiusKm == s.body.radiusKm
  {
    StarView(s.Name(), s.body.Position(), s.body.radiusKm)
  }

  /** `order` lists every key of `m` exactly once: an iteration order of the map. */
  ghost predicate IsKeyOrder<V>(order: seq<string>, m: map<string, V>)
  {
    (forall k :: k in m <==> k in order) &&
    (forall i, j :: 0 <= i < j < |order| ==> order[i] != order[j])
  }

  /** `stars.values()` in the iteration order `order`. */
  function Values(stars: map<string, Star>, order: seq<string>): (vs: seq<Star>)
    requires forall k :: k in order ==> k in stars
    ensures |vs| == |order|
    ensures forall i :: 0 <= i < |order| ==> vs[i] == stars[order[i]]
  {
    seq(|order|, i requires 0 <= i < |order| => stars[order[i]])
  }

  /** The stars' views, in the same order. */
  function Views(vs: seq<Star>): (r: seq<StarView>)
    reads set s | s in vs :: s.body
    ensures |r| == |vs|
    ensures forall i :: 0 <= i < |vs| ==> r[i] == ViewOf(vs[i])
  {
    if vs == [] then [] else Views(vs[..|vs| - 1]) + [ViewOf(vs[|vs| - 1])]
  }
}
