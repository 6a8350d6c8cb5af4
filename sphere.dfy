/**
 * The UV sphere every body is drawn with: a grid of latitude by longitude
 * vertices on the unit sphere (positions, with identical normals) and two
 * triangles per grid cell (indices into the vertex list). The `float`
 * buffers are modelled as reals.
 */
module Sphere {
  import opened Geometry

  /** The polar angle of latitude line `lat` of `L`. */
  function Theta(lat: int, L: int): real
    requires L >= 1
  {
    lat as real * PI / L as real
  }

  /** The azimuth of longitude line `lon` of `N`. */
  function Phi(lon: int, N: int): real
    requires N >= 1
  {
    (lon * 2) as real * PI / N as real
  }

  /** The vertex (and normal) at grid line `lat`, `lon`. */
  function SphereVertex(lat: int, lon: int, L: int, N: int, m: Libm): Vec3
    requires L >= 1 && N >= 1
  {
    var sinTheta := m.sin(Theta(lat, L));
    var cosTheta := m.cos(Theta(lat, L));
    var sinPhi := m.sin(Phi(lon, N));
    var cosPhi := m.cos(Phi(lon, N));
    Vec3(cosPhi * sinTheta, cosTheta, sinPhi * sinTheta)
  }

  /** When sine and cosine satisfy the Pythagorean identity at both angles, the vertex lies on the unit sphere. */
  lemma VertexOnUnitSphere(lat: int, lon: int, L: int, N: int, m: Libm)
    requires L >= 1 && N >= 1
    requires var a := Theta(lat, L); m.sin(a) * m.sin(a) + m.cos(a) * m.cos(a) == 1.0
    requires var a := Phi(lon, N); m.sin(a) * m.sin(a) + m.cos(a) * m.cos(a) == 1.0
    ensures Norm2(SphereVertex(lat, lon, L, N, m)) == 1.0
  {
    var st := m.sin(Theta(lat, L));
    var ct := m.cos(Theta(lat, L));
    var sp := m.sin(Phi(lon, N));
    var cp := m.cos(Phi(lon, N));
    calc {
      Norm2(SphereVertex(lat, lon, L, N, m));
      (cp * st) * (cp * st) + ct * ct + (sp * st) * (sp * st);
      (cp * cp + sp * sp) * (st * st) + ct * ct;
      { assert cp * cp + sp * sp == 1.0; }
      st * st + ct * ct;
    }
  }

  /** The vertices of latitude line `lat`, longitude 0 through N. */
  function Row(lat: int, L: int, N: int, m: Libm): (r: seq<Vec3>)
    requires L >= 1 && N >= 1
    ensures |r| == N + 1
  {
    seq(N + 1, lon requires 0 <= lon <= N => SphereVertex(lat, lon, L, N, m))
  }

  /** The vertices of latitude lines 0 through k - 1, row after row. */
  function Rows(k: nat, L: int, N: int, m: Libm): seq<Vec3>
    requires L >= 1 && N >= 1
  {
    if k == 0 then [] else Rows(k - 1, L, N, m) + Row(k - 1, L, N, m)
  }

  /** The whole vertex grid: latitude lines 0 through L. */
  function Grid(L: int, N: int, m: Libm): seq<Vec3>
    requires L >= 1 && N >= 1
  {
    Rows(L + 1, L, N, m)
  }

  /** The position of grid vertex (`lat`, `lon`) in the vertex list. */
  function GridIndex(lat: int, lon: int, N: int): int
  {
    lat * (N + 1) + lon
  }

  /** A vertex of an earlier row lies before row `k - 1`, which starts at (k - 1) * (N + 1). */
  lemma EarlierRowIndex(k: int, lat: int, lon: int, N: int)
    requires N >= 1 && 0 <= lat < k - 1 && 0 <= lon <= N
    ensures 0 <= GridIndex(lat, lon, N) < (k - 1) * (N + 1)
  {
    assert lat * (N + 1) <= (k - 2) * (N + 1);
    assert (k - 1) * (N + 1) == (k - 2) * (N + 1) + (N + 1);
  }

  lemma LastRowIndex(k: int, lon: int, N: int)
    requires k >= 1 && N >= 1 && 0 <= lon <= N
    ensures GridIndex(k - 1, lon, N) == (k - 1) * (N + 1) + lon
    ensures k * (N + 1) == (k - 1) * (N + 1) + (N + 1)
    ensures 0 <= (k - 1) * (N + 1)
  {
  }

  /** Row by row, the grid holds vertex (`lat`, `lon`) at GridIndex(lat, lon), and k rows hold k * (N + 1) vertices. */
  lemma {:induction false} RowsLayout(k: nat, L: int, N: int, m: Libm)
    requires L >= 1 && N >= 1
    ensures |Rows(k, L, N, m)| == k * (N + 1)
    ensures forall lat, lon :: 0 <= lat < k && 0 <= lon <= N ==>
              0 <= GridIndex(lat, lon, N) < |Rows(k, L, N, m)| &&
              Rows(k, L, N, m)[GridIndex(lat, lon, N)] == SphereVertex(lat, lon, L, N, m)
  {
    if k > 0 {
      RowsLayout(k - 1, L, N, m);
      var prev := Rows(k - 1, L, N, m);
      var rows := Rows(k, L, N, m);
      LastRowIndex(k, 0, N);
      assert rows == prev + Row(k - 1, L, N, m);
      forall lat, lon | 0 <= lat < k && 0 <= lon <= N
        ensures 0 <= GridIndex(lat, lon, N) < |rows|
        ensures rows[GridIndex(lat, lon, N)] == SphereVertex(lat, lon, L, N, m)
      {
        if lat < k - 1 {
          EarlierRowIndex(k, lat, lon, N);
          assert rows[GridIndex(lat, lon, N)] == prev[GridIndex(lat, lon, N)];
        } else {
          LastRowIndex(k, lon, N);
          assert rows[GridIndex(lat, lon, N)] == Row(k - 1, L, N, m)[lon];
        }
      }
    }
  }

  /** The grid has (L + 1) * (N + 1) vertices, with vertex (`lat`, `lon`) at GridIndex(lat, lon). */
  lemma GridLayout(L: int, N: int, m: Libm, lat: int, lon: int)
    requires L >= 1 && N >= 1
    requires 0 <= lat <= L && 0 <= lon <= N
    ensures |Grid(L, N, m)| == (L + 1) * (N + 1)
    ensures 0 <= GridIndex(lat, lon, N) < |Grid(L, N, m)|
    ensures Grid(L, N, m)[GridIndex(lat, lon, N)] == SphereVertex(lat, lon, L, N, m)
  {
    RowsLayout(L + 1, L, N, m);
  }

  /** The coordinates of the vertices, three per vertex, in order. */
  function Flatten(vs: seq<Vec3>): (r: seq<real>)
    ensures |r| == 3 * |vs|
  {
    if vs == [] then []
    else
      var v := vs[|vs| - 1];
      Flatten(vs[..|vs| - 1]) + [v.x, v.y, v.z]
  }

  /** Each coordinate triple of the flattened list is one vertex. */
  lemma {:induction false} FlattenAt(vs: seq<Vec3>, i: int)
    requires 0 <= i < |vs|
    ensures Flatten(vs)[3 * i] == vs[i].x
    ensures Flatten(vs)[3 * i + 1] == vs[i].y
    ensures Flatten(vs)[3 * i + 2] == vs[i].z
  {
    if i < |vs| - 1 {
      FlattenAt(vs[..|vs| - 1], i);
    }
  }

  /** The two triangles of grid cell (`lat`, `lon`). */
  function Quad(lat: int, lon: int, N: int): seq<int>
  {
    var first := lat * (N + 1) + lon;
    var second := first + N + 1;
    [first, second, first + 1, second, second + 1, first + 1]
  }

  /**
   * The triangles of cell (`lat`, `lon`) join its four corners: the first
   * runs (lat, lon), (lat + 1, lon), (lat, lon + 1), the second
   * (lat + 1, lon), (lat + 1, lon + 1), (lat, lon + 1); all three corners
   * of each differ.
   */
  lemma QuadJoinsCellCorners(lat: int, lon: int, N: int)
    requires N >= 1
    ensures Quad(lat, lon, N) ==
      [GridIndex(lat, lon, N), GridIndex(lat + 1, lon, N), GridIndex(lat, lon + 1, N),
       GridIndex(lat + 1, lon, N), GridIndex(lat + 1, lon + 1, N), GridIndex(lat, lon + 1, N)]
    ensures var q := Quad(lat, lon, N); q[0] != q[1] && q[1] != q[2] && q[0] != q[2]
    ensures var q := Quad(lat, lon, N); q[3] != q[4] && q[4] != q[5] && q[3] != q[5]
  {
    assert (lat + 1) * (N + 1) == lat * (N + 1) + N + 1;
  }

  /** The triangles of the cells lat, 0 through lat, lon - 1. */
  function QuadRow(lat: int, lon: nat, N: int): seq<int>
  {
    if lon == 0 then [] else QuadRow(lat, lon - 1, N) + Quad(lat, lon - 1, N)
  }

  /** The triangles of the cell rows 0 through k - 1. */
  function QuadRows(k: nat, N: int): seq<int>
    requires N >= 0
  {
    if k == 0 then [] else QuadRows(k - 1, N) + QuadRow(k - 1, N, N)
  }

  /** The whole index list: every cell of the L by N grid, row after row. */
  function GridIndices(L: int, N: int): seq<int>
    requires L >= 1 && N >= 1
  {
    QuadRows(L, N)
  }

  /** A row of cells holds six indices per cell, each a vertex of this line or the next. */
  lemma {:induction false} QuadRowInRange(lat: nat, lon: nat, N: int)
    requires lon <= N
    ensures |QuadRow(lat, lon, N)| == 6 * lon
    ensures forall i :: 0 <= i < |QuadRow(lat, lon, N)| ==>
              lat * (N + 1) <= QuadRow(lat, lon, N)[i] < (lat + 2) * (N + 1)
  {
    if lon > 0 {
      QuadRowInRange(lat, lon - 1, N);
      assert (lat + 2) * (N + 1) == lat * (N + 1) + 2 * N + 2;
    }
  }

  /** k rows of cells hold 6 * k * N indices, each naming one of the first (k + 1) * (N + 1) vertices. */
  lemma {:induction false} QuadRowsInRange(k: nat, N: int)
    requires N >= 0
    ensures |QuadRows(k, N)| == 6 * k * N
    ensures forall i :: 0 <= i < |QuadRows(k, N)| ==> 0 <= QuadRows(k, N)[i] < (k + 1) * (N + 1)
  {
    if k > 0 {
      QuadRowsInRange(k - 1, N);
      QuadRowInRange(k - 1, N, N);
      assert 6 * k * N == 6 * (k - 1) * N + 6 * N;
      assert k * (N + 1) <= (k + 1) * (N + 1);
      assert 0 <= (k - 1) * (N + 1);
    }
  }

  /** Every index names a vertex of the grid, and there are six per cell. */
  lemma GridIndicesInRange(L: int, N: int)
    requires L >= 1 && N >= 1
    ensures |GridIndices(L, N)| == 6 * L * N
    ensures forall i :: 0 <= i < |GridIndices(L, N)| ==> 0 <= GridIndices(L, N)[i] < (L + 1) * (N + 1)
  {
    QuadRowsInRange(L, N);
  }

  /** Appending one vertex appends its three coordinates. */
  lemma FlattenSnoc(vs: seq<Vec3>, v: Vec3)
    ensures Flatten(vs + [v]) == Flatten(vs) + [v.x, v.y, v.z]
  {
    assert (vs + [v])[..|vs|] == vs;
  }

  /** Taking one more vertex of a list appends its three coordinates. */
  lemma PrefixStep(vs: seq<Vec3>, i: nat)
    requires i < |vs|
    ensures Flatten(vs[..i + 1]) == Flatten(vs[..i]) + [vs[i].x, vs[i].y, vs[i].z]
  {
    assert vs[..i + 1] == vs[..i] + [vs[i]];
    FlattenSnoc(vs[..i], vs[i]);
  }

  /** Flattening distributes over concatenation. */
  lemma {:induction false} FlattenAppend(a: seq<Vec3>, b: seq<Vec3>)
    ensures Flatten(a + b) == Flatten(a) + Flatten(b)
    decreases |b|
  {
    if b == [] {
      assert a + b == a;
    } else {
      var b' := b[..|b| - 1];
      var v := b[|b| - 1];
      assert b == b' + [v];
      assert a + b == (a + b') + [v];
      FlattenSnoc(a + b', v);
      FlattenSnoc(b', v);
      FlattenAppend(a, b');
    }
  }

  /** The coordinates of one latitude line appended to the position and normal lists. */
  method AppendRow(pos0: seq<real>, lat: int, L: int, N: int, m: Libm) returns (pos: seq<real>, norm: seq<real>)
    requires L >= 1 && N >= 1
    ensures pos == pos0 + Flatten(Row(lat, L, N, m))
    ensures norm == pos
  {
    ghost var r := Row(lat, L, N, m);
    var theta := Theta(lat, L);
    var sinTheta := m.sin(theta);
    var cosTheta := m.cos(theta);
    pos, norm := pos0, pos0;
    var lon := 0;
    while lon <= N
      invariant 0 <= lon <= N + 1
      invariant pos == pos0 + Flatten(r[..lon]) && norm == pos
    {
      var phi := Phi(lon, N);
      var sinPhi := m.sin(phi);
      var cosPhi := m.cos(phi);
      var x := cosPhi * sinTheta;
      var y := cosTheta;
      var z := sinPhi * sinTheta;
      PrefixStep(r, lon);
      assert r[lon] == Vec3(x, y, z);
      pos := pos + [x, y, z];
      norm := norm + [x, y, z];
      lon := lon + 1;
    }
    assert r[..N + 1] == r;
  }

  /** One more latitude line appends its coordinates. */
  lemma RowsStep(lat: nat, L: int, N: int, m: Libm)
    requires L >= 1 && N >= 1
    ensures Flatten(Rows(lat + 1, L, N, m)) == Flatten(Rows(lat, L, N, m)) + Flatten(Row(lat, L, N, m))
  {
    FlattenAppend(Rows(lat, L, N, m), Row(lat, L, N, m));
  }

  /** The flattened grid holds three coordinates per vertex. */
  lemma GridSize(L: int, N: int, m: Libm)
    requires L >= 1 && N >= 1
    ensures |Flatten(Grid(L, N, m))| == 3 * ((L + 1) * (N + 1))
  {
    RowsLayout(L + 1, L, N, m);
  }

  /** The position and normal lists, built vertex by vertex over the grid. */
  method BuildVertices(L: int, N: int, m: Libm) returns (pos: seq<real>, norm: seq<real>)
    requires L >= 1 && N >= 1
    ensures pos == Flatten(Grid(L, N, m))
    ensures norm == pos
    ensures |pos| == 3 * ((L + 1) * (N + 1))
  {
    pos, norm := [], [];
    var lat := 0;
    while lat <= L
      invariant 0 <= lat <= L + 1
      invariant pos == Flatten(Rows(lat, L, N, m)) && norm == pos
    {
      RowsStep(lat, L, N, m);
      pos, norm := AppendRow(pos, lat, L, N, m);
      lat := lat + 1;
    }
    GridSize(L, N, m);
  }

  /** The index list, built cell by cell over the grid. */
  method BuildIndices(L: int, N: int) returns (idx: seq<int>)
    requires L >= 1 && N >= 1
    ensures idx == GridIndices(L, N)
    ensures |idx| == 6 * L * N
  {
    idx := [];
    var lat := 0;
    while lat < L
      invariant 0 <= lat <= L
      invariant idx == QuadRows(lat, N)
    {
      var lon := 0;
      while lon < N
        invariant 0 <= lon <= N
        invariant idx == QuadRows(lat, N) + QuadRow(lat, lon, N)
      {
        var first := (lat * (N + 1)) + lon;
        var second := first + N + 1;
        idx := idx + [first, second, first + 1];
        idx := idx + [second, second + 1, first + 1];
        lon := lon + 1;
      }
      lat := lat + 1;
    }
    QuadRowsInRange(L, N);
  }

  /** A fresh array holding the list. */
  method CopyToArray<T(0)>(s: seq<T>) returns (a: array<T>)
    ensures fresh(a) && a[..] == s
  {
    a := new T[|s|];
    var i := 0;
    while i < |s|
      invariant 0 <= i <= |s|
      invariant a[..i] == s[..i]
    {
      a[i] := s[i];
      i := i + 1;
    }
  }

  class SphereMesh {
    const positions: array<real>
    const normals: array<real>
    const indices: array<int>
    const vertexCount: int
    const indexCount: int

    /**
     * The mesh of a sphere cut into `latitudeBands` by `longitudeBands`:
     * one vertex per grid point, two triangles per cell, every index a
     * vertex of the mesh.
     */
    constructor (latitudeBands: int, longitudeBands: int, m: Libm)
      requires latitudeBands >= 1 && longitudeBands >= 1
      ensures fresh(positions) && fresh(normals) && fresh(indices)
      ensures positions[..] == Flatten(Grid(latitudeBands, longitudeBands, m))
      ensures normals[..] == positions[..]
      ensures indices[..] == GridIndices(latitudeBands, longitudeBands)
      ensures vertexCount == (latitudeBands + 1) * (longitudeBands + 1)
      ensures indexCount == 6 * latitudeBands * longitudeBands
      ensures forall i :: 0 <= i < indices.Length ==> 0 <= indices[i] < vertexCount
    {
      var pos, norm := BuildVertices(latitudeBands, longitudeBands, m);
      var idx := BuildIndices(latitudeBands, longitudeBands);
      GridIndicesInRange(latitudeBands, longitudeBands);
      var posArray := CopyToArray(pos);
      var normArray := CopyToArray(norm);
      var idxArray := CopyToArray(idx);
      assert forall i :: 0 <= i < idxArray.Length ==> idxArray[i] == idx[i];
      positions := posArray;
      normals := normArray;
      indices := idxArray;
      vertexCount := posArray.Length / 3;
      indexCount := idxArray.Length;
    }
  }
}
