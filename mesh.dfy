/** The geometry part of `build_mesh_object`: vertices from a flat position array, the
    face rule (explicit index triples or sequential vertex triples, with bmesh refusing
    bad faces silently) and the choice between imported and computed normals. */
module MeshBuild {
  import opened Wrappers
  import opened Json

  datatype Vec3 = Vec3(x: real, y: real, z: real)

  /** Consecutive coordinate triples of a flat array. */
  function Group3(p: seq<real>): (r: seq<Vec3>)
    requires |p| % 3 == 0
    ensures |r| == |p| / 3
  {
    seq(|p| / 3, k requires 0 <= k < |p| / 3 => Vec3(p[3 * k], p[3 * k + 1], p[3 * k + 2]))
  }

  /** The flat array a vertex list is read from. */
  function Flatten(vs: seq<Vec3>): (r: seq<real>)
    ensures |r| == 3 * |vs|
  {
    if vs == [] then [] else [vs[0].x, vs[0].y, vs[0].z] + Flatten(vs[1..])
  }

  /** Grouping loses no coordinate: flattening the vertices gives the array back. */
  lemma {:induction false} FlattenGroup3(p: seq<real>)
    requires |p| % 3 == 0
    ensures Flatten(Group3(p)) == p
    decreases |p|
  {
    if p != [] {
      assert Group3(p)[1..] == Group3(p[3..]);
      FlattenGroup3(p[3..]);
      assert p == p[..3] + p[3..];
    }
  }

  /** Every vertex list is the grouping of its flat array. */
  lemma {:induction false} Group3Flatten(vs: seq<Vec3>)
    ensures Group3(Flatten(vs)) == vs
  {
    if vs != [] {
      Group3Flatten(vs[1..]);
      var f := Flatten(vs);
      assert f[3..] == Flatten(vs[1..]);
      forall k | 0 <= k < |vs|
        ensures Group3(f)[k] == vs[k]
      {
        if k > 0 {
          assert Group3(f)[k] == Group3(f[3..])[k - 1];
        }
      }
    }
  }

  /** The vertex loop: one `bm.verts.new` per coordinate triple. */
  method BuildVertices(positions: seq<real>) returns (verts: seq<Vec3>)
    requires |positions| % 3 == 0
    ensures verts == Group3(positions)
  {
    verts := [];
    var i := 0;
    while i < |positions|
      invariant 0 <= i <= |positions| && i % 3 == 0
      invariant |verts| == i / 3
      invariant forall k :: 0 <= k < i / 3 ==> verts[k] == Vec3(positions[3 * k], positions[3 * k + 1], positions[3 * k + 2])
    {
      verts := verts + [Vec3(positions[i], positions[i + 1], positions[i + 2])];
      i := i + 3;
    }
  }

  /** A triangle by vertex indices. */
  datatype Face = Face(a: nat, b: nat, c: nat)

  function Corners(f: Face): set<nat> {
    {f.a, f.b, f.c}
  }

  /** bmesh's `faces.new` succeeds: three distinct vertices, and no existing face on
      the same vertex set. Otherwise it raises, which the importer ignores. */
  predicate Accepts(faces: seq<Face>, f: Face) {
    && f.a != f.b && f.b != f.c && f.a != f.c
    && forall g :: g in faces ==> Corners(g) != Corners(f)
  }

  /** `bm.verts[v]` with `n` vertices: an int in `[-n, n)`, a negative one counting
      from the end as a Python sequence index does. A non-integer or an index outside
      that range raises and the triple is skipped. */
  function VertexAt(v: Json, n: nat): (r: Option<nat>)
    ensures r.Some? <==> IntValue(v).Some? && -(n as int) <= IntValue(v).value < n
    ensures r.Some? ==> r.value < n && r.value as int == IntValue(v).value % n
  {
    match IntValue(v)
    case Some(k) =>
      if 0 <= k < n then Some(k as nat)
      else if -(n as int) <= k < 0 then Some((k + n) as nat)
      else None
    case None => None
  }

  /** The face that triple `k` of the index list asks for, if building it raises nothing
      before bmesh's own check. */
  function Candidate(indices: seq<Json>, k: nat, n: nat): (r: Option<Face>)
    ensures r.Some? ==>
      && 3 * k + 2 < |indices|
      && VertexAt(indices[3 * k], n) == Some(r.value.a)
      && VertexAt(indices[3 * k + 1], n) == Some(r.value.b)
      && VertexAt(indices[3 * k + 2], n) == Some(r.value.c)
    ensures r.None? ==>
      || 3 * k + 2 >= |indices|
      || VertexAt(indices[3 * k], n).None?
      || VertexAt(indices[3 * k + 1], n).None?
      || VertexAt(indices[3 * k + 2], n).None?
  {
    if 3 * k + 2 < |indices| then
      match (VertexAt(indices[3 * k], n), VertexAt(indices[3 * k + 1], n), VertexAt(indices[3 * k + 2], n))
      case (Some(a), Some(b), Some(c)) => Some(Face(a, b, c))
      case _ => None
    else None
  }

  /** The faces made by the first `k` index triples. */
  function IndexedFaces(indices: seq<Json>, n: nat, k: nat): seq<Face> {
    if k == 0 then []
    else
      var fs := IndexedFaces(indices, n, k - 1);
      match Candidate(indices, k - 1, n)
      case Some(f) => if Accepts(fs, f) then fs + [f] else fs
      case None => fs
  }

  /** The faces made by the first `k` sequential vertex triples. */
  function SequentialFaces(n: nat, k: nat): seq<Face>
    requires 3 * k <= n
  {
    if k == 0 then []
    else
      var fs := SequentialFaces(n, k - 1);
      var f := Face(3 * (k - 1), 3 * (k - 1) + 1, 3 * (k - 1) + 2);
      if Accepts(fs, f) then fs + [f] else fs
  }

  /** How many times `range(0, len, 3)` runs. */
  function TripleCount(len: nat): nat {
    (len + 2) / 3
  }

  /** The face rule: index triples when the index list has at least three entries,
      sequential vertex triples otherwise. */
  function FaceRule(indices: seq<Json>, n: nat): seq<Face> {
    if |indices| >= 3 then IndexedFaces(indices, n, TripleCount(|indices|)) else SequentialFaces(n, n / 3)
  }

  /** The face loops of `build_mesh_object` over `n` vertices. */
  method BuildFaces(indices: seq<Json>, n: nat) returns (faces: seq<Face>)
    ensures faces == FaceRule(indices, n)
  {
    faces := [];
    var i := 0;
    var k: nat := 0;  // the triple number, i / 3
    if |indices| >= 3 {
      while i < |indices|
        invariant i == 3 * k && k <= TripleCount(|indices|)
        invariant faces == IndexedFaces(indices, n, k)
      {
        var candidate := Candidate(indices, k, n);
        if candidate.Some? && Accepts(faces, candidate.value) {
          faces := faces + [candidate.value];
        }
        i, k := i + 3, k + 1;
      }
    } else {
      while i < n
        invariant i == 3 * k && i <= n
        invariant faces == SequentialFaces(n, k)
      {
        if i + 2 >= n {
          break;
        }
        var f := Face(i, i + 1, i + 2);
        if Accepts(faces, f) {
          faces := faces + [f];
        }
        i, k := i + 3, k + 1;
      }
      assert k == n / 3;
    }
  }

  /** In range, three distinct vertices, no two faces on the same vertex set. */
  predicate ValidFaces(faces: seq<Face>, n: nat) {
    && (forall i :: 0 <= i < |faces| ==>
          faces[i].a < n && faces[i].b < n && faces[i].c < n &&
          faces[i].a != faces[i].b && faces[i].b != faces[i].c && faces[i].a != faces[i].c)
    && (forall i, j :: 0 <= i < j < |faces| ==> Corners(faces[i]) != Corners(faces[j]))
  }

  lemma AppendAccepted(fs: seq<Face>, f: Face, n: nat)
    requires ValidFaces(fs, n) && Accepts(fs, f) && f.a < n && f.b < n && f.c < n
    ensures ValidFaces(fs + [f], n)
  {
    var gs := fs + [f];
    forall i, j | 0 <= i < j < |gs|
      ensures Corners(gs[i]) != Corners(gs[j])
    {
      if j == |fs| {
        assert gs[i] in fs;
      }
    }
  }

  lemma {:induction false} IndexedFacesValid(indices: seq<Json>, n: nat, k: nat)
    ensures ValidFaces(IndexedFaces(indices, n, k), n)
    ensures |IndexedFaces(indices, n, k)| <= k
  {
    if k > 0 {
      IndexedFacesValid(indices, n, k - 1);
      var fs := IndexedFaces(indices, n, k - 1);
      var c := Candidate(indices, k - 1, n);
      if c.Some? && Accepts(fs, c.value) {
        AppendAccepted(fs, c.value, n);
      }
    }
  }

  lemma {:induction false} SequentialFacesValid(n: nat, k: nat)
    requires 3 * k <= n
    ensures ValidFaces(SequentialFaces(n, k), n)
  {
    if k > 0 {
      SequentialFacesValid(n, k - 1);
      var fs := SequentialFaces(n, k - 1);
      var f := Face(3 * (k - 1), 3 * (k - 1) + 1, 3 * (k - 1) + 2);
      if Accepts(fs, f) {
        AppendAccepted(fs, f, n);
      }
    }
  }

  /** Whatever the input, the faces are in range, non-degenerate and pairwise on
      different vertex sets, and there is at most one face per triple. */
  lemma FaceRuleValid(indices: seq<Json>, n: nat)
    ensures ValidFaces(FaceRule(indices, n), n)
    ensures |indices| >= 3 ==> |FaceRule(indices, n)| <= TripleCount(|indices|)
    ensures |indices| < 3 ==> |FaceRule(indices, n)| <= n / 3
  {
    if |indices| >= 3 {
      IndexedFacesValid(indices, n, TripleCount(|indices|));
    } else {
      SequentialFacesValid(n, n / 3);
      SequentialFacesExact(n, n / 3);
    }
  }

  /** Every face built from the index list is exactly the vertex triple named by one
      whole triple `k` of the list; a triple that runs past the end or holds an entry
      that is not a vertex index yields nothing. */
  lemma {:induction false} IndexedFacesSound(indices: seq<Json>, n: nat, k: nat)
    ensures forall f :: f in IndexedFaces(indices, n, k) ==>
      exists j :: 0 <= j < k && Candidate(indices, j, n) == Some(f)
  {
    if k > 0 {
      IndexedFacesSound(indices, n, k - 1);
      var fs := IndexedFaces(indices, n, k - 1);
      forall f | f in IndexedFaces(indices, n, k)
        ensures exists j :: 0 <= j < k && Candidate(indices, j, n) == Some(f)
      {
        if f !in fs {
          assert Candidate(indices, k - 1, n) == Some(f);
        }
      }
    }
  }

  /** Sequential triangulation never loses a triple: triple `j` is face `j`. */
  lemma {:induction false} SequentialFacesExact(n: nat, k: nat)
    requires 3 * k <= n
    ensures SequentialFaces(n, k) == seq(k, j requires 0 <= j < k => Face(3 * j, 3 * j + 1, 3 * j + 2))
  {
    if k > 0 {
      SequentialFacesExact(n, k - 1);
      var fs := SequentialFaces(n, k - 1);
      var f := Face(3 * (k - 1), 3 * (k - 1) + 1, 3 * (k - 1) + 2);
      forall g | g in fs
        ensures Corners(g) != Corners(f)
      {
        assert 3 * (k - 1) !in Corners(g);
      }
      assert Accepts(fs, f);
    }
  }

  /** When every triple is whole, in range, non-degenerate and on its own vertex set,
      the faces are exactly the triples in order. */
  lemma {:induction false} IndexedFacesExact(indices: seq<Json>, n: nat, k: nat)
    requires 3 * k <= |indices|
    requires forall j :: 0 <= j < k ==> Candidate(indices, j, n).Some?
    requires ValidFaces(seq(k, j requires 0 <= j < k => Candidate(indices, j, n).value), n)
    ensures IndexedFaces(indices, n, k) == seq(k, j requires 0 <= j < k => Candidate(indices, j, n).value)
  {
    if k > 0 {
      var all := seq(k, j requires 0 <= j < k => Candidate(indices, j, n).value);
      var prefix := seq(k - 1, j requires 0 <= j < k - 1 => Candidate(indices, j, n).value);
      assert all[..k - 1] == prefix;
      assert ValidFaces(prefix, n);
      IndexedFacesExact(indices, n, k - 1);
      var f := Candidate(indices, k - 1, n).value;
      assert f == all[k - 1];
      forall g | g in prefix
        ensures Corners(g) != Corners(f)
      {
        var i :| 0 <= i < k - 1 && prefix[i] == g;
        assert all[i] == g;
      }
      assert all == prefix + [f];
    }
  }

  /** Three vertices and no index list give one face; so does the index list [0, 1, 2]. */
  lemma SingleTriangle()
    ensures FaceRule([], 3) == [Face(0, 1, 2)]
    ensures FaceRule([JInt(0), JInt(1), JInt(2)], 3) == [Face(0, 1, 2)]
  {
  }

  /** The normal rule: explicit per-vertex normals when the normals array is non-empty
      and as long as the positions array; otherwise none (Blender computes them). */
  function CustomNormals(normals: seq<real>, positions: seq<real>): (r: Option<seq<Vec3>>)
    requires |positions| % 3 == 0
    ensures r.Some? <==> |normals| > 0 && |normals| == |positions|
    ensures r.Some? ==> |r.value| == |positions| / 3 && Flatten(r.value) == normals
  {
    if |normals| > 0 && |normals| == |positions| then
      FlattenGroup3(normals);
      Some(Group3(normals))
    else None
  }
}
