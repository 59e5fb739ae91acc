/** `assign_uv_layer`: a UV layer written loop by loop from a per-vertex UV array,
    over the polygon/loop layout Blender gives a mesh. */
module Uv {
  import opened Wrappers
  import opened MeshBuild

  /** A polygon owns the loops `loopStart .. loopStart + loopTotal - 1`. */
  datatype Polygon = Polygon(loopStart: nat, loopTotal: nat)

  /** The parts of a Blender mesh the UV code reads: the vertex count, the vertex of
      each loop, and the polygons in order. */
  datatype Topology = Topology(vertexCount: nat, loopVertex: seq<nat>, polygons: seq<Polygon>)

  /** The polygons `ps` own consecutive loops from `start` up to `total`. */
  predicate TiledFrom(ps: seq<Polygon>, start: nat, total: nat)
    decreases |ps|
  {
    if ps == [] then start == total
    else ps[0].loopStart == start && TiledFrom(ps[1..], start + ps[0].loopTotal, total)
  }

  lemma {:induction false} TiledBound(ps: seq<Polygon>, start: nat, total: nat)
    requires TiledFrom(ps, start, total)
    ensures start <= total
    decreases |ps|
  {
    if ps != [] {
      TiledBound(ps[1..], start + ps[0].loopTotal, total);
    }
  }

  /** Loops name existing vertices, and the polygons own every loop once, in order. */
  predicate WellFormed(t: Topology) {
    && (forall l :: 0 <= l < |t.loopVertex| ==> t.loopVertex[l] < t.vertexCount)
    && TiledFrom(t.polygons, 0, |t.loopVertex|)
  }

  datatype UV = UV(u: real, v: real)
  datatype UvLayer = UvLayer(name: string, data: seq<UV>)

  /** A layer is made only when the UV array is non-empty and holds exactly one pair
      per vertex (`len(uv) // 2 == vertex count`). */
  predicate UvGuard(uv: seq<real>, vertexCount: nat) {
    |uv| > 0 && |uv| / 2 == vertexCount
  }

  /** The pair stored for vertex `v`, with V flipped when `flipV` holds. */
  function UvOf(uv: seq<real>, v: nat, flipV: bool): UV
    requires 2 * v + 1 < |uv|
  {
    UV(uv[2 * v], if flipV then 1.0 - uv[2 * v + 1] else uv[2 * v + 1])
  }

  /** `assign_uv_layer(mesh, uv, name, flip_v)`. */
  method AssignUvLayer(mesh: Topology, uv: seq<real>, name: string, flipV: bool) returns (layer: Option<UvLayer>)
    requires WellFormed(mesh)
    ensures layer.Some? <==> UvGuard(uv, mesh.vertexCount)
    ensures layer.Some? ==>
      && layer.value.name == name
      && |layer.value.data| == |mesh.loopVertex|
      && forall l :: 0 <= l < |mesh.loopVertex| ==>
           2 * mesh.loopVertex[l] + 1 < |uv| && layer.value.data[l] == UvOf(uv, mesh.loopVertex[l], flipV)
  {
    if |uv| == 0 || |uv| / 2 != mesh.vertexCount {
      return None;
    }
    var loops := |mesh.loopVertex|;
    var data := new UV[loops](_ => UV(0.0, 0.0));
    ghost var done: nat := 0;
    for p := 0 to |mesh.polygons|
      invariant TiledFrom(mesh.polygons[p..], done, loops) && done <= loops
      invariant forall l :: 0 <= l < done ==> data[l] == UvOf(uv, mesh.loopVertex[l], flipV)
    {
      var poly := mesh.polygons[p];
      assert mesh.polygons[p..][1..] == mesh.polygons[p + 1..];
      TiledBound(mesh.polygons[p + 1..], done + poly.loopTotal, loops);
      for l := poly.loopStart to poly.loopStart + poly.loopTotal
        invariant forall j :: 0 <= j < l ==> data[j] == UvOf(uv, mesh.loopVertex[j], flipV)
      {
        var vIdx := mesh.loopVertex[l];
        var u := uv[vIdx * 2];
        var v := if flipV then 1.0 - uv[vIdx * 2 + 1] else uv[vIdx * 2 + 1];
        data[l] := UV(u, v);
      }
      done := done + poly.loopTotal;
    }
    layer := Some(UvLayer(name, data[..]));
  }

  /** The layer `assign_uv_layer` makes, as a value. */
  function UvLayerOf(mesh: Topology, uv: seq<real>, name: string, flipV: bool): (r: Option<UvLayer>)
    requires WellFormed(mesh)
  {
    if UvGuard(uv, mesh.vertexCount) then
      Some(UvLayer(name, seq(|mesh.loopVertex|, l requires 0 <= l < |mesh.loopVertex| => UvOf(uv, mesh.loopVertex[l], flipV))))
    else None
  }

  /** The layer is present exactly under the guard and holds, for every loop, the
      pair of that loop's vertex, read in bounds. */
  lemma UvLayerMeaning(mesh: Topology, uv: seq<real>, name: string, flipV: bool)
    requires WellFormed(mesh)
    ensures
      var r := UvLayerOf(mesh, uv, name, flipV);
      && (r.Some? <==> UvGuard(uv, mesh.vertexCount))
      && (r.Some? ==>
        && r.value.name == name
        && |r.value.data| == |mesh.loopVertex|
        && forall l :: 0 <= l < |mesh.loopVertex| ==>
             2 * mesh.loopVertex[l] + 1 < |uv| && r.value.data[l] == UvOf(uv, mesh.loopVertex[l], flipV))
  {
  }

  /** The corners of the faces, one loop per corner, face after face. */
  function FaceLoops(faces: seq<Face>): (r: seq<nat>)
    ensures |r| == 3 * |faces|
  {
    if faces == [] then [] else [faces[0].a, faces[0].b, faces[0].c] + FaceLoops(faces[1..])
  }

  /** The mesh `bm.to_mesh` writes for triangles: polygon `k` owns loops `3k .. 3k + 2`. */
  function TriangleTopology(n: nat, faces: seq<Face>): Topology {
    Topology(n, FaceLoops(faces), seq(|faces|, k requires 0 <= k < |faces| => Polygon(3 * k, 3)))
  }

  lemma {:induction false} FaceLoopsAt(faces: seq<Face>, k: nat)
    requires k < |faces|
    ensures FaceLoops(faces)[3 * k] == faces[k].a
    ensures FaceLoops(faces)[3 * k + 1] == faces[k].b
    ensures FaceLoops(faces)[3 * k + 2] == faces[k].c
  {
    if k > 0 {
      FaceLoopsAt(faces[1..], k - 1);
    }
  }

  lemma {:induction false} TriangleTiles(faces: seq<Face>, k: nat)
    requires k <= |faces|
    ensures TiledFrom(seq(|faces|, j requires 0 <= j < |faces| => Polygon(3 * j, 3))[k..], 3 * k, 3 * |faces|)
    decreases |faces| - k
  {
    var ps := seq(|faces|, j requires 0 <= j < |faces| => Polygon(3 * j, 3));
    if k < |faces| {
      TriangleTiles(faces, k + 1);
      assert ps[k..][1..] == ps[k + 1..];
    }
  }

  /** The triangle mesh of valid faces is a well-formed Blender mesh whose loops are
      the face corners in order. */
  lemma TriangleTopologyWellFormed(n: nat, faces: seq<Face>)
    requires ValidFaces(faces, n)
    ensures WellFormed(TriangleTopology(n, faces))
    ensures forall k :: 0 <= k < |faces| ==>
      && TriangleTopology(n, faces).loopVertex[3 * k] == faces[k].a
      && TriangleTopology(n, faces).loopVertex[3 * k + 1] == faces[k].b
      && TriangleTopology(n, faces).loopVertex[3 * k + 2] == faces[k].c
  {
    var t := TriangleTopology(n, faces);
    forall k | 0 <= k < |faces|
      ensures t.loopVertex[3 * k] == faces[k].a && t.loopVertex[3 * k + 1] == faces[k].b && t.loopVertex[3 * k + 2] == faces[k].c
    {
      FaceLoopsAt(faces, k);
    }
    forall l | 0 <= l < |t.loopVertex|
      ensures t.loopVertex[l] < n
    {
      var k := l / 3;
      FaceLoopsAt(faces, k);
      assert l == 3 * k || l == 3 * k + 1 || l == 3 * k + 2;
    }
    TriangleTiles(faces, 0);
    assert t.polygons[0..] == t.polygons;
  }

  /** On a triangle mesh, the UV at each corner of face `k` is the pair of the vertex
      at that corner: every read `uv[2v]`, `uv[2v + 1]` is in bounds. */
  lemma TriangleCornerUv(n: nat, faces: seq<Face>, uv: seq<real>, name: string, flipV: bool, k: nat)
    requires ValidFaces(faces, n) && UvGuard(uv, n) && k < |faces|
    ensures WellFormed(TriangleTopology(n, faces))
    ensures
      var layer := UvLayerOf(TriangleTopology(n, faces), uv, name, flipV);
      && layer.Some? && layer.value.name == name
      && 2 * faces[k].a + 1 < |uv| && 2 * faces[k].b + 1 < |uv| && 2 * faces[k].c + 1 < |uv|
      && layer.value.data[3 * k] == UvOf(uv, faces[k].a, flipV)
      && layer.value.data[3 * k + 1] == UvOf(uv, faces[k].b, flipV)
      && layer.value.data[3 * k + 2] == UvOf(uv, faces[k].c, flipV)
  {
    TriangleTopologyWellFormed(n, faces);
  }
}
