/** `build_mesh_object`: vertices, faces, normals and the two UV channels of one mesh. */
module MeshObject {
  import opened Wrappers
  import opened Json
  import opened MeshBuild
  import opened Uv

  /** What the importer hands to Blender for one mesh. */
  datatype Geometry = Geometry(vertices: seq<Vec3>, faces: seq<Face>, customNormals: Option<seq<Vec3>>, uvLayers: seq<UvLayer>)

  /** The layer called `name`, if any. */
  function LayerNamed(layers: seq<UvLayer>, name: string): Option<UvLayer> {
    if layers == [] then None
    else if layers[0].name == name then Some(layers[0])
    else LayerNamed(layers[1..], name)
  }

  function OptionalLayer(layer: Option<UvLayer>): seq<UvLayer> {
    if layer.Some? then [layer.value] else []
  }

  /** The mesh built from flat positions, normals, an index list and two UV arrays:
      `UVMap` from the first channel and `UV2` from the second, each V-flipped. */
  function GeometryOf(positions: seq<real>, normals: seq<real>, indices: seq<Json>, uv0: seq<real>, uv1: seq<real>): Geometry
    requires |positions| % 3 == 0
  {
    var n := |positions| / 3;
    var faces := FaceRule(indices, n);
    FaceRuleValid(indices, n);
    TriangleTopologyWellFormed(n, faces);
    var mesh := TriangleTopology(n, faces);
    Geometry(Group3(positions), faces, CustomNormals(normals, positions),
             OptionalLayer(UvLayerOf(mesh, uv0, "UVMap", true)) + OptionalLayer(UvLayerOf(mesh, uv1, "UV2", true)))
  }

  /** One vertex per position triple, flattening back to the positions; valid faces by
      the face rule; custom normals by the normals rule; and each UV layer present
      exactly under its own guard, holding the layer `assign_uv_layer` writes on the
      triangle mesh. */
  lemma GeometryMeaning(positions: seq<real>, normals: seq<real>, indices: seq<Json>, uv0: seq<real>, uv1: seq<real>)
    requires |positions| % 3 == 0
    ensures
      var g := GeometryOf(positions, normals, indices, uv0, uv1);
      && |g.vertices| == |positions| / 3 && Flatten(g.vertices) == positions
      && g.faces == FaceRule(indices, |positions| / 3)
      && ValidFaces(g.faces, |positions| / 3)
      && g.customNormals == CustomNormals(normals, positions)
      && (g.customNormals.Some? <==> |normals| > 0 && |normals| == |positions|)
      && (LayerNamed(g.uvLayers, "UVMap").Some? <==> UvGuard(uv0, |positions| / 3))
      && (LayerNamed(g.uvLayers, "UV2").Some? <==> UvGuard(uv1, |positions| / 3))
    ensures WellFormed(TriangleTopology(|positions| / 3, FaceRule(indices, |positions| / 3)))
    ensures
      var g := GeometryOf(positions, normals, indices, uv0, uv1);
      var mesh := TriangleTopology(|positions| / 3, FaceRule(indices, |positions| / 3));
      && LayerNamed(g.uvLayers, "UVMap") == UvLayerOf(mesh, uv0, "UVMap", true)
      && LayerNamed(g.uvLayers, "UV2") == UvLayerOf(mesh, uv1, "UV2", true)
  {
    FaceRuleValid(indices, |positions| / 3);
    TriangleTopologyWellFormed(|positions| / 3, FaceRule(indices, |positions| / 3));
    FlattenGroup3(positions);
  }

  /** `build_mesh_object(name, positions, normals, indices, uv0, uv1)`. */
  method BuildMeshObject(positions: seq<real>, normals: seq<real>, indices: seq<Json>, uv0: seq<real>, uv1: seq<real>) returns (g: Geometry)
    requires |positions| % 3 == 0
    ensures g == GeometryOf(positions, normals, indices, uv0, uv1)
  {
    var verts := BuildVertices(positions);
    var n := |verts|;
    var faces := BuildFaces(indices, n);
    FaceRuleValid(indices, n);
    TriangleTopologyWellFormed(n, faces);
    var mesh := TriangleTopology(n, faces);
    var customNormals := CustomNormals(normals, positions);

    var uvMap := AssignUvLayer(mesh, uv0, "UVMap", true);
    var uv2 := AssignUvLayer(mesh, uv1, "UV2", true);
    SameLayer(mesh, uv0, "UVMap", uvMap);
    SameLayer(mesh, uv1, "UV2", uv2);
    g := Geometry(verts, faces, customNormals, OptionalLayer(uvMap) + OptionalLayer(uv2));
  }

  lemma SameLayer(mesh: Topology, uv: seq<real>, name: string, layer: Option<UvLayer>)
    requires WellFormed(mesh)
    requires layer.Some? <==> UvGuard(uv, mesh.vertexCount)
    requires layer.Some? ==>
      && layer.value.name == name
      && |layer.value.data| == |mesh.loopVertex|
      && forall l :: 0 <= l < |mesh.loopVertex| ==>
           2 * mesh.loopVertex[l] + 1 < |uv| && layer.value.data[l] == UvOf(uv, mesh.loopVertex[l], true)
    ensures layer == UvLayerOf(mesh, uv, name, true)
  {
    if layer.Some? {
      assert layer.value.data == UvLayerOf(mesh, uv, name, true).value.data;
    }
  }
}
