/** `parse_playcanvas_data`: a loosely typed PlayCanvas JSON export turned into flat
    node, mesh, instance and material records, with a documented default for every
    missing field. */
module Schema {
  import opened Wrappers
  import opened Json

  datatype NodeRec = NodeRec(index: nat, name: Json, position: Json, rotation: Json, scale: Json, parent: Json)
  datatype MeshRec = MeshRec(name: Json, positions: Json, normals: Json, indices: Json, uv0: Json, uv1: Json)
  datatype InstanceRec = InstanceRec(node: Json, mesh: Json, material: Json)
  datatype MaterialRec = MaterialRec(index: nat, name: Json, diffuseMap: Json, diffuseColor: Json)
  datatype Parsed = Parsed(nodes: seq<NodeRec>, meshes: seq<MeshRec>, instances: seq<InstanceRec>, materials: seq<MaterialRec>)

  /** `data.get("model", {}) or data`. */
  function ModelObject(data: map<string, Json>): Json {
    Or(GetOr(data, "model", EmptyObj), JObj(data))
  }

  /** The lookups read a truthy `model` field, and otherwise the document itself
      (a missing, null, empty or zero `model`). */
  lemma ModelObjectRule(data: map<string, Json>)
    ensures "model" in data && Truthy(data["model"]) ==> ModelObject(data) == data["model"]
    ensures !("model" in data && Truthy(data["model"])) ==> ModelObject(data) == JObj(data)
  {
  }

  /** The document is a dict and so is the object the lookups read. */
  predicate ModelShaped(data: Json) {
    data.JObj? && ModelObject(data.fields).JObj?
  }

  function ModelOf(data: Json): map<string, Json>
    requires ModelShaped(data)
  {
    ModelObject(data.fields).fields
  }

  /** `model.get(key) or data.get(key) or []`: the model object first, then the top level. */
  function Fallback(data: Json, key: string): (v: Json)
    requires ModelShaped(data)
    ensures Truthy(Get(ModelOf(data), key)) ==> v == ModelOf(data)[key]
    ensures !Truthy(Get(ModelOf(data), key)) && Truthy(Get(data.fields, key)) ==> v == data.fields[key]
    ensures !Truthy(Get(ModelOf(data), key)) && !Truthy(Get(data.fields, key)) ==> v == EmptyArr
  {
    Or(Or(Get(ModelOf(data), key), Get(data.fields, key)), EmptyArr)
  }

  /** `model.get(key) or []`: the model object only. */
  function ModelOnly(data: Json, key: string): Json
    requires ModelShaped(data)
  {
    Or(Get(ModelOf(data), key), EmptyArr)
  }

  /** `vertices` and `meshes` come from the model object when truthy there and are
      `[]` otherwise: the top level is never consulted. */
  lemma ModelOnlyRule(data: Json, key: string)
    requires ModelShaped(data)
    ensures Truthy(Get(ModelOf(data), key)) ==> ModelOnly(data, key) == ModelOf(data)[key]
    ensures !Truthy(Get(ModelOf(data), key)) ==> ModelOnly(data, key) == EmptyArr
  {
  }

  function NodesValue(data: Json): Json requires ModelShaped(data) { Fallback(data, "nodes") }
  function ParentsValue(data: Json): Json requires ModelShaped(data) { Fallback(data, "parents") }
  function VerticesValue(data: Json): Json requires ModelShaped(data) { ModelOnly(data, "vertices") }
  function MeshesValue(data: Json): Json requires ModelShaped(data) { ModelOnly(data, "meshes") }
  /** `model.get("meshInstances", [])`: no `or`, so an explicit null is not replaced. */
  function InstancesValue(data: Json): Json
    requires ModelShaped(data)
  {
    GetOr(ModelOf(data), "meshInstances", EmptyArr)
  }

  /** A present `meshInstances` field is used whatever it holds, even null or empty;
      only a missing one becomes `[]`. */
  lemma InstancesValueRule(data: Json)
    requires ModelShaped(data)
    ensures "meshInstances" in ModelOf(data) ==> InstancesValue(data) == ModelOf(data)["meshInstances"]
    ensures "meshInstances" !in ModelOf(data) ==> InstancesValue(data) == EmptyArr
  {
  }
  function MaterialsValue(data: Json): Json requires ModelShaped(data) { Fallback(data, "materials") }

  /** `vb.get(key, {})` is a dict, so the following `.get("data")` does not raise. */
  predicate ChannelSafe(vb: map<string, Json>, key: string) {
    GetOr(vb, key, EmptyObj).JObj?
  }

  /** `vb.get(key, {}).get("data")`. */
  function ChannelData(vb: map<string, Json>, key: string): Json
    requires ChannelSafe(vb, key)
  {
    Get(GetOr(vb, key, EmptyObj).fields, "data")
  }

  /** `vertex_buffers[k] or {}` is a dict whose four channels, where present, are dicts. */
  predicate BufferSafe(vb: Json) {
    var b := Or(vb, EmptyObj);
    && b.JObj?
    && ChannelSafe(b.fields, "position")
    && ChannelSafe(b.fields, "normal")
    && ChannelSafe(b.fields, "texCoord0")
    && ChannelSafe(b.fields, "texCoord1")
  }

  /** The vertex buffer a raw mesh names: its `vertices` field, when that is an int in `[0, count)`. */
  function VertexRef(m: Json, count: nat): (r: Option<nat>)
    ensures r.Some? ==> r.value < count && IntValue(Get(AsDict(m), "vertices")) == Some(r.value as int)
    ensures r.None? ==> forall k :: IntValue(Get(AsDict(m), "vertices")) == Some(k) ==> !(0 <= k < count)
  {
    match IntValue(Get(AsDict(m), "vertices"))
    case Some(k) => if 0 <= k < count then Some(k as nat) else None
    case None => None
  }

  /** Reading the vertex buffer that mesh `m` names does not raise. */
  predicate MeshSafe(m: Json, vbs: seq<Json>) {
    match VertexRef(m, |vbs|)
    case None => true
    case Some(k) => BufferSafe(vbs[k])
  }

  /** The document raises nothing in the parser: the lookups give lists and every
      referenced vertex buffer is a dict of dicts. */
  predicate WellShaped(data: Json) {
    && ModelShaped(data)
    && NodesValue(data).JArr?
    && ParentsValue(data).JArr?
    && VerticesValue(data).JArr?
    && MeshesValue(data).JArr?
    && InstancesValue(data).JArr?
    && MaterialsValue(data).JArr?
    && forall k :: 0 <= k < |MeshesValue(data).items| ==> MeshSafe(MeshesValue(data).items[k], VerticesValue(data).items)
  }

  /** The record of raw node `n` at position `i`. */
  function NodeRecord(i: nat, n: Json, parents: seq<Json>): (r: NodeRec)
    ensures r.index == i
    ensures r.parent == if i < |parents| then parents[i] else JInt(-1)
    ensures n.JObj? && "name" in n.fields ==> r.name == n.fields["name"]
    ensures !n.JObj? || "name" !in n.fields ==> r.name == JStr(Numbered("Node_", i))
    ensures !n.JObj? ==> r.position == JNull && r.rotation == JNull && r.scale == JNull
  {
    var d := AsDict(n);
    NodeRec(i, GetOr(d, "name", JStr(Numbered("Node_", i))), Get(d, "position"), Get(d, "rotation"), Get(d, "scale"),
            if i < |parents| then parents[i] else JInt(-1))
  }

  /** The record of raw mesh `m` at position `mi`, reading the vertex buffers `vbs`. */
  function MeshRecord(mi: nat, m: Json, vbs: seq<Json>): (r: MeshRec)
    requires MeshSafe(m, vbs)
    ensures "name" in AsDict(m) ==> r.name == AsDict(m)["name"]
    ensures "name" !in AsDict(m) ==> r.name == JStr(Numbered("Mesh_", mi))
    ensures VertexRef(m, |vbs|).None? ==> r.positions == JNull && r.normals == JNull && r.uv0 == JNull && r.uv1 == JNull
    ensures VertexRef(m, |vbs|).Some? ==>
      var b := Or(vbs[VertexRef(m, |vbs|).value], EmptyObj).fields;
      && r.positions == ChannelData(b, "position")
      && r.normals == ChannelData(b, "normal")
      && r.uv0 == ChannelData(b, "texCoord0")
      && r.uv1 == ChannelData(b, "texCoord1")
    ensures Truthy(Get(AsDict(m), "indices")) ==> r.indices == AsDict(m)["indices"]
    ensures !Truthy(Get(AsDict(m), "indices")) ==> r.indices == Get(AsDict(m), "triangles")
  {
    var d := AsDict(m);
    var name := GetOr(d, "name", JStr(Numbered("Mesh_", mi)));
    var indices := Or(Get(d, "indices"), Get(d, "triangles"));
    match VertexRef(m, |vbs|)
    case None => MeshRec(name, JNull, JNull, indices, JNull, JNull)
    case Some(k) =>
      var b := Or(vbs[k], EmptyObj).fields;
      MeshRec(name, ChannelData(b, "position"), ChannelData(b, "normal"), indices,
              ChannelData(b, "texCoord0"), ChannelData(b, "texCoord1"))
  }

  function InstanceRecord(d: map<string, Json>): InstanceRec {
    InstanceRec(Get(d, "node"), Get(d, "mesh"), Get(d, "material"))
  }

  /** The instance records of the raw list `xs`: one per dict element, in order; other elements are dropped. */
  function DictInstances(xs: seq<Json>): (r: seq<InstanceRec>)
    ensures |r| <= |xs|
    ensures (forall k :: 0 <= k < |xs| ==> !xs[k].JObj?) ==> r == []
    ensures (forall k :: 0 <= k < |xs| ==> xs[k].JObj?) ==>
      |r| == |xs| && forall k :: 0 <= k < |xs| ==> r[k] == InstanceRecord(xs[k].fields)
  {
    if xs == [] then []
    else
      var last := xs[|xs| - 1];
      DictInstances(xs[..|xs| - 1]) + (if last.JObj? then [InstanceRecord(last.fields)] else [])
  }

  /** The record of raw material `m` at position `i`. */
  function MaterialRecord(i: nat, m: Json): (r: MaterialRec)
    ensures r.index == i
    ensures "name" in AsDict(m) ==> r.name == AsDict(m)["name"]
    ensures "name" !in AsDict(m) ==> r.name == JStr(Numbered("Material_", i))
    ensures r.diffuseMap == Get(AsDict(m), "diffuseMap")
    ensures Get(AsDict(m), "diffuse").JObj? ==> r.diffuseColor == Get(AsDict(m)["diffuse"].fields, "data")
    ensures !Get(AsDict(m), "diffuse").JObj? ==> r.diffuseColor == JNull
  {
    var d := AsDict(m);
    var diffuse := Get(d, "diffuse");
    MaterialRec(i, GetOr(d, "name", JStr(Numbered("Material_", i))), Get(d, "diffuseMap"),
                if diffuse.JObj? then Get(diffuse.fields, "data") else JNull)
  }

  function ParsedNodes(raw: seq<Json>, parents: seq<Json>): seq<NodeRec> {
    seq(|raw|, i requires 0 <= i < |raw| => NodeRecord(i, raw[i], parents))
  }

  function ParsedMeshes(raw: seq<Json>, vbs: seq<Json>): seq<MeshRec>
    requires forall k :: 0 <= k < |raw| ==> MeshSafe(raw[k], vbs)
  {
    seq(|raw|, i requires 0 <= i < |raw| => MeshRecord(i, raw[i], vbs))
  }

  function ParsedMaterials(raw: seq<Json>): seq<MaterialRec> {
    seq(|raw|, i requires 0 <= i < |raw| => MaterialRecord(i, raw[i]))
  }

  /** What the parser returns for `data`. */
  function ParseSpec(data: Json): (p: Parsed)
    requires WellShaped(data)
    ensures |p.nodes| == |NodesValue(data).items|
    ensures forall i :: 0 <= i < |p.nodes| ==>
      && p.nodes[i].index == i
      && p.nodes[i].parent == (if i < |ParentsValue(data).items| then ParentsValue(data).items[i] else JInt(-1))
    ensures |p.meshes| == |MeshesValue(data).items|
    ensures |p.instances| <= |InstancesValue(data).items|
    ensures |p.materials| == |MaterialsValue(data).items|
    ensures forall i :: 0 <= i < |p.materials| ==> p.materials[i].index == i
  {
    Parsed(ParsedNodes(NodesValue(data).items, ParentsValue(data).items),
           ParsedMeshes(MeshesValue(data).items, VerticesValue(data).items),
           DictInstances(InstancesValue(data).items),
           ParsedMaterials(MaterialsValue(data).items))
  }

  /** The node loop: one record per raw node. */
  method ParseNodes(nodesRaw: seq<Json>, parentsRaw: seq<Json>) returns (nodes: seq<NodeRec>)
    ensures nodes == ParsedNodes(nodesRaw, parentsRaw)
  {
    nodes := [];
    for i := 0 to |nodesRaw|
      invariant |nodes| == i
      invariant forall k :: 0 <= k < i ==> nodes[k] == NodeRecord(k, nodesRaw[k], parentsRaw)
    {
      nodes := nodes + [NodeRecord(i, nodesRaw[i], parentsRaw)];
    }
  }

  /** The mesh loop: one record per raw mesh. */
  method ParseMeshes(meshesRaw: seq<Json>, vertexBuffers: seq<Json>) returns (meshes: seq<MeshRec>)
    requires forall k :: 0 <= k < |meshesRaw| ==> MeshSafe(meshesRaw[k], vertexBuffers)
    ensures meshes == ParsedMeshes(meshesRaw, vertexBuffers)
  {
    meshes := [];
    for mi := 0 to |meshesRaw|
      invariant |meshes| == mi
      invariant forall k :: 0 <= k < mi ==> meshes[k] == MeshRecord(k, meshesRaw[k], vertexBuffers)
    {
      meshes := meshes + [MeshRecord(mi, meshesRaw[mi], vertexBuffers)];
    }
  }

  /** The instance loop: a record per dict, anything else skipped. */
  method ParseInstances(instancesRaw: seq<Json>) returns (instances: seq<InstanceRec>)
    ensures instances == DictInstances(instancesRaw)
  {
    instances := [];
    for i := 0 to |instancesRaw|
      invariant instances == DictInstances(instancesRaw[..i])
    {
      assert instancesRaw[..i + 1][..i] == instancesRaw[..i];
      var inst := instancesRaw[i];
      if inst.JObj? {
        instances := instances + [InstanceRecord(inst.fields)];
      }
    }
    assert instancesRaw[..|instancesRaw|] == instancesRaw;
  }

  /** The material loop: one record per raw material. */
  method ParseMaterials(materialsRaw: seq<Json>) returns (materials: seq<MaterialRec>)
    ensures materials == ParsedMaterials(materialsRaw)
  {
    materials := [];
    for i := 0 to |materialsRaw|
      invariant |materials| == i
      invariant forall k :: 0 <= k < i ==> materials[k] == MaterialRecord(k, materialsRaw[k])
    {
      materials := materials + [MaterialRecord(i, materialsRaw[i])];
    }
  }

  /** `parse_playcanvas_data`: four loops appending one record per raw entry. */
  method Parse(data: Json) returns (p: Parsed)
    requires WellShaped(data)
    ensures p == ParseSpec(data)
  {
    var nodes := ParseNodes(NodesValue(data).items, ParentsValue(data).items);
    var meshes := ParseMeshes(MeshesValue(data).items, VerticesValue(data).items);
    var instances := ParseInstances(InstancesValue(data).items);
    var materials := ParseMaterials(MaterialsValue(data).items);
    p := Parsed(nodes, meshes, instances, materials);
  }

  /** Instance filtering distributes over concatenation: dropping a non-dict element
      leaves every other instance record in place and in order. */
  lemma {:induction false} DictInstancesAppend(a: seq<Json>, b: seq<Json>)
    ensures DictInstances(a + b) == DictInstances(a) + DictInstances(b)
    decreases |b|
  {
    if b == [] {
      assert a + b == a;
    } else {
      var b' := b[..|b| - 1];
      assert (a + b)[..|a + b| - 1] == a + b';
      DictInstancesAppend(a, b');
    }
  }

  function Wrap(inner: Json): Json {
    JObj(map["model" := inner])
  }

  /** A flat document and the same document wrapped as `{"model": ...}` parse alike. */
  lemma WrapperTransparent(inner: Json)
    requires inner.JObj? && |inner.fields| > 0 && "model" !in inner.fields
    requires WellShaped(inner)
    ensures WellShaped(Wrap(inner))
    ensures ParseSpec(Wrap(inner)) == ParseSpec(inner)
  {
  }

  /** With a model object present, `vertices`, `meshes` and `meshInstances` at the top
      level are never read: replacing them changes nothing. */
  lemma TopLevelIgnored(data: Json, key: string, v: Json)
    requires WellShaped(data)
    requires key == "vertices" || key == "meshes" || key == "meshInstances"
    requires Truthy(Get(data.fields, "model"))
    ensures WellShaped(JObj(data.fields[key := v]))
    ensures ParseSpec(JObj(data.fields[key := v])) == ParseSpec(data)
  {
  }
}
