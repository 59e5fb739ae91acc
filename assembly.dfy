/** `ImportPlayCanvas.execute`: one scene per selected file, with an empty per node,
    a material per material record and a mesh object per placeable instance. Matrices
    are the abstract type `M` of `Transform`; the Blender calls that make objects are
    represented by the values they are given. */
module Assembly {
  import opened Wrappers
  import opened Json
  import opened Schema
  import opened Transform
  import opened MeshBuild
  import opened MeshObject

  /** The matrix operations the importer uses: `@`, `Matrix()`, the Y-up to Z-up
      rotation `conv_mat`, and `make_local_matrix(position, rotation, scale)`. */
  datatype MatrixOps<!M> = MatrixOps(mul: (M, M) -> M, identity: M, conv: M, local: (Json, Json, Json) -> M)

  // ----- nodes -----

  /** A parent value `parent_idx >= 0` can compare: an int (or bool), or a negative float. */
  predicate ParentSafe(v: Json) {
    v.JInt? || v.JBool? || (v.JReal? && v.r < 0.0)
  }

  /** The parent index a node record stands for; every negative value is a root. */
  function ParentIndex(v: Json): (p: int)
    ensures IntValue(v).Some? ==> p == IntValue(v).value
    ensures v.JReal? ==> p < 0
  {
    match v
    case JInt(i) => i
    case JBool(b) => if b then 1 else 0
    case _ => -1
  }

  function ParentIndices(nodes: seq<NodeRec>): (r: seq<int>)
    ensures |r| == |nodes|
  {
    seq(|nodes|, k requires 0 <= k < |nodes| => ParentIndex(nodes[k].parent))
  }

  function Locals<M>(nodes: seq<NodeRec>, ops: MatrixOps<M>): (r: seq<M>)
    ensures |r| == |nodes|
  {
    seq(|nodes|, k requires 0 <= k < |nodes| => ops.local(nodes[k].position, nodes[k].rotation, nodes[k].scale))
  }

  /** The nodes raise nothing: names are strings, parents comparable, and the parent
      chains stay in range and end at a root. */
  predicate NodesSafe(nodes: seq<NodeRec>) {
    && (forall k :: 0 <= k < |nodes| ==> nodes[k].name.JStr? && ParentSafe(nodes[k].parent))
    && Acyclic(ParentIndices(nodes))
  }

  /** The world matrix of node `i` of the parsed nodes. */
  function NodeWorld<M>(nodes: seq<NodeRec>, ops: MatrixOps<M>, i: int): M
    requires NodesSafe(nodes) && 0 <= i < |nodes|
  {
    World(ParentIndices(nodes), Locals(nodes, ops), ops.mul, i)
  }

  /** `compute_world_matrices(nodes) if nodes else {}`, as a value. */
  function WorldOf<M>(nodes: seq<NodeRec>, ops: MatrixOps<M>): (w: map<int, M>)
    requires NodesSafe(nodes)
    ensures forall i :: i in w <==> 0 <= i < |nodes|
    ensures forall i :: 0 <= i < |nodes| ==> w[i] == NodeWorld(nodes, ops, i)
  {
    map i | 0 <= i < |nodes| :: NodeWorld(nodes, ops, i)
  }

  /** `world_matrices.get(key, Matrix())`, with Python's key equality. */
  function WorldGet<M>(world: map<int, M>, key: Json, identity: M): (m: M)
    requires Hashable(key)
    ensures KeyValue(key).Some? && KeyValue(key).value in world ==> m == world[KeyValue(key).value]
    ensures KeyValue(key).None? || KeyValue(key).value !in world ==> m == identity
  {
    match KeyValue(key)
    case Some(k) => if k in world then world[k] else identity
    case None => identity
  }

  /** An empty object: its name and its world matrix. */
  datatype PlacedNode<M> = PlacedNode(name: string, matrix: M)

  function NodesPlaced<M>(nodes: seq<NodeRec>, world: map<int, M>, ops: MatrixOps<M>): (r: seq<PlacedNode<M>>)
    requires forall k :: 0 <= k < |nodes| ==> nodes[k].name.JStr?
    ensures |r| == |nodes|
  {
    seq(|nodes|, k requires 0 <= k < |nodes| =>
      PlacedNode(nodes[k].name.s, ops.mul(ops.conv, WorldGet(world, JInt(nodes[k].index), ops.identity))))
  }

  /** The node loop of `execute`: an empty per node, at `conv_mat @ world`. */
  method PlaceNodes<M>(nodes: seq<NodeRec>, world: map<int, M>, ops: MatrixOps<M>) returns (placed: seq<PlacedNode<M>>)
    requires forall k :: 0 <= k < |nodes| ==> nodes[k].name.JStr?
    ensures placed == NodesPlaced(nodes, world, ops)
  {
    placed := [];
    for i := 0 to |nodes|
      invariant placed == NodesPlaced(nodes[..i], world, ops)
    {
      var node := nodes[i];
      var m := ops.mul(ops.conv, WorldGet(world, JInt(node.index), ops.identity));
      placed := placed + [PlacedNode(node.name.s, m)];
    }
    assert nodes[..|nodes|] == nodes;
  }

  // ----- materials -----

  /** How a material colours its surface: an image file, a flat RGBA colour, or
      Blender's default. */
  datatype Shading = TextureMap(path: string) | FlatColor(rgba: seq<real>) | DefaultShading
  datatype Material = Material(index: nat, name: string, shading: Shading)

  /** `len(color) >= 3` and `[c / 255 for c in color[:3]]` raise nothing. */
  predicate ColorSafe(c: Json) {
    !Truthy(c) || (Len(c).Some? && (Len(c).value >= 3 ==> c.JArr? && IsNumber(c.items[0]) && IsNumber(c.items[1]) && IsNumber(c.items[2])))
  }

  /** `materials.new(name)` and `os.path.join(base_dir, diffuse_map)` take strings. */
  predicate MaterialSafe(m: MaterialRec) {
    && m.name.JStr?
    && (Truthy(m.diffuseMap) ==> m.diffuseMap.JStr?)
    && (!Truthy(m.diffuseMap) ==> ColorSafe(m.diffuseColor))
  }

  /** The diffuse map when there is one, otherwise the first three colour channels
      over 255 with full alpha when the colour has three, otherwise the default. */
  function ShadingOf(m: MaterialRec): (s: Shading)
    requires MaterialSafe(m)
    ensures Truthy(m.diffuseMap) ==> s == TextureMap(m.diffuseMap.s)
    ensures s.TextureMap? <==> Truthy(m.diffuseMap)
    ensures s.DefaultShading? <==> !Truthy(m.diffuseMap) && !(Truthy(m.diffuseColor) && Len(m.diffuseColor).value >= 3)
    ensures s.FlatColor? <==> !Truthy(m.diffuseMap) && Truthy(m.diffuseColor) && Len(m.diffuseColor).value >= 3
    ensures s.FlatColor? ==>
      && |s.rgba| == 4 && s.rgba[3] == 1.0
      && forall k :: 0 <= k < 3 ==> s.rgba[k] == NumValue(m.diffuseColor.items[k]) / 255.0
  {
    if Truthy(m.diffuseMap) then TextureMap(m.diffuseMap.s)
    else if Truthy(m.diffuseColor) && Len(m.diffuseColor).value >= 3 then
      var c := m.diffuseColor.items;
      FlatColor([NumValue(c[0]) / 255.0, NumValue(c[1]) / 255.0, NumValue(c[2]) / 255.0] + [1.0])
    else DefaultShading
  }

  /** Colour channels in `0 .. 255` give a base colour in the unit range. */
  lemma FlatColorInUnitRange(m: MaterialRec)
    requires MaterialSafe(m) && ShadingOf(m).FlatColor?
    requires forall k :: 0 <= k < 3 ==> 0.0 <= NumValue(m.diffuseColor.items[k]) <= 255.0
    ensures forall k :: 0 <= k < 4 ==> 0.0 <= ShadingOf(m).rgba[k] <= 1.0
  {
  }

  function MaterialOf(m: MaterialRec): Material
    requires MaterialSafe(m)
  {
    Material(m.index, m.name.s, ShadingOf(m))
  }

  /** `material_map`: each record stored under its index, a later one replacing an earlier. */
  function MaterialMapOf(mats: seq<MaterialRec>): map<int, Material>
    requires forall k :: 0 <= k < |mats| ==> MaterialSafe(mats[k])
  {
    if mats == [] then map[]
    else
      var last := mats[|mats| - 1];
      MaterialMapOf(mats[..|mats| - 1])[last.index := MaterialOf(last)]
  }

  /** The material loop of `execute`. */
  method BuildMaterialMap(mats: seq<MaterialRec>) returns (mm: map<int, Material>)
    requires forall k :: 0 <= k < |mats| ==> MaterialSafe(mats[k])
    ensures mm == MaterialMapOf(mats)
  {
    mm := map[];
    for i := 0 to |mats|
      invariant mm == MaterialMapOf(mats[..i])
    {
      assert mats[..i + 1][..i] == mats[..i];
      var info := mats[i];
      mm := mm[info.index := MaterialOf(info)];
    }
    assert mats[..|mats|] == mats;
  }

  /** With records indexed by position, as the parser makes them, the map holds exactly
      one material per record, under its position. */
  lemma {:induction false} MaterialMapIndexed(mats: seq<MaterialRec>)
    requires forall k :: 0 <= k < |mats| ==> MaterialSafe(mats[k]) && mats[k].index == k
    ensures forall i :: i in MaterialMapOf(mats) <==> 0 <= i < |mats|
    ensures forall k :: 0 <= k < |mats| ==> MaterialMapOf(mats)[k] == MaterialOf(mats[k])
  {
    if mats != [] {
      MaterialMapIndexed(mats[..|mats| - 1]);
    }
  }

  /** `material_map[mat_idx] if mat_idx in material_map`. */
  function MaterialFor(mm: map<int, Material>, key: Json): (r: Option<Material>)
    requires Hashable(key)
    ensures r.Some? <==> KeyValue(key).Some? && KeyValue(key).value in mm
    ensures r.Some? ==> r.value == mm[KeyValue(key).value]
  {
    match KeyValue(key)
    case Some(k) => if k in mm then Some(mm[k]) else None
    case None => None
  }

  // ----- instances -----

  /** `mesh_idx >= len(meshes)` and `meshes[mesh_idx]` raise nothing: None, an int not
      below `-len`, or a float that is skipped. */
  predicate MeshRefSafe(v: Json, count: nat) {
    match v
    case JNull => true
    case JInt(i) => i + count >= 0
    case JBool(_) => true
    case JReal(r) => r >= count as real
    case _ => false
  }

  /** The mesh an instance names, or None when the instance is skipped. A negative index
      counts from the end of the list, as Python's does. */
  function MeshSlot(v: Json, count: nat): (r: Option<nat>)
    requires MeshRefSafe(v, count)
    ensures r.Some? ==> r.value < count && IntValue(v).Some?
    ensures r.Some? && IntValue(v).value >= 0 ==> r.value == IntValue(v).value
    ensures r.Some? && IntValue(v).value < 0 ==> r.value == IntValue(v).value + count
    ensures r.None? <==> v.JNull? || v.JReal? || IntValue(v).value >= count
  {
    match IntValue(v)
    case Some(k) => if k >= count then None else if k >= 0 then Some(k) else Some(k + count)
    case None => None
  }

  /** `build_mesh_object` raises nothing on this record: its name is a string, its
      positions are a list of numbers in threes, the normals and the index list have a
      length when present, and a UV array of the right length holds numbers. */
  predicate MeshBuildSafe(md: MeshRec) {
    && md.name.JStr?
    && NumberList(md.positions) && |md.positions.items| % 3 == 0
    && (!Truthy(md.normals) || Len(md.normals).Some?)
    && (!Truthy(md.indices) || Len(md.indices).Some?)
    && UvSafe(md.uv0, |md.positions.items| / 3)
    && UvSafe(md.uv1, |md.positions.items| / 3)
  }

  predicate UvSafe(v: Json, n: nat) {
    !Truthy(v) || (Len(v).Some? && (Len(v).value / 2 == n ==> NumberList(v)))
  }

  /** The normals as numbers; anything that is not a list of numbers never becomes
      custom normals (the `except` branch), which the empty sequence stands for. */
  function NormalArg(v: Json): (r: seq<real>)
    ensures NumberList(v) ==> r == Numbers(v)
    ensures !NumberList(v) ==> r == []
  {
    if NumberList(v) then Numbers(v) else []
  }

  /** The index list: a list as it is; the entries of a string or a dict are never
      vertex indices (their faces raise and are skipped), and a falsy value is empty. */
  function IndexArg(v: Json): (r: seq<Json>)
    ensures Len(v).Some? ==> |r| == Len(v).value
    ensures v.JArr? ==> r == v.items
    ensures !v.JArr? ==> forall k :: 0 <= k < |r| ==> IntValue(r[k]).None?
  {
    match v
    case JArr(xs) => xs
    case JStr(s) => seq(|s|, _ => JNull)
    case JObj(f) => seq(|f|, _ => JNull)
    case _ => []
  }

  function UvArg(v: Json): seq<real> {
    if NumberList(v) then Numbers(v) else []
  }

  /** The geometry `build_mesh_object` makes from a mesh record. */
  function MeshGeometry(md: MeshRec): Geometry
    requires MeshBuildSafe(md)
  {
    GeometryOf(Numbers(md.positions), NormalArg(md.normals), IndexArg(md.indices), UvArg(md.uv0), UvArg(md.uv1))
  }

  /** A mesh object: its name, geometry, world matrix and material slot. */
  datatype PlacedObject<M> = PlacedObject(name: string, geometry: Geometry, matrix: M, material: Option<Material>)

  /** An instance raises nothing: its mesh reference is safe, and when it is placed,
      the mesh can be built and its node and material keys are hashable. A skipped
      instance never looks its keys up, so they may be anything. */
  predicate InstanceSafe(inst: InstanceRec, meshes: seq<MeshRec>) {
    && MeshRefSafe(inst.mesh, |meshes|)
    && match MeshSlot(inst.mesh, |meshes|)
       case None => true
       case Some(k) =>
         Truthy(meshes[k].positions) ==> MeshBuildSafe(meshes[k]) && Hashable(inst.node) && Hashable(inst.material)
  }

  /** The object one instance places: skipped when its mesh index is None or past the
      end or when the mesh has no positions. */
  function PlaceInstance<M>(inst: InstanceRec, meshes: seq<MeshRec>, world: map<int, M>, mm: map<int, Material>, ops: MatrixOps<M>): Option<PlacedObject<M>>
    requires InstanceSafe(inst, meshes)
  {
    match MeshSlot(inst.mesh, |meshes|)
    case None => None
    case Some(k) =>
      var md := meshes[k];
      if !Truthy(md.positions) then None
      else Some(PlacedObject(md.name.s, MeshGeometry(md), ops.mul(ops.conv, WorldGet(world, inst.node, ops.identity)),
                             MaterialFor(mm, inst.material)))
  }

  /** An instance is placed exactly when it names a mesh that has positions; the object
      is that mesh's geometry under its name, at the conversion times the world matrix
      of the instance's node, with the material its key names. */
  lemma PlaceInstanceMeaning<M>(inst: InstanceRec, meshes: seq<MeshRec>, world: map<int, M>, mm: map<int, Material>, ops: MatrixOps<M>)
    requires InstanceSafe(inst, meshes)
    ensures
      var r := PlaceInstance(inst, meshes, world, mm, ops);
      var slot := MeshSlot(inst.mesh, |meshes|);
      && (r.Some? <==> slot.Some? && Truthy(meshes[slot.value].positions))
      && (r.Some? ==>
            && r.value.name == meshes[slot.value].name.s
            && r.value.geometry == MeshGeometry(meshes[slot.value])
            && r.value.matrix == ops.mul(ops.conv, WorldGet(world, inst.node, ops.identity))
            && r.value.material == MaterialFor(mm, inst.material))
  {
  }

  /** The present values of a sequence of options, in order. */
  function Somes<T>(xs: seq<Option<T>>): (r: seq<T>)
    ensures |r| <= |xs|
  {
    if xs == [] then []
    else Somes(xs[..|xs| - 1]) + (if xs[|xs| - 1].Some? then [xs[|xs| - 1].value] else [])
  }

  lemma {:induction false} SomesAppend<T>(a: seq<Option<T>>, b: seq<Option<T>>)
    ensures Somes(a + b) == Somes(a) + Somes(b)
    decreases |b|
  {
    if b == [] {
      assert a + b == a;
    } else {
      assert (a + b)[..|a + b| - 1] == a + b[..|b| - 1];
      SomesAppend(a, b[..|b| - 1]);
    }
  }

  predicate InstancesSafe(insts: seq<InstanceRec>, meshes: seq<MeshRec>) {
    forall k :: 0 <= k < |insts| ==> InstanceSafe(insts[k], meshes)
  }

  /** `f` applied to every element, in order. */
  function Each<X, Y>(xs: seq<X>, f: X --> Y): (r: seq<Y>)
    requires forall k :: 0 <= k < |xs| ==> f.requires(xs[k])
    ensures |r| == |xs|
  {
    seq(|xs|, k requires 0 <= k < |xs| => f(xs[k]))
  }

  lemma EachAppend<X, Y>(a: seq<X>, b: seq<X>, f: X --> Y)
    requires forall k :: 0 <= k < |a| ==> f.requires(a[k])
    requires forall k :: 0 <= k < |b| ==> f.requires(b[k])
    ensures forall k :: 0 <= k < |a + b| ==> f.requires((a + b)[k])
    ensures Each(a + b, f) == Each(a, f) + Each(b, f)
  {
    assert forall k :: 0 <= k < |a + b| ==> (a + b)[k] == if k < |a| then a[k] else b[k - |a|];
  }

  /** The placement of one instance, as a function of the instance alone. */
  function Placer<M>(meshes: seq<MeshRec>, world: map<int, M>, mm: map<int, Material>, ops: MatrixOps<M>): InstanceRec --> Option<PlacedObject<M>> {
    inst requires InstanceSafe(inst, meshes) => PlaceInstance(inst, meshes, world, mm, ops)
  }

  /** What each instance places, position by position. */
  function Placements<M>(insts: seq<InstanceRec>, meshes: seq<MeshRec>, world: map<int, M>, mm: map<int, Material>, ops: MatrixOps<M>): (r: seq<Option<PlacedObject<M>>>)
    requires InstancesSafe(insts, meshes)
    ensures |r| == |insts|
  {
    Each(insts, Placer(meshes, world, mm, ops))
  }

  /** The objects the instance loop places, in instance order. */
  function PlacedObjects<M>(insts: seq<InstanceRec>, meshes: seq<MeshRec>, world: map<int, M>, mm: map<int, Material>, ops: MatrixOps<M>): (r: seq<PlacedObject<M>>)
    requires InstancesSafe(insts, meshes)
    ensures |r| <= |insts|
  {
    Somes(Placements(insts, meshes, world, mm, ops))
  }

  /** The instance loop of `execute`. */
  method PlaceInstances<M>(insts: seq<InstanceRec>, meshes: seq<MeshRec>, world: map<int, M>, mm: map<int, Material>, ops: MatrixOps<M>)
    returns (objects: seq<PlacedObject<M>>)
    requires InstancesSafe(insts, meshes)
    ensures objects == PlacedObjects(insts, meshes, world, mm, ops)
  {
    objects := [];
    for i := 0 to |insts|
      invariant objects == Somes(Placements(insts, meshes, world, mm, ops)[..i])
    {
      var ps := Placements(insts, meshes, world, mm, ops);
      assert ps[..i + 1][..i] == ps[..i];
      var inst := insts[i];
      var slot := MeshSlot(inst.mesh, |meshes|);
      if slot.Some? {
        var md := meshes[slot.value];
        if Truthy(md.positions) {
          var g := BuildMeshObject(Numbers(md.positions), NormalArg(md.normals), IndexArg(md.indices), UvArg(md.uv0), UvArg(md.uv1));
          var matrix := ops.mul(ops.conv, WorldGet(world, inst.node, ops.identity));
          objects := objects + [PlacedObject(md.name.s, g, matrix, MaterialFor(mm, inst.material))];
        }
      }
    }
    assert Placements(insts, meshes, world, mm, ops)[..|insts|] == Placements(insts, meshes, world, mm, ops);
  }

  /** Placing distributes over concatenation of instance lists. */
  lemma PlacedObjectsAppend<M>(a: seq<InstanceRec>, b: seq<InstanceRec>, meshes: seq<MeshRec>, world: map<int, M>, mm: map<int, Material>, ops: MatrixOps<M>)
    requires InstancesSafe(a, meshes) && InstancesSafe(b, meshes)
    ensures InstancesSafe(a + b, meshes)
    ensures PlacedObjects(a + b, meshes, world, mm, ops) == PlacedObjects(a, meshes, world, mm, ops) + PlacedObjects(b, meshes, world, mm, ops)
  {
    EachAppend(a, b, Placer(meshes, world, mm, ops));
    SomesAppend(Placements(a, meshes, world, mm, ops), Placements(b, meshes, world, mm, ops));
  }

  /** A skipped instance never looks up its node or material key: with any keys at
      all, lists and dicts included, it is still accepted and still places nothing. */
  lemma SkippedKeysUnread<M>(inst: InstanceRec, node: Json, material: Json, meshes: seq<MeshRec>, world: map<int, M>, mm: map<int, Material>, ops: MatrixOps<M>)
    requires InstanceSafe(inst, meshes) && PlaceInstance(inst, meshes, world, mm, ops).None?
    ensures InstanceSafe(InstanceRec(node, inst.mesh, material), meshes)
    ensures PlaceInstance(InstanceRec(node, inst.mesh, material), meshes, world, mm, ops).None?
  {
  }

  /** A skipped instance leaves every other object in place and in order. */
  lemma SkippedInstanceHarmless<M>(a: seq<InstanceRec>, skipped: InstanceRec, b: seq<InstanceRec>, meshes: seq<MeshRec>, world: map<int, M>, mm: map<int, Material>, ops: MatrixOps<M>)
    requires InstancesSafe(a, meshes) && InstancesSafe(b, meshes) && InstanceSafe(skipped, meshes)
    requires PlaceInstance(skipped, meshes, world, mm, ops).None?
    ensures InstancesSafe(a + [skipped] + b, meshes) && InstancesSafe(a + b, meshes)
    ensures PlacedObjects(a + [skipped] + b, meshes, world, mm, ops) == PlacedObjects(a + b, meshes, world, mm, ops)
  {
    assert InstancesSafe([skipped], meshes);
    PlacedObjectsAppend(a, [skipped], meshes, world, mm, ops);
    PlacedObjectsAppend(a + [skipped], b, meshes, world, mm, ops);
    PlacedObjectsAppend(a, b, meshes, world, mm, ops);
    var one: seq<Option<PlacedObject<M>>> := [None];
    assert one[..0] == [];
    assert Placements([skipped], meshes, world, mm, ops) == one;
  }

  // ----- one file -----

  /** What importing one file creates: the root empty's name, the node empties, the
      material map and the mesh objects. */
  datatype Scene<M> = Scene(rootName: string, nodes: seq<PlacedNode<M>>, materials: map<int, Material>, objects: seq<PlacedObject<M>>)

  /** The parsed records raise nothing in `execute`. */
  predicate SceneSafe(p: Parsed) {
    && NodesSafe(p.nodes)
    && (forall k :: 0 <= k < |p.materials| ==> MaterialSafe(p.materials[k]))
    && InstancesSafe(p.instances, p.meshes)
  }

  /** The document raises nothing from parsing to placement. */
  predicate ImportSafe(data: Json) {
    WellShaped(data) && SceneSafe(ParseSpec(data))
  }

  /** `display_name_from_filepath(filepath) or "PlayCanvas_Model"`. */
  function RootName(displayName: string): (r: string)
    ensures displayName != [] ==> r == displayName
    ensures displayName == [] ==> r == "PlayCanvas_Model"
  {
    if displayName == [] then "PlayCanvas_Model" else displayName
  }

  /** The scene made from parsed records under the root name `rootName`. */
  function SceneFrom<M>(rootName: string, p: Parsed, ops: MatrixOps<M>): Scene<M>
    requires SceneSafe(p)
  {
    var world := WorldOf(p.nodes, ops);
    var mm := MaterialMapOf(p.materials);
    Scene(rootName, NodesPlaced(p.nodes, world, ops), mm, PlacedObjects(p.instances, p.meshes, world, mm, ops))
  }

  /** The scene importing `data` creates. */
  function SceneOf<M>(displayName: string, data: Json, ops: MatrixOps<M>): Scene<M>
    requires ImportSafe(data)
  {
    SceneFrom(RootName(displayName), ParseSpec(data), ops)
  }

  /** The body of the file loop of `execute`, for a file that was read. */
  method ImportScene<M>(displayName: string, data: Json, ops: MatrixOps<M>) returns (scene: Scene<M>)
    requires ImportSafe(data)
    ensures scene == SceneOf(displayName, data, ops)
  {
    var p := Parse(data);
    var rootName := if displayName == [] then "PlayCanvas_Model" else displayName;
    var world: map<int, M>;
    if p.nodes != [] {
      world := ComputeWorldMatrices(ParentIndices(p.nodes), Locals(p.nodes, ops), ops.mul);
    } else {
      world := map[];
    }
    assert world == WorldOf(p.nodes, ops);
    var nodes := PlaceNodes(p.nodes, world, ops);
    var mm := BuildMaterialMap(p.materials);
    var objects := PlaceInstances(p.instances, p.meshes, world, mm, ops);
    scene := Scene(rootName, nodes, mm, objects);
  }

  /** Each node's empty sits at the conversion applied once to its world matrix, and
      carries the node's name. */
  lemma NodePlacement<M>(rootName: string, p: Parsed, ops: MatrixOps<M>, i: int)
    requires SceneSafe(p) && 0 <= i < |p.nodes|
    requires forall k :: 0 <= k < |p.nodes| ==> p.nodes[k].index == k
    ensures |SceneFrom(rootName, p, ops).nodes| == |p.nodes|
    ensures SceneFrom(rootName, p, ops).nodes[i].name == p.nodes[i].name.s
    ensures SceneFrom(rootName, p, ops).nodes[i].matrix == ops.mul(ops.conv, NodeWorld(p.nodes, ops, i))
  {
    var world := WorldOf(p.nodes, ops);
    assert WorldGet(world, JInt(p.nodes[i].index), ops.identity) == world[i];
  }

  /** With an associative `@`, a child's empty sits at its parent's empty times its own
      local matrix, and a root's at the conversion times its local matrix: the
      conversion is applied once, not once per level. */
  lemma ConversionAppliedOnce<M>(rootName: string, p: Parsed, ops: MatrixOps<M>, i: int)
    requires forall x: M, y: M, z: M :: ops.mul(ops.mul(x, y), z) == ops.mul(x, ops.mul(y, z))
    requires SceneSafe(p) && 0 <= i < |p.nodes|
    requires forall k :: 0 <= k < |p.nodes| ==> p.nodes[k].index == k
    ensures
      var s := SceneFrom(rootName, p, ops);
      var parent := ParentIndex(p.nodes[i].parent);
      var local := ops.local(p.nodes[i].position, p.nodes[i].rotation, p.nodes[i].scale);
      && |s.nodes| == |p.nodes|
      && (parent < 0 ==> s.nodes[i].matrix == ops.mul(ops.conv, local))
      && (parent >= 0 ==> 0 <= parent < |p.nodes| && s.nodes[i].matrix == ops.mul(s.nodes[parent].matrix, local))
  {
    var parents := ParentIndices(p.nodes);
    var locals := Locals(p.nodes, ops);
    var s := SceneFrom(rootName, p, ops);
    NodePlacement(rootName, p, ops, i);
    var parent := parents[i];
    if parent >= 0 {
      ParentCloser(parents, i);
      NodePlacement(rootName, p, ops, parent);
      var w := World(parents, locals, ops.mul, parent);
      calc {
        s.nodes[i].matrix;
        ops.mul(ops.conv, ops.mul(w, locals[i]));
        ops.mul(ops.mul(ops.conv, w), locals[i]);
        ops.mul(s.nodes[parent].matrix, locals[i]);
      }
    }
  }

  /** An object placed for an instance whose node key names node `k` sits exactly where
      node `k`'s empty sits; any other node key places it at the conversion alone. */
  lemma ObjectFollowsNode<M>(rootName: string, p: Parsed, ops: MatrixOps<M>, inst: InstanceRec)
    requires SceneSafe(p) && InstanceSafe(inst, p.meshes)
    requires forall k :: 0 <= k < |p.nodes| ==> p.nodes[k].index == k
    ensures
      var s := SceneFrom(rootName, p, ops);
      var placed := PlaceInstance(inst, p.meshes, WorldOf(p.nodes, ops), s.materials, ops);
      && |s.nodes| == |p.nodes|
      && (placed.Some? && KeyValue(inst.node).Some? && 0 <= KeyValue(inst.node).value < |p.nodes| ==>
            placed.value.matrix == s.nodes[KeyValue(inst.node).value].matrix)
      && (placed.Some? && (KeyValue(inst.node).None? || !(0 <= KeyValue(inst.node).value < |p.nodes|)) ==>
            placed.value.matrix == ops.mul(ops.conv, ops.identity))
  {
    if KeyValue(inst.node).Some? && 0 <= KeyValue(inst.node).value < |p.nodes| {
      NodePlacement(rootName, p, ops, KeyValue(inst.node).value);
    }
  }

  /** An object gets material `k` exactly when its instance's material key is the
      position `k` of a material record. */
  lemma MaterialBinding<M>(rootName: string, p: Parsed, ops: MatrixOps<M>, inst: InstanceRec)
    requires SceneSafe(p) && InstanceSafe(inst, p.meshes)
    requires forall k :: 0 <= k < |p.materials| ==> p.materials[k].index == k
    ensures
      var s := SceneFrom(rootName, p, ops);
      var placed := PlaceInstance(inst, p.meshes, WorldOf(p.nodes, ops), s.materials, ops);
      placed.Some? ==>
        && (placed.value.material.Some? <==> KeyValue(inst.material).Some? && 0 <= KeyValue(inst.material).value < |p.materials|)
        && (placed.value.material.Some? ==> placed.value.material.value == MaterialOf(p.materials[KeyValue(inst.material).value]))
  {
    MaterialMapIndexed(p.materials);
  }

  /** The parser's records are indexed by position, as the lemmas above require. */
  lemma ParsedIndexed(data: Json)
    requires WellShaped(data)
    ensures forall k :: 0 <= k < |ParseSpec(data).nodes| ==> ParseSpec(data).nodes[k].index == k
    ensures forall k :: 0 <= k < |ParseSpec(data).materials| ==> ParseSpec(data).materials[k].index == k
  {
  }

  // ----- the operator -----

  /** A selected file: its name, the name Blender displays for it, and its contents
      when it could be read and decoded. */
  datatype FileEntry = FileEntry(name: string, displayName: string, contents: Option<Json>)

  /** `{'CANCELLED'}` with no file, otherwise `{'FINISHED'}` with the scenes made and
      the names of the files reported as unreadable. */
  datatype Outcome<M> = Cancelled | Finished(scenes: seq<Scene<M>>, failed: seq<string>)

  predicate FilesSafe(files: seq<FileEntry>) {
    forall k :: 0 <= k < |files| && files[k].contents.Some? ==> ImportSafe(files[k].contents.value)
  }

  /** The scenes of the readable files, in order. */
  function Imported<M>(files: seq<FileEntry>, ops: MatrixOps<M>): seq<Scene<M>>
    requires FilesSafe(files)
  {
    if files == [] then []
    else
      var f := files[|files| - 1];
      Imported(files[..|files| - 1], ops)
        + match f.contents case Some(data) => [SceneOf(f.displayName, data, ops)] case None => []
  }

  /** The names of the unreadable files, in order. */
  function Failed(files: seq<FileEntry>): seq<string> {
    if files == [] then []
    else
      var f := files[|files| - 1];
      Failed(files[..|files| - 1]) + if f.contents.None? then [f.name] else []
  }

  /** `execute`: each file is imported or reported, and one failure stops nothing. */
  method Execute<M>(files: seq<FileEntry>, ops: MatrixOps<M>) returns (outcome: Outcome<M>)
    requires FilesSafe(files)
    ensures files == [] <==> outcome.Cancelled?
    ensures files != [] ==> outcome == Finished(Imported(files, ops), Failed(files))
  {
    if files == [] {
      return Cancelled;
    }
    var scenes: seq<Scene<M>> := [];
    var failed: seq<string> := [];
    for i := 0 to |files|
      invariant scenes == Imported(files[..i], ops)
      invariant failed == Failed(files[..i])
    {
      assert files[..i + 1][..i] == files[..i];
      var entry := files[i];
      if entry.contents.None? {
        failed := failed + [entry.name];
        continue;
      }
      var scene := ImportScene(entry.displayName, entry.contents.value, ops);
      scenes := scenes + [scene];
    }
    assert files[..|files|] == files;
    outcome := Finished(scenes, failed);
  }

  /** The results for the first `j` files begin the results for all of them. */
  lemma {:induction false} OutcomePrefix<M>(files: seq<FileEntry>, ops: MatrixOps<M>, j: nat)
    requires FilesSafe(files) && j <= |files|
    ensures FilesSafe(files[..j])
    ensures Imported(files[..j], ops) <= Imported(files, ops)
    ensures Failed(files[..j]) <= Failed(files)
    decreases |files| - j
  {
    if j < |files| {
      OutcomePrefix(files, ops, j + 1);
      assert files[..j + 1][..j] == files[..j];
    } else {
      assert files[..j] == files;
    }
  }

  /** Every file is accounted for once: a readable file's scene is in the imported
      list after those of the readable files before it, an unreadable file's name is
      in the failed list after those of the unreadable files before it, and the two
      lists together are as long as the selection. */
  lemma {:induction false} EveryFileAccounted<M>(files: seq<FileEntry>, ops: MatrixOps<M>, k: nat)
    requires FilesSafe(files) && k < |files|
    ensures FilesSafe(files[..k])
    ensures files[k].contents.Some? ==>
      && |Imported(files[..k], ops)| < |Imported(files, ops)|
      && Imported(files, ops)[|Imported(files[..k], ops)|] == SceneOf(files[k].displayName, files[k].contents.value, ops)
    ensures files[k].contents.None? ==>
      && |Failed(files[..k])| < |Failed(files)|
      && Failed(files)[|Failed(files[..k])|] == files[k].name
    ensures |Imported(files, ops)| + |Failed(files)| == |files|
  {
    OutcomePrefix(files, ops, k + 1);
    var upTo := files[..k + 1];
    assert upTo[..|upTo| - 1] == files[..k] && upTo[|upTo| - 1] == files[k];
    if files[k].contents.Some? {
      assert Imported(upTo, ops) == Imported(files[..k], ops) + [SceneOf(files[k].displayName, files[k].contents.value, ops)];
    } else {
      assert Failed(upTo) == Failed(files[..k]) + [files[k].name];
    }
    FileCount(files, ops);
  }

  lemma {:induction false} FileCount<M>(files: seq<FileEntry>, ops: MatrixOps<M>)
    requires FilesSafe(files)
    ensures |Imported(files, ops)| + |Failed(files)| == |files|
  {
    if files != [] {
      FileCount(files[..|files| - 1], ops);
    }
  }
}
