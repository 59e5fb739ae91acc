# PlayCanvas importer for Blender — a Dafny model

This project models the core of the `io_playcanvas` Blender add-on, which turns a
PlayCanvas JSON scene export into Blender objects. It covers five parts:

- **Parsing** (`parse_playcanvas_data`): a loosely typed document becomes flat node,
  mesh, instance and material records, with a documented default for every missing field.
- **World transforms** (`compute_world_matrices`): each node's world matrix, found
  depth first along integer parent indices and memoised by node index.
- **Mesh building** (`build_mesh_object`): vertices from a flat position array; faces
  from index triples or from consecutive vertex triples, with bad faces skipped; custom
  normals or computed ones; and two UV layers (`assign_uv_layer`).
- **Assembly** (`ImportPlayCanvas.execute`):
  - one root empty per file, and one empty per node at the converted world matrix;
  - a material per material record;
  - one mesh object per instance that names a mesh with positions, with the material
    its key names.

The JSON values are Python's (`json.load` output), with Python's truthiness, `dict.get`,
`or`, `len` and key equality (`1 == 1.0 == True`). Matrices are an abstract type `M`
with a multiplication (`@`), an identity (`Matrix()`), the axis conversion `conv_mat`,
and `make_local_matrix` given as parameters. Blender's objects are represented by the
values the add-on hands to Blender.

Files:

- `json.dfy`: `Wrappers` and `Json`.
- `schema.dfy`: `Schema`, the parser.
- `transform.dfy`: `Transform`, world matrices, including the memo dictionary as a class.
- `mesh.dfy`: `MeshBuild`, vertices, faces and normals.
- `uv.dfy`: `Uv`, UV layers over Blender's polygon/loop layout.
- `mesh_object.dfy`: `MeshObject`, one mesh.
- `assembly.dfy`: `Assembly`, the operator.

Where the Python code raises an exception it does not catch, the model mostly has a
precondition instead. Examples:

- a non-list where a list is read;
- a non-string name;
- an unhashable node or material key on an instance that is placed (a skipped instance never looks its keys up);
- a parent chain that leaves the node list or loops.

These preconditions are `Schema.WellShaped` and `Assembly.ImportSafe`. Three uncaught
exceptions have no precondition and are listed under "Left out": the `NameError` in
`load_texture`, a malformed transform in `make_local_matrix`, and Python's recursion
limit in `calc`. Exceptions the code does catch (a bad face, custom normals Blender
refuses) are modelled as the branch they lead to.

## Model

| member | source | states |
|---|---|---|
| Schema.ModelObjectRule | io_playcanvas/__init__.py:133 | `ModelObject`: the lookups read the `model` field when it is truthy, and otherwise the document itself, also when `model` is present but null, empty or zero |
| Schema.Fallback | io_playcanvas/__init__.py:133-138 | `nodes`, `parents` and `materials` are read from the model object when truthy there, otherwise from the top level when truthy there, otherwise are `[]` |
| Schema.VertexRef | io_playcanvas/__init__.py:154-156 | a mesh reads a vertex buffer only when its `vertices` field is an int (a bool counts) in `[0, len(vertex_buffers))`, and then exactly that buffer |
| Schema.ModelOnlyRule | io_playcanvas/__init__.py:151-152 | `ModelOnly`: `vertices` and `meshes` come from the model object when truthy there and are `[]` otherwise; the top level is never consulted |
| Schema.InstancesValueRule | io_playcanvas/__init__.py:172 | `InstancesValue`: with no `or` after `get`, a present `meshInstances` field is used whatever it holds, even null or empty; only a missing one becomes `[]` |
| Schema.NodeRecord | io_playcanvas/__init__.py:139-148 | a node record keeps its position as index, takes the parent at the same position or -1 past the end of `parents`, names itself `Node_<i>` without a name, and reads nothing from a non-dict node |
| Schema.MeshRecord | io_playcanvas/__init__.py:151-170 | the four channels come from the referenced buffer's `data` fields and are all None without a valid buffer reference; the name defaults to `Mesh_<i>`; `indices` falls back to `triangles` only when falsy |
| Schema.DictInstances | io_playcanvas/__init__.py:172-178 | non-dict instances are dropped and dict instances kept in order: all non-dicts give no records, all dicts give one record each, pointwise |
| Schema.MaterialRecord | io_playcanvas/__init__.py:180-189 | a material record keeps its position as index, names itself `Material_<i>` without a name, and takes the diffuse colour from `diffuse.data` only when `diffuse` is a dict |
| Schema.ParseSpec | io_playcanvas/__init__.py:132-191 | one node record per raw node and one mesh record per raw mesh, at most one instance per raw instance, one material per raw material, nodes and materials indexed by position |
| Schema.ParseNodes | io_playcanvas/__init__.py:139-148 | the node loop appends exactly one `NodeRecord` per raw node, in order |
| Schema.ParseMeshes | io_playcanvas/__init__.py:152-170 | the mesh loop appends exactly one `MeshRecord` per raw mesh, in order |
| Schema.ParseInstances | io_playcanvas/__init__.py:172-178 | the instance loop appends a record for each dict entry and skips every other entry, in order |
| Schema.ParseMaterials | io_playcanvas/__init__.py:180-189 | the material loop appends exactly one `MaterialRecord` per raw material, in order |
| Schema.Parse | io_playcanvas/__init__.py:132-191 | the four append loops of the parser produce exactly the records `ParseSpec` describes |
| Schema.DictInstancesAppend | io_playcanvas/__init__.py:172-178 | instance filtering distributes over concatenation, so a dropped entry leaves the other records in place and order |
| Schema.WrapperTransparent | io_playcanvas/__init__.py:133-138 | a flat document and the same document wrapped as `{"model": ...}` parse to the same records |
| Schema.TopLevelIgnored | io_playcanvas/__init__.py:151-172 | with a model object present, top-level `vertices`, `meshes` and `meshInstances` are never read: replacing them leaves the parse unchanged |
| Transform.World | io_playcanvas/__init__.py:43-48 | the recurrence `calc` computes: a root's world matrix is its local matrix, a child's is its parent's world matrix times its local matrix; it is defined for every node of acyclic parents |
| Transform.ParentCloser | io_playcanvas/__init__.py:44-46 | on acyclic parents, a non-negative parent is in range and strictly closer to a root, so the recursion of `calc` terminates |
| Transform.WorldResolver.constructor | io_playcanvas/__init__.py:38 | the memo starts empty |
| Transform.WorldResolver.Calc | io_playcanvas/__init__.py:39-49 | `calc(i)` returns the world matrix of `i`; it stores exactly `i` and its missing ancestors, never changes a stored entry, and on a stored `i` changes nothing and returns the stored matrix |
| Transform.ComputeWorldMatrices | io_playcanvas/__init__.py:37-52 | the result has exactly one entry per node index; a root's entry is its local matrix; a child's entry is its parent's entry times its local matrix |
| MeshBuild.Group3 | io_playcanvas/__init__.py:72-73 | one vertex per coordinate triple |
| MeshBuild.FlattenGroup3 | io_playcanvas/__init__.py:72-73 | grouping into vertices loses nothing: flattening the vertices gives back the position array |
| MeshBuild.Group3Flatten | io_playcanvas/__init__.py:72-73 | the inverse round trip: grouping a flattened vertex list gives back the vertices |
| MeshBuild.BuildVertices | io_playcanvas/__init__.py:72-74 | the vertex loop with step 3 makes exactly the grouped vertices |
| MeshBuild.VertexAt | io_playcanvas/__init__.py:80 | `bm.verts[v]` succeeds exactly for an int (or bool) in `[-n, n)`, and yields vertex `v mod n`, a negative index counting from the end |
| MeshBuild.Candidate | io_playcanvas/__init__.py:78-82 | triple `k` asks for a face exactly when all three entries exist and are in-range vertices; a short last triple or a bad entry is skipped |
| MeshBuild.BuildFaces | io_playcanvas/__init__.py:76-90 | the two face loops, including the `break` before a partial vertex triple, make exactly the faces of the face rule |
| MeshBuild.FaceRuleValid | io_playcanvas/__init__.py:76-90 | every face has three distinct in-range vertices, no two faces share a vertex set, and there is at most one face per index triple, or per vertex triple |
| MeshBuild.IndexedFacesValid | io_playcanvas/__init__.py:77-82 | the index-triple loop keeps the faces valid and makes at most one face per triple |
| MeshBuild.SequentialFacesValid | io_playcanvas/__init__.py:83-90 | the vertex-triple loop keeps the faces valid |
| MeshBuild.IndexedFacesSound | io_playcanvas/__init__.py:77-82 | every face made from indices is the face some earlier triple asked for |
| MeshBuild.SequentialFacesExact | io_playcanvas/__init__.py:84-90 | without usable indices, face `j` is exactly vertices `3j, 3j+1, 3j+2`, for every complete triple |
| MeshBuild.IndexedFacesExact | io_playcanvas/__init__.py:77-82 | when every triple is a valid face and no two repeat, the faces are exactly the triples in order |
| MeshBuild.SingleTriangle | io_playcanvas/__init__.py:76-90 | three vertices make the one triangle `(0, 1, 2)` both with no indices and with the index list `[0, 1, 2]` |
| MeshBuild.CustomNormals | io_playcanvas/__init__.py:96-103 | custom normals are used exactly when the normals array is non-empty and as long as the positions, and then are its triples, one per vertex |
| Uv.UvLayerMeaning | io_playcanvas/__init__.py:55-64 | `UvLayerOf`, the layer as a value: present exactly when the UV array is non-empty and holds one pair per vertex, then named as asked and holding for every loop its vertex's pair, every read in bounds |
| Uv.AssignUvLayer | io_playcanvas/__init__.py:55-64 | a layer is made exactly when the UV array is non-empty and holds one pair per vertex; each loop then gets its vertex's pair, V flipped, and every read is in bounds |
| Uv.TriangleTopologyWellFormed | io_playcanvas/__init__.py:92 | the mesh written from valid triangles has every loop on an existing vertex and polygons that own the loops in order, the corners of face `k` at loops `3k..3k+2` |
| Uv.TriangleCornerUv | io_playcanvas/__init__.py:59-64 | on a triangle mesh with a well-sized UV array, any layer is present and the three corners of face `k` get the UV pairs of that face's three vertices |
| MeshObject.GeometryMeaning | io_playcanvas/__init__.py:67-112 | the mesh has one vertex per position triple (flattening back to the positions), the valid faces of the face rule, custom normals exactly those of the normals rule, and the `UVMap` and `UV2` layers each present exactly under its own UV guard and equal to the layer `assign_uv_layer` writes on the triangle mesh |
| MeshObject.BuildMeshObject | io_playcanvas/__init__.py:67-112 | the vertex, face and UV loops build exactly the geometry `GeometryOf` describes |
| Assembly.ParentIndex | io_playcanvas/__init__.py:44-45 | an int or bool parent is that index; a negative float is a root |
| Assembly.WorldOf | io_playcanvas/__init__.py:230 | the world dictionary has exactly one entry per node, the node's world matrix, and is empty without nodes |
| Assembly.WorldGet | io_playcanvas/__init__.py:277 | `world_matrices.get(key, Matrix())` finds the entry for a key equal to an int index, otherwise the identity |
| Assembly.PlaceNodes | io_playcanvas/__init__.py:233-238 | the node loop makes one empty per node, in order, named as the node, at the conversion times the looked-up world matrix |
| Assembly.NodePlacement | io_playcanvas/__init__.py:236 | each node's empty is at `conv_mat @` its world matrix |
| Assembly.ConversionAppliedOnce | io_playcanvas/__init__.py:230-238 | with an associative `@`, a child's empty is at its parent's empty times its local matrix and a root's at the conversion times its local matrix, so the conversion is applied once, not once per level |
| Assembly.ShadingOf | io_playcanvas/__init__.py:248-253 | a truthy diffuse map wins; otherwise a truthy colour of length at least 3 gives its first three channels over 255 plus alpha 1; otherwise, and only then, the default |
| Assembly.FlatColorInUnitRange | io_playcanvas/__init__.py:252 | channels in `0..255` give a base colour in `[0, 1]` |
| Assembly.BuildMaterialMap | io_playcanvas/__init__.py:241-255 | the material loop stores each record's material under its index, later records replacing earlier ones |
| Assembly.MaterialMapIndexed | io_playcanvas/__init__.py:255 | with records indexed by position, the map has exactly the keys `0..n-1`, key `k` holding record `k`'s material |
| Assembly.MaterialFor | io_playcanvas/__init__.py:281-282 | an object gets a material exactly when its key equals an int key of the map, and then that material |
| Assembly.MeshSlot | io_playcanvas/__init__.py:263-265 | an instance is skipped for a None, float or too-large mesh index; otherwise it uses that mesh, a negative index counting from the end |
| Assembly.IndexArg | io_playcanvas/__init__.py:77-80 | a list of indices is used as it is; a string or dict keeps its length, but none of its entries is a vertex index |
| Assembly.NormalArg | io_playcanvas/__init__.py:96-101 | only a list of numbers can become custom normals |
| Assembly.PlaceInstanceMeaning | io_playcanvas/__init__.py:258-282 | an instance is placed exactly when it names a mesh with positions; the object is that mesh's geometry under its name, at `conv_mat @` its node's world matrix, with the material its key names |
| Assembly.PlaceInstances | io_playcanvas/__init__.py:258-282 | the instance loop places exactly the objects of the placeable instances, in order |
| Assembly.PlacedObjectsAppend | io_playcanvas/__init__.py:258-267 | placement distributes over concatenation of instance lists |
| Assembly.SkippedKeysUnread | io_playcanvas/__init__.py:259-267 | the node and material keys of a skipped instance are only fetched, never looked up: with any keys, lists and dicts included, it is still accepted and still places nothing |
| Assembly.SkippedInstanceHarmless | io_playcanvas/__init__.py:263-267 | a skipped instance (the two `continue`s) leaves every other object unchanged and in order |
| Assembly.ObjectFollowsNode | io_playcanvas/__init__.py:277 | an object whose node key is node `k` sits exactly where node `k`'s empty sits; any other key places it at the conversion alone |
| Assembly.MaterialBinding | io_playcanvas/__init__.py:281-282 | a placed object gets a material exactly when its material key is the position of a material record, and then that record's material |
| Assembly.ParsedIndexed | io_playcanvas/__init__.py:142 | the parser indexes nodes and materials by position, as the scene lemmas require |
| Assembly.RootName | io_playcanvas/__init__.py:224 | the root is named after the file, or `PlayCanvas_Model` when that name is empty, and is never unnamed |
| Assembly.ImportScene | io_playcanvas/__init__.py:223-282 | the body of the file loop makes exactly the scene `SceneOf` describes: root, node empties, material map and objects |
| Assembly.Execute | io_playcanvas/__init__.py:203-284 | with no file the operator cancels; otherwise it finishes with the scenes of the readable files in order and reports the others by name |
| Assembly.EveryFileAccounted | io_playcanvas/__init__.py:212-221 | file `k` is accounted for exactly once: a readable file's scene follows those of the readable files before it, an unreadable file's name follows those of the unreadable files before it, and the two lists together are as long as the selection |

## Left out

- JSON numbers are modelled as exact `real`s, so floating-point rounding is not modelled, for example of `c/255` (line 252) or `1.0 - v` (line 63). `NaN` and `Infinity`, which `json.load` accepts, have no value in the model: in the code a `NaN` parent is a root (`nan >= 0` is false), and an `Infinity` mesh index is skipped.
- Blender object creation is not modelled: `bpy.data.objects.new`, linking to the collection, parenting to the root, empty display settings, `bm.free`, `mesh.update`. A scene records what would be created.
- `make_local_matrix`, `deg_to_rad_euler` and `conv_mat` are not modelled: they are floating-point trigonometry, so matrices are an abstract type with these as parameters.
- `load_texture` is not modelled, because it reads the file system. A `Shading.TextureMap(path)` stands for the call `load_texture(mat, os.path.join(base_dir, path))` and records only the path, without the directory join; the model does not say what the call does to the material.
- Assembly.Execute: does not model the abort that `load_texture` causes. The function refers to an undefined name, `mat_tree`, at line 120, outside the `try` at line 123. So a truthy `diffuseMap` that names an existing file raises `NameError`, which ends `execute` and leaves the later files unimported. When the file is missing, `load_texture` returns at line 117 and the material keeps Blender's default shading. The model instead finishes with a `TextureMap` material in both cases, because whether the file exists is file-system state it does not take.
- Assembly.ImportSafe: does not exclude a malformed `position`, `rotation` or `scale` (a string position, say), on which `make_local_matrix` raises at lines 31-33. The model takes `make_local_matrix` as the total parameter `ops.local`.
- File reading and `json.load` are not modelled: a file's contents are given as a decoded value or as absent. The text of the exception in the error report is not modelled; `Assembly.Failed` lists the file names only.
- `bpy.path.display_name_from_filepath` is not modelled: it is a parameter of `Assembly.ImportScene`.
- `normals_split_custom_set_from_vertices`, `calc_normals` and `mesh.validate` are not modelled. The model records only whether custom normals are applied and which ones. `validate` may clean the mesh further.
- Operator registration and the import menu (`register`, `unregister`, `menu_func_import`) are not modelled.
- Blender's renaming of duplicate object, mesh and material names (`Name.001`) is not modelled.
- Materials are modelled as values. Two objects that share a Blender material share an equal value.
- bmesh's refusal of faces is modelled by `MeshBuild.Accepts`: a face must have three distinct vertices and must not repeat the vertex set of an existing face.
- Transform.ComputeWorldMatrices: requires parent chains that stay in range and end at a root (`Transform.Acyclic`). The code has no cycle guard: a cycle recurses until Python's recursion limit, and an out-of-range parent raises. It also does not model Python's recursion limit: an acyclic chain some thousand levels deep raises `RecursionError` at line 46, but `Transform.Acyclic` admits it.
- Assembly.NodesSafe: requires string names and parents that are ints, bools or negative floats. A None or string parent raises at `parent_idx >= 0`. It also excludes non-negative float parents, which do not always raise: `calc(0.0)` finds an entry already stored under key `0` at line 40 (for parents `[-1, 0.0]`, say) and composes normally, and raises at `nodes[idx]` only when no such entry exists yet. The model does not follow this dependence on the order in which entries are stored.
- Assembly.MeshBuildSafe: requires that a UV array of exactly the right length hold only numbers, even where no loop reads an entry.
- Assembly.MeshRefSafe: requires a mesh index that is None, an int not below `-len(meshes)`, or a float the length test skips. Any other value raises.
- Assembly.MaterialSafe: requires a string name, a string diffuse map when truthy, and a truthy colour with a length, whose first three entries are numbers when it is read.
- Schema.WellShaped: requires that every collection the parser iterates be a list and every referenced vertex buffer be a dict of dicts. A non-iterable collection or a non-dict buffer raises. Strings and dicts, however, are iterable in Python and do not raise at lines 139, 152, 172 and 180. `"materials": "ab"` gives two default materials, `Material_0` and `Material_1`, and `"meshInstances": {"a": 1}` gives no instances. The model excludes these iteration quirks. It also requires `parents` and `vertices` to be lists when nothing reads them: `parents` is indexed only when there are nodes (line 147), and `len(vertex_buffers)` runs only for a non-negative int `vertices` reference (line 156).
