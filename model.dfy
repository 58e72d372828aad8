/**
 * Meshes of src/model.cpp: a `model_source` flattens an imported scene's meshes into one
 * vertex array and one index array, recording for each mesh where its slices start and
 * how long they are; a `model` copies those arrays and groups its index slices by
 * material. The scene itself (what the importer read) is an input to this model.
 */
module Model {
  import opened Wrappers
  import Paths
  import Pipeline
  import Util

  // ---------------------------------------------------------------- imported scene

  /** Vector components are given as integers; no arithmetic is done on them. */
  datatype Vec2 = Vec2(x: int, y: int)
  datatype Vec3 = Vec3(x: int, y: int, z: int)

  /** An imported mesh: per-vertex positions, normals and (optionally) texture coordinates, its faces and its material. */
  datatype ImportedMesh = ImportedMesh(
    positions: seq<Vec3>, normals: seq<Vec3>, texCoords: Option<seq<Vec2>>,
    faces: seq<seq<nat>>, materialIndex: nat)

  /** The importer fills the normal and texture-coordinate arrays for every vertex. */
  predicate MeshWellFormed(mesh: ImportedMesh)
  {
    |mesh.normals| == |mesh.positions| &&
    (mesh.texCoords.Some? ==> |mesh.texCoords.value| == |mesh.positions|)
  }

  /** A node of the scene graph: the meshes it references and its children. */
  datatype Node = Node(meshes: seq<nat>, children: seq<Node>)

  /** What the importer returns: whether it flagged the scene incomplete, the root node, the meshes and the number of materials. */
  datatype Scene = Scene(incomplete: bool, root: Option<Node>, meshes: seq<ImportedMesh>, materialCount: nat)

  /** The mesh indices a traversal of `process_node` meets: a node's own meshes, then each child's, depth first. */
  function Preorder(node: Node): seq<nat>
    decreases node, 1
  {
    node.meshes + PreorderAll(node.children)
  }

  function PreorderAll(nodes: seq<Node>): seq<nat>
    decreases nodes, 0
  {
    if nodes == [] then [] else PreorderAll(nodes[..|nodes| - 1]) + Preorder(nodes[|nodes| - 1])
  }

  /** Every mesh a node references exists and is well formed. */
  predicate SceneWellFormed(scene: Scene)
  {
    forall i :: 0 <= i < |scene.meshes| ==> MeshWellFormed(scene.meshes[i])
  }

  // ---------------------------------------------------------------- vertices, faces, meshes

  /** `model::vertex`. */
  datatype Vertex = Vertex(position: Vec3, normal: Vec3, uv: Vec2)

  /** The vertex `process_mesh` builds for vertex i: uv (0, 0) when the mesh has no texture coordinates. */
  function VertexAt(mesh: ImportedMesh, i: nat): (v: Vertex)
    requires MeshWellFormed(mesh) && i < |mesh.positions|
    ensures v.position == mesh.positions[i] && v.normal == mesh.normals[i]
    ensures mesh.texCoords.None? ==> v.uv == Vec2(0, 0)
    ensures mesh.texCoords.Some? ==> v.uv == mesh.texCoords.value[i]
  {
    Vertex(mesh.positions[i], mesh.normals[i], if mesh.texCoords.Some? then mesh.texCoords.value[i] else Vec2(0, 0))
  }

  /** Every face is a triangle. */
  predicate Triangulated(faces: seq<seq<nat>>)
  {
    forall i :: 0 <= i < |faces| ==> |faces[i]| == 3
  }

  /** The indices of the faces, face after face. */
  function FaceIndices(faces: seq<seq<nat>>): seq<nat>
  {
    if faces == [] then [] else FaceIndices(faces[..|faces| - 1]) + faces[|faces| - 1]
  }

  /** Triangles give three indices each, and face f's indices start at 3f. */
  lemma {:induction false} FaceIndicesOfTriangles(faces: seq<seq<nat>>)
    requires Triangulated(faces)
    ensures |FaceIndices(faces)| == 3 * |faces|
    ensures forall f, j :: 0 <= f < |faces| && 0 <= j < 3 ==> FaceIndices(faces)[3 * f + j] == faces[f][j]
  {
    if faces != [] {
      var prefix := faces[..|faces| - 1];
      assert Triangulated(prefix);
      FaceIndicesOfTriangles(prefix);
      forall f, j | 0 <= f < |faces| && 0 <= j < 3
        ensures FaceIndices(faces)[3 * f + j] == faces[f][j]
      {
        if f < |faces| - 1 {
          assert faces[f] == prefix[f];
        }
      }
    }
  }

  /** The vertices `process_mesh` appends for a mesh, vertex after vertex. */
  function MeshVertices(mesh: ImportedMesh): (vs: seq<Vertex>)
    requires MeshWellFormed(mesh)
    ensures |vs| == |mesh.positions|
    ensures forall i :: 0 <= i < |vs| ==> vs[i] == VertexAt(mesh, i)
  {
    seq(|mesh.positions|, i requires 0 <= i < |mesh.positions| => VertexAt(mesh, i))
  }

  /** `model_source::mesh`: where its vertices and indices lie in the flattened arrays, and its material. */
  datatype Mesh = Mesh(vertexOffset: nat, vertexCount: nat, indexOffset: nat, indexCount: nat, materialIndex: nat)

  /** The meshes tile the arrays: each one starts where the previous ended, and the last ends at the totals. */
  predicate Tiled(meshes: seq<Mesh>, vertexTotal: nat, indexTotal: nat)
  {
    if meshes == [] then vertexTotal == 0 && indexTotal == 0
    else
      var last := meshes[|meshes| - 1];
      last.vertexOffset + last.vertexCount == vertexTotal &&
      last.indexOffset + last.indexCount == indexTotal &&
      Tiled(meshes[..|meshes| - 1], last.vertexOffset, last.indexOffset)
  }

  /** In a tiling, every mesh's slices lie inside the arrays. */
  lemma {:induction false} TiledSlicesInside(meshes: seq<Mesh>, vertexTotal: nat, indexTotal: nat)
    requires Tiled(meshes, vertexTotal, indexTotal)
    ensures forall i :: 0 <= i < |meshes| ==>
      meshes[i].vertexOffset + meshes[i].vertexCount <= vertexTotal && meshes[i].indexOffset + meshes[i].indexCount <= indexTotal
  {
    if meshes != [] {
      var last := meshes[|meshes| - 1];
      var prefix := meshes[..|meshes| - 1];
      TiledSlicesInside(prefix, last.vertexOffset, last.indexOffset);
      forall i | 0 <= i < |meshes| - 1
        ensures meshes[i].indexOffset + meshes[i].indexCount <= indexTotal
      {
        assert meshes[i] == prefix[i];
      }
    }
  }

  // ---------------------------------------------------------------- model_source

  /** `model_source`. Materials are given by their index in the scene's material list. */
  class ModelSource {
    var path: string
    var vertices: seq<Vertex>
    var indices: seq<nat>
    var meshes: seq<Mesh>
    var materials: seq<nat>
    /** `m_created_models`. */
    var createdModels: set<Model>

    /** The meshes tile the arrays, and every created model refers back to this source. */
    predicate Valid()
      reads this, createdModels
    {
      Tiled(meshes, |vertices|, |indices|) &&
      forall m :: m in createdModels ==> m.source == this
    }

    /**
     * The constructor before its `reload`: a relative path is made absolute against the
     * working directory.
     */
    constructor (path: string, workingDirectory: string)
      ensures Paths.IsAbsolute(path) ==> this.path == path
      ensures !Paths.IsAbsolute(path) ==> this.path == Paths.Join(workingDirectory, path)
      ensures vertices == [] && indices == [] && meshes == [] && materials == [] && createdModels == {}
      ensures Valid()
    {
      this.path := if Paths.IsAbsolute(path) then path else Paths.Join(workingDirectory, path);
      vertices := [];
      indices := [];
      meshes := [];
      materials := [];
      createdModels := {};
    }

    /** `get_resource_path`: a relative path is taken relative to the model file's directory. */
    function ResourcePath(resource: string): (r: string)
      reads this
      ensures Paths.IsAbsolute(resource) ==> r == resource
      ensures !Paths.IsAbsolute(resource) ==> r == Paths.Join(Paths.ParentPath(path), resource)
    {
      if Paths.IsAbsolute(resource) then resource else Paths.Join(Paths.ParentPath(path), resource)
    }

    /**
     * `process_mesh`: a mesh with a face that is not a triangle is refused and nothing is
     * appended; otherwise its vertices and face indices are appended and a mesh recording
     * where they start is added.
     */
    method ProcessMesh(mesh: ImportedMesh) returns (r: Result<()>)
      requires MeshWellFormed(mesh)
      modifies this
      ensures r.Ok? <==> Triangulated(mesh.faces)
      ensures r.Ok? ==> |vertices| == |old(vertices)| + |mesh.positions| && vertices[..|old(vertices)|] == old(vertices)
      ensures r.Ok? ==> forall i :: 0 <= i < |mesh.positions| ==> vertices[|old(vertices)| + i] == VertexAt(mesh, i)
      ensures r.Ok? ==> vertices == old(vertices) + MeshVertices(mesh)
      ensures r.Ok? ==> indices == old(indices) + FaceIndices(mesh.faces)
      ensures r.Ok? ==> meshes == old(meshes) + [Mesh(|old(vertices)|, |mesh.positions|, |old(indices)|, |FaceIndices(mesh.faces)|, mesh.materialIndex)]
      ensures !r.Ok? ==> vertices == old(vertices) && indices == old(indices) && meshes == old(meshes)
      ensures Tiled(old(meshes), |old(vertices)|, |old(indices)|) ==> Tiled(meshes, |vertices|, |indices|)
      ensures path == old(path) && materials == old(materials) && createdModels == old(createdModels)
    {
      var meshVertices: seq<Vertex> := [];
      for i := 0 to |mesh.positions|
        invariant |meshVertices| == i
        invariant forall j :: 0 <= j < i ==> meshVertices[j] == VertexAt(mesh, j)
      {
        var uv := Vec2(0, 0);
        if mesh.texCoords.Some? {
          uv := mesh.texCoords.value[i];
        }
        meshVertices := meshVertices + [Vertex(mesh.positions[i], mesh.normals[i], uv)];
      }
      assert meshVertices == MeshVertices(mesh);
      var meshIndices: seq<nat> := [];
      for i := 0 to |mesh.faces|
        invariant Triangulated(mesh.faces[..i])
        invariant meshIndices == FaceIndices(mesh.faces[..i])
      {
        var face := mesh.faces[i];
        if |face| != 3 {
          return Err("primitives other than triangles are not supported!");
        }
        assert mesh.faces[..i + 1][..i] == mesh.faces[..i];
        meshIndices := meshIndices + face;
      }
      assert mesh.faces[..|mesh.faces|] == mesh.faces;
      var added := Mesh(|vertices|, |meshVertices|, |indices|, |meshIndices|, mesh.materialIndex);
      assert (meshes + [added])[..|meshes|] == meshes;
      meshes := meshes + [added];
      vertices := vertices + meshVertices;
      indices := indices + meshIndices;
      r := Ok(());
    }

    /** `process_node`: the node's meshes in order, then its children depth first; the first refused mesh stops the walk. */
    method ProcessNode(scene: Scene, node: Node) returns (r: Result<()>)
      requires SceneWellFormed(scene) && InBounds(scene, Preorder(node))
      modifies this
      ensures r.Ok? <==> AllTriangulated(scene, Preorder(node))
      ensures |meshes| >= |old(meshes)| && meshes[..|old(meshes)|] == old(meshes)
      ensures r.Ok? ==> MaterialsOf(scene, Preorder(node), meshes[|old(meshes)|..])
      ensures r.Ok? ==> vertices == old(vertices) + VerticesOf(scene, Preorder(node))
      ensures r.Ok? ==> indices == old(indices) + IndicesOf(scene, Preorder(node))
      ensures Tiled(old(meshes), |old(vertices)|, |old(indices)|) ==> Tiled(meshes, |vertices|, |indices|)
      ensures path == old(path) && materials == old(materials) && createdModels == old(createdModels)
      decreases node, 1
    {
      ghost var start := |meshes|;
      ConcatInBounds(scene, node.meshes, PreorderAll(node.children));
      ConcatTriangulated(scene, node.meshes, PreorderAll(node.children));
      r := ProcessMeshes(scene, node.meshes);
      if r.Err? {
        return;
      }
      ghost var middle, verticesMiddle, indicesMiddle := meshes, vertices, indices;
      r := ProcessNodes(scene, node.children);
      ExtendedTail(old(meshes), middle, meshes, start);
      ConcatMaterials(scene, node.meshes, PreorderAll(node.children), middle[start..], meshes[|middle|..]);
      if r.Ok? {
        ConcatContents(scene, node.meshes, PreorderAll(node.children));
        Util.AppendTwice(old(vertices), verticesMiddle, vertices,
          VerticesOf(scene, node.meshes), VerticesOf(scene, PreorderAll(node.children)));
        Util.AppendTwice(old(indices), indicesMiddle, indices,
          IndicesOf(scene, node.meshes), IndicesOf(scene, PreorderAll(node.children)));
      }
    }

    /** The first loop of `process_node`: the node's own meshes, in order, stopping at the first refused one. */
    method ProcessMeshes(scene: Scene, ids: seq<nat>) returns (r: Result<()>)
      requires SceneWellFormed(scene) && InBounds(scene, ids)
      modifies this
      ensures r.Ok? <==> AllTriangulated(scene, ids)
      ensures |meshes| >= |old(meshes)| && meshes[..|old(meshes)|] == old(meshes)
      ensures r.Ok? ==> MaterialsOf(scene, ids, meshes[|old(meshes)|..])
      ensures r.Ok? ==> vertices == old(vertices) + VerticesOf(scene, ids)
      ensures r.Ok? ==> indices == old(indices) + IndicesOf(scene, ids)
      ensures Tiled(old(meshes), |old(vertices)|, |old(indices)|) ==> Tiled(meshes, |vertices|, |indices|)
      ensures path == old(path) && materials == old(materials) && createdModels == old(createdModels)
    {
      ghost var start := |meshes|;
      r := Ok(());
      for i := 0 to |ids|
        invariant r.Ok? && |meshes| == start + i && meshes[..start] == old(meshes)
        invariant InBounds(scene, ids[..i]) && AllTriangulated(scene, ids[..i])
        invariant MaterialsOf(scene, ids[..i], meshes[start..])
        invariant vertices == old(vertices) + VerticesOf(scene, ids[..i])
        invariant indices == old(indices) + IndicesOf(scene, ids[..i])
        invariant Tiled(old(meshes), |old(vertices)|, |old(indices)|) ==> Tiled(meshes, |vertices|, |indices|)
        invariant path == old(path) && materials == old(materials) && createdModels == old(createdModels)
      {
        ghost var before, verticesBefore, indicesBefore := meshes, vertices, indices;
        r := ProcessMesh(scene.meshes[ids[i]]);
        if r.Err? {
          assert !Triangulated(scene.meshes[ids[i]].faces);
          return;
        }
        Util.PrefixStep(ids, i);
        ExtendedTail(old(meshes), before, meshes, start);
        assert meshes[|before|..] == [meshes[|meshes| - 1]];
        ConcatTriangulated(scene, ids[..i], [ids[i]]);
        ConcatMaterials(scene, ids[..i], [ids[i]], before[start..], meshes[|before|..]);
        assert ids[..i + 1][..i] == ids[..i];
        Util.AppendTwice(old(vertices), verticesBefore, vertices,
          VerticesOf(scene, ids[..i]), MeshVertices(scene.meshes[ids[i]]));
        Util.AppendTwice(old(indices), indicesBefore, indices,
          IndicesOf(scene, ids[..i]), FaceIndices(scene.meshes[ids[i]].faces));
      }
      assert ids[..|ids|] == ids;
    }

    /**
     * `reload`: the four collections are cleared; a missing or incomplete scene, or one
     * without a root node, is an error; otherwise one material per scene material is made,
     * the meshes are gathered from the root, and every model created from this source
     * takes the new data and rebuilds its index map.
     */
    method Reload(scene: Option<Scene>) returns (r: Result<()>)
      requires Valid()
      requires scene.Some? && scene.value.root.Some? ==> SceneWellFormed(scene.value) && InBounds(scene.value, Preorder(scene.value.root.value))
      modifies this, createdModels
      ensures Valid() && path == old(path) && createdModels == old(createdModels)
      ensures (scene.None? || scene.value.incomplete || scene.value.root.None?) ==>
        r.Err? && vertices == [] && indices == [] && meshes == [] && materials == []
      ensures r.Ok? <==> (scene.Some? && !scene.value.incomplete && scene.value.root.Some? &&
                          AllTriangulated(scene.value, Preorder(scene.value.root.value)))
      ensures r.Ok? ==> |materials| == scene.value.materialCount && MaterialsOf(scene.value, Preorder(scene.value.root.value), meshes)
      ensures r.Ok? ==> vertices == VerticesOf(scene.value, Preorder(scene.value.root.value)) &&
                        indices == IndicesOf(scene.value, Preorder(scene.value.root.value))
      ensures r.Ok? ==> forall m :: m in createdModels ==>
        m.vertices == vertices && m.indices == indices && m.materials == materials && Copied(meshes, m.meshes) &&
        RangesInside(m.meshes, |m.indices|) && m.indexMap == IndexMap(m.meshes, m.indices)
    {
      vertices := [];
      indices := [];
      meshes := [];
      materials := [];
      if scene.None? || scene.value.incomplete || scene.value.root.None? {
        return Err("could not load model: ");
      }
      var imported := scene.value;
      materials := seq(imported.materialCount, i => i);
      r := ProcessNode(imported, imported.root.value);
      if r.Err? {
        return;
      }
      assert meshes[0..] == meshes;
      RefreshModels();
    }

    /** The loop of `reload` over the models created from this source. */
    method RefreshModels()
      requires Valid()
      modifies createdModels
      ensures Valid()
      ensures forall m :: m in createdModels ==>
        m.vertices == vertices && m.indices == indices && m.materials == materials && Copied(meshes, m.meshes) &&
        RangesInside(m.meshes, |m.indices|) && m.indexMap == IndexMap(m.meshes, m.indices)
    {
      var remaining := createdModels;
      while remaining != {}
        invariant remaining <= createdModels
        invariant Valid()
        invariant forall m :: m in createdModels - remaining ==>
          m.vertices == vertices && m.indices == indices && m.materials == materials && Copied(meshes, m.meshes) &&
          RangesInside(m.meshes, |m.indices|) && m.indexMap == IndexMap(m.meshes, m.indices)
        decreases remaining
      {
        var m :| m in remaining;
        m.AcquireMeshData();
        CopiedInside(meshes, m.meshes, |vertices|, |indices|);
        m.AssembleIndexMap();
        remaining := remaining - {m};
      }
    }

    /** The child loop of `process_node`. */
    method ProcessNodes(scene: Scene, nodes: seq<Node>) returns (r: Result<()>)
      requires SceneWellFormed(scene) && InBounds(scene, PreorderAll(nodes))
      modifies this
      ensures r.Ok? <==> AllTriangulated(scene, PreorderAll(nodes))
      ensures |meshes| >= |old(meshes)| && meshes[..|old(meshes)|] == old(meshes)
      ensures r.Ok? ==> MaterialsOf(scene, PreorderAll(nodes), meshes[|old(meshes)|..])
      ensures r.Ok? ==> vertices == old(vertices) + VerticesOf(scene, PreorderAll(nodes))
      ensures r.Ok? ==> indices == old(indices) + IndicesOf(scene, PreorderAll(nodes))
      ensures Tiled(old(meshes), |old(vertices)|, |old(indices)|) ==> Tiled(meshes, |vertices|, |indices|)
      ensures path == old(path) && materials == old(materials) && createdModels == old(createdModels)
      decreases nodes, 0
    {
      ghost var start := |meshes|;
      r := Ok(());
      for i := 0 to |nodes|
        invariant r.Ok? && |meshes| >= start && meshes[..start] == old(meshes)
        invariant InBounds(scene, PreorderAll(nodes[..i])) && AllTriangulated(scene, PreorderAll(nodes[..i]))
        invariant MaterialsOf(scene, PreorderAll(nodes[..i]), meshes[start..])
        invariant vertices == old(vertices) + VerticesOf(scene, PreorderAll(nodes[..i]))
        invariant indices == old(indices) + IndicesOf(scene, PreorderAll(nodes[..i]))
        invariant Tiled(old(meshes), |old(vertices)|, |old(indices)|) ==> Tiled(meshes, |vertices|, |indices|)
        invariant path == old(path) && materials == old(materials) && createdModels == old(createdModels)
      {
        NodesPrefix(scene, nodes, i);
        ghost var before, verticesBefore, indicesBefore := meshes, vertices, indices;
        r := ProcessNode(scene, nodes[i]);
        ConcatTriangulated(scene, PreorderAll(nodes[..i]), Preorder(nodes[i]));
        if r.Err? {
          return;
        }
        ExtendedTail(old(meshes), before, meshes, start);
        ConcatMaterials(scene, PreorderAll(nodes[..i]), Preorder(nodes[i]), before[start..], meshes[|before|..]);
        ConcatContents(scene, PreorderAll(nodes[..i]), Preorder(nodes[i]));
        Util.AppendTwice(old(vertices), verticesBefore, vertices,
          VerticesOf(scene, PreorderAll(nodes[..i])), VerticesOf(scene, Preorder(nodes[i])));
        Util.AppendTwice(old(indices), indicesBefore, indices,
          IndicesOf(scene, PreorderAll(nodes[..i])), IndicesOf(scene, Preorder(nodes[i])));
      }
      assert nodes[..|nodes|] == nodes;
    }
  }

  /** The traversal of the first `i + 1` children, against that of the first `i` and that of all of them. */
  lemma NodesPrefix(scene: Scene, nodes: seq<Node>, i: nat)
    requires i < |nodes| && InBounds(scene, PreorderAll(nodes))
    ensures PreorderAll(nodes[..i + 1]) == PreorderAll(nodes[..i]) + Preorder(nodes[i])
    ensures InBounds(scene, PreorderAll(nodes[..i])) && InBounds(scene, Preorder(nodes[i]))
    ensures InBounds(scene, PreorderAll(nodes[..i + 1]))
    ensures AllTriangulated(scene, PreorderAll(nodes)) ==> AllTriangulated(scene, PreorderAll(nodes[..i + 1]))
  {
    PreorderAllPrefix(nodes, i);
    PreorderAllPrefixOf(nodes, i + 1);
    var done := PreorderAll(nodes[..i + 1]);
    var rest := PreorderAll(nodes)[|done|..];
    assert PreorderAll(nodes) == done + rest;
    ConcatInBounds(scene, done, rest);
    ConcatInBounds(scene, PreorderAll(nodes[..i]), Preorder(nodes[i]));
    ConcatTriangulated(scene, done, rest);
  }

  /** A sequence that extends `before`, which extends `original` at `start`, splits after `before`. */
  lemma ExtendedTail<T>(original: seq<T>, before: seq<T>, after: seq<T>, start: nat)
    requires start == |original| <= |before| <= |after|
    requires before[..start] == original && after[..|before|] == before
    ensures after[..start] == original
    ensures after[start..] == before[start..] + after[|before|..]
  {
    assert after[..start] == after[..|before|][..start];
    assert after[start..|before|] == before[start..];
    assert after[start..] == after[start..|before|] + after[|before|..];
  }

  /** Every mesh index of a traversal names a mesh of the scene. */
  predicate InBounds(scene: Scene, order: seq<nat>)
  {
    forall k :: 0 <= k < |order| ==> order[k] < |scene.meshes|
  }

  /** Every mesh of a traversal is made of triangles. */
  predicate AllTriangulated(scene: Scene, order: seq<nat>)
    requires InBounds(scene, order)
  {
    forall k :: 0 <= k < |order| ==> Triangulated(scene.meshes[order[k]].faces)
  }

  /** The meshes added for a traversal are one per visited mesh, each with that mesh's material. */
  predicate MaterialsOf(scene: Scene, order: seq<nat>, added: seq<Mesh>)
    requires InBounds(scene, order)
  {
    |added| == |order| && forall k :: 0 <= k < |order| ==> added[k].materialIndex == scene.meshes[order[k]].materialIndex
  }

  /** The vertices a traversal appends: each visited mesh's vertices, in visiting order. */
  function VerticesOf(scene: Scene, order: seq<nat>): seq<Vertex>
    requires SceneWellFormed(scene) && InBounds(scene, order)
  {
    if order == [] then []
    else VerticesOf(scene, order[..|order| - 1]) + MeshVertices(scene.meshes[order[|order| - 1]])
  }

  /** The indices a traversal appends: each visited mesh's face indices, in visiting order. */
  function IndicesOf(scene: Scene, order: seq<nat>): seq<nat>
    requires InBounds(scene, order)
  {
    if order == [] then []
    else IndicesOf(scene, order[..|order| - 1]) + FaceIndices(scene.meshes[order[|order| - 1]].faces)
  }

  /** The appended vertices and indices split over a concatenation of traversals. */
  lemma {:induction false} ConcatContents(scene: Scene, a: seq<nat>, b: seq<nat>)
    requires SceneWellFormed(scene) && InBounds(scene, a) && InBounds(scene, b)
    ensures InBounds(scene, a + b)
    ensures VerticesOf(scene, a + b) == VerticesOf(scene, a) + VerticesOf(scene, b)
    ensures IndicesOf(scene, a + b) == IndicesOf(scene, a) + IndicesOf(scene, b)
  {
    ConcatVertices(scene, a, b);
    ConcatIndices(scene, a, b);
  }

  /** The vertex half of `ConcatContents`, by induction on the second traversal. */
  lemma {:induction false} ConcatVertices(scene: Scene, a: seq<nat>, b: seq<nat>)
    requires SceneWellFormed(scene) && InBounds(scene, a) && InBounds(scene, b)
    ensures InBounds(scene, a + b)
    ensures VerticesOf(scene, a + b) == VerticesOf(scene, a) + VerticesOf(scene, b)
    decreases |b|
  {
    ConcatInBounds(scene, a, b);
    if b != [] {
      var front, last := b[..|b| - 1], b[|b| - 1];
      ConcatInBounds(scene, front, [last]);
      ConcatVertices(scene, a, front);
      assert (a + b)[..|a + b| - 1] == a + front;
      assert (a + b)[|a + b| - 1] == last;
      calc {
        VerticesOf(scene, a + b);
        VerticesOf(scene, a + front) + MeshVertices(scene.meshes[last]);
        VerticesOf(scene, a) + (VerticesOf(scene, front) + MeshVertices(scene.meshes[last]));
      }
    } else {
      assert a + b == a;
    }
  }

  /** The index half of `ConcatContents`, by induction on the second traversal. */
  lemma {:induction false} ConcatIndices(scene: Scene, a: seq<nat>, b: seq<nat>)
    requires InBounds(scene, a) && InBounds(scene, b)
    ensures InBounds(scene, a + b)
    ensures IndicesOf(scene, a + b) == IndicesOf(scene, a) + IndicesOf(scene, b)
    decreases |b|
  {
    ConcatInBounds(scene, a, b);
    if b != [] {
      var front, last := b[..|b| - 1], b[|b| - 1];
      ConcatInBounds(scene, front, [last]);
      ConcatIndices(scene, a, front);
      assert (a + b)[..|a + b| - 1] == a + front;
      assert (a + b)[|a + b| - 1] == last;
      calc {
        IndicesOf(scene, a + b);
        IndicesOf(scene, a + front) + FaceIndices(scene.meshes[last].faces);
        IndicesOf(scene, a) + (IndicesOf(scene, front) + FaceIndices(scene.meshes[last].faces));
      }
    } else {
      assert a + b == a;
    }
  }

  /** Bounds split over a concatenation. */
  lemma ConcatInBounds(scene: Scene, a: seq<nat>, b: seq<nat>)
    ensures InBounds(scene, a + b) <==> InBounds(scene, a) && InBounds(scene, b)
  {
    if InBounds(scene, a + b) {
      forall k | 0 <= k < |a|
        ensures a[k] < |scene.meshes|
      {
        assert (a + b)[k] == a[k];
      }
      forall k | 0 <= k < |b|
        ensures b[k] < |scene.meshes|
      {
        assert (a + b)[|a| + k] == b[k];
      }
    }
  }

  /** Triangulation split over a concatenation. */
  lemma ConcatTriangulated(scene: Scene, a: seq<nat>, b: seq<nat>)
    requires InBounds(scene, a) && InBounds(scene, b)
    ensures InBounds(scene, a + b)
    ensures AllTriangulated(scene, a + b) <==> AllTriangulated(scene, a) && AllTriangulated(scene, b)
  {
    ConcatInBounds(scene, a, b);
    if AllTriangulated(scene, a) && AllTriangulated(scene, b) {
      forall k | 0 <= k < |a + b|
        ensures Triangulated(scene.meshes[(a + b)[k]].faces)
      {
        if k >= |a| {
          assert (a + b)[k] == b[k - |a|];
        } else {
          assert (a + b)[k] == a[k];
        }
      }
    }
    if AllTriangulated(scene, a + b) {
      forall k | 0 <= k < |a|
        ensures Triangulated(scene.meshes[a[k]].faces)
      {
        assert (a + b)[k] == a[k];
      }
      forall k | 0 <= k < |b|
        ensures Triangulated(scene.meshes[b[k]].faces)
      {
        assert (a + b)[|a| + k] == b[k];
      }
    }
  }

  /** Materials split over a concatenation. */
  lemma ConcatMaterials(scene: Scene, a: seq<nat>, b: seq<nat>, x: seq<Mesh>, y: seq<Mesh>)
    requires InBounds(scene, a) && InBounds(scene, b) && |x| == |a|
    ensures InBounds(scene, a + b)
    ensures MaterialsOf(scene, a + b, x + y) <==> MaterialsOf(scene, a, x) && MaterialsOf(scene, b, y)
  {
    ConcatInBounds(scene, a, b);
    if MaterialsOf(scene, a, x) && MaterialsOf(scene, b, y) {
      forall k | 0 <= k < |a + b|
        ensures (x + y)[k].materialIndex == scene.meshes[(a + b)[k]].materialIndex
      {
        if k >= |a| {
          assert (a + b)[k] == b[k - |a|];
          assert (x + y)[k] == y[k - |a|];
        } else {
          assert (a + b)[k] == a[k];
          assert (x + y)[k] == x[k];
        }
      }
    }
    if MaterialsOf(scene, a + b, x + y) {
      forall k | 0 <= k < |a|
        ensures x[k].materialIndex == scene.meshes[a[k]].materialIndex
      {
        assert (a + b)[k] == a[k];
        assert (x + y)[k] == x[k];
      }
      forall k | 0 <= k < |b|
        ensures y[k].materialIndex == scene.meshes[b[k]].materialIndex
      {
        assert (a + b)[|a| + k] == b[k];
        assert (x + y)[|a| + k] == y[k];
      }
    }
  }

  /** Unfolding `PreorderAll` one node further, and bounds of the pieces. */
  lemma PreorderAllPrefix(nodes: seq<Node>, i: nat)
    requires i < |nodes|
    ensures PreorderAll(nodes[..i + 1]) == PreorderAll(nodes[..i]) + Preorder(nodes[i])
  {
    assert nodes[..i + 1][..i] == nodes[..i];
  }

  /** The traversal of a prefix of the children is a prefix of the traversal of all of them. */
  lemma {:induction false} PreorderAllPrefixOf(nodes: seq<Node>, j: nat)
    requires j <= |nodes|
    ensures PreorderAll(nodes[..j]) <= PreorderAll(nodes)
  {
    if j < |nodes| {
      var front := nodes[..|nodes| - 1];
      PreorderAllPrefixOf(front, j);
      assert front[..j] == nodes[..j];
    } else {
      assert nodes[..j] == nodes;
    }
  }

  // ---------------------------------------------------------------- model

  /** The per-mesh data a `model` keeps: only where its indices lie and its material. */
  datatype MeshRange = MeshRange(indexOffset: nat, indexCount: nat, materialIndex: nat)

  /** `set_input_layout`: position, normal and uv of the vertex structure. */
  function VertexInputLayout(): (layout: Pipeline.InputLayout)
    ensures |layout.attributes| == 3
    ensures layout.attributes[0].attributeType == Pipeline.Vec3 && layout.attributes[1].attributeType == Pipeline.Vec3
    ensures layout.attributes[2].attributeType == Pipeline.Vec2
  {
    Pipeline.InputLayout(32, [Pipeline.Attribute(Pipeline.Vec3, 0), Pipeline.Attribute(Pipeline.Vec3, 12), Pipeline.Attribute(Pipeline.Vec2, 24)])
  }

  /**
   * The layout matches the packed vertex structure: position starts the vertex, each
   * attribute starts where the previous one ends, and the stride is the end of the last.
   */
  lemma VertexInputLayoutPacked()
    ensures VertexInputLayout().attributes[0].offset == 0
    ensures forall i :: 0 <= i < 2 ==>
      VertexInputLayout().attributes[i + 1].offset ==
        VertexInputLayout().attributes[i].offset + Pipeline.AttributeSize(VertexInputLayout().attributes[i].attributeType)
    ensures VertexInputLayout().stride == VertexInputLayout().attributes[2].offset + Pipeline.AttributeSize(Pipeline.Vec2)
  {
  }

  /** A texture named relative to a model file is looked up in the model file's directory. */
  lemma ResourceBesideModel(source: ModelSource, dir: string, name: string, relative: string)
    requires source.path == dir + "/" + name
    requires dir != [] && dir[|dir| - 1] != '/' && '/' !in name && !Paths.IsAbsolute(relative)
    ensures source.ResourcePath(relative) == dir + "/" + relative
  {
    Paths.ParentOfChild(dir, name, relative);
  }

  /** Every mesh's index slice lies inside the index array. */
  predicate RangesInside(meshes: seq<MeshRange>, indexTotal: nat)
  {
    forall i :: 0 <= i < |meshes| ==> meshes[i].indexOffset + meshes[i].indexCount <= indexTotal
  }

  function Slice(indices: seq<nat>, mesh: MeshRange): seq<nat>
    requires mesh.indexOffset + mesh.indexCount <= |indices|
  {
    indices[mesh.indexOffset..mesh.indexOffset + mesh.indexCount]
  }

  /** The index map `assemble_index_map` builds: mesh after mesh, its slice goes in front of its material's list. */
  function IndexMap(meshes: seq<MeshRange>, indices: seq<nat>): map<nat, seq<nat>>
    requires RangesInside(meshes, |indices|)
  {
    if meshes == [] then map[]
    else
      var before := IndexMap(meshes[..|meshes| - 1], indices);
      var last := meshes[|meshes| - 1];
      before[last.materialIndex := Slice(indices, last) + (if last.materialIndex in before then before[last.materialIndex] else [])]
  }

  /** The list for a material, read from the last mesh back to the first: each mesh of that material contributes its slice. */
  function LaterFirst(meshes: seq<MeshRange>, indices: seq<nat>, material: nat): seq<nat>
    requires RangesInside(meshes, |indices|)
  {
    if meshes == [] then []
    else LaterFirst(meshes[1..], indices, material) + (if meshes[0].materialIndex == material then Slice(indices, meshes[0]) else [])
  }

  /** The total index count of the meshes of one material. */
  function CountFor(meshes: seq<MeshRange>, material: nat): nat
  {
    if meshes == [] then 0
    else (if meshes[0].materialIndex == material then meshes[0].indexCount else 0) + CountFor(meshes[1..], material)
  }

  lemma {:induction false} LaterFirstAppend(meshes: seq<MeshRange>, mesh: MeshRange, indices: seq<nat>, material: nat)
    requires RangesInside(meshes + [mesh], |indices|) && mesh.indexOffset + mesh.indexCount <= |indices|
    ensures RangesInside(meshes, |indices|)
    ensures LaterFirst(meshes + [mesh], indices, material) ==
      (if mesh.materialIndex == material then Slice(indices, mesh) else []) + LaterFirst(meshes, indices, material)
  {
    var all := meshes + [mesh];
    assert forall i :: 0 <= i < |meshes| ==> meshes[i] == all[i];
    var own := if mesh.materialIndex == material then Slice(indices, mesh) else [];
    if meshes != [] {
      var tail := meshes[1..];
      assert all[1..] == tail + [mesh] && all[0] == meshes[0];
      assert RangesInside(tail + [mesh], |indices|) by {
        assert forall i :: 0 <= i < |tail| + 1 ==> (tail + [mesh])[i] == all[i + 1];
      }
      LaterFirstAppend(tail, mesh, indices, material);
      var head := if meshes[0].materialIndex == material then Slice(indices, meshes[0]) else [];
      assert LaterFirst(all, indices, material) == LaterFirst(tail + [mesh], indices, material) + head;
      assert LaterFirst(tail + [mesh], indices, material) == own + LaterFirst(tail, indices, material);
      assert LaterFirst(meshes, indices, material) == LaterFirst(tail, indices, material) + head;
      Util.AppendAssoc(own, LaterFirst(tail, indices, material), head);
    } else {
      assert all[1..] == [];
      assert LaterFirst(all, indices, material) == LaterFirst([], indices, material) + own;
    }
  }

  lemma {:induction false} LaterFirstAbsent(meshes: seq<MeshRange>, indices: seq<nat>, material: nat)
    requires RangesInside(meshes, |indices|)
    requires forall i :: 0 <= i < |meshes| ==> meshes[i].materialIndex != material
    ensures LaterFirst(meshes, indices, material) == []
  {
    if meshes != [] {
      assert forall i :: 0 <= i < |meshes| - 1 ==> meshes[1..][i] == meshes[i + 1];
      LaterFirstAbsent(meshes[1..], indices, material);
    }
  }

  lemma {:induction false} CountForAppend(meshes: seq<MeshRange>, mesh: MeshRange, material: nat)
    ensures CountFor(meshes + [mesh], material) == CountFor(meshes, material) + (if mesh.materialIndex == material then mesh.indexCount else 0)
  {
    if meshes != [] {
      assert (meshes + [mesh])[1..] == meshes[1..] + [mesh];
      CountForAppend(meshes[1..], mesh, material);
    } else {
      assert (meshes + [mesh])[1..] == [];
    }
  }

  /**
   * The meaning of the index map: a material has a list exactly when some mesh uses it;
   * its list is the slices of its meshes with later meshes first, and its length is the
   * sum of their index counts.
   */
  lemma IndexMapMeaning(meshes: seq<MeshRange>, indices: seq<nat>, material: nat)
    requires RangesInside(meshes, |indices|)
    ensures material in IndexMap(meshes, indices) <==> exists i :: 0 <= i < |meshes| && meshes[i].materialIndex == material
    ensures material in IndexMap(meshes, indices) ==> IndexMap(meshes, indices)[material] == LaterFirst(meshes, indices, material)
    ensures material in IndexMap(meshes, indices) ==> |IndexMap(meshes, indices)[material]| == CountFor(meshes, material)
  {
    IndexMapKeys(meshes, indices, material);
    IndexMapLists(meshes, indices, material);
    LaterFirstLength(meshes, indices, material);
  }

  /** Dropping the last mesh keeps the ranges inside. */
  lemma IndexMapFront(meshes: seq<MeshRange>, indices: seq<nat>)
    requires RangesInside(meshes, |indices|) && meshes != []
    ensures RangesInside(meshes[..|meshes| - 1], |indices|)
  {
    var front := meshes[..|meshes| - 1];
    assert forall i :: 0 <= i < |front| ==> front[i] == meshes[i];
  }

  /** A material has a list exactly when some mesh uses it. */
  lemma {:induction false} IndexMapKeys(meshes: seq<MeshRange>, indices: seq<nat>, material: nat)
    requires RangesInside(meshes, |indices|)
    ensures material in IndexMap(meshes, indices) <==> exists i :: 0 <= i < |meshes| && meshes[i].materialIndex == material
  {
    if meshes != [] {
      IndexMapFront(meshes, indices);
      var front := meshes[..|meshes| - 1];
      var last := meshes[|meshes| - 1];
      IndexMapKeys(front, indices, material);
      if material in IndexMap(meshes, indices) && material != last.materialIndex {
        var i :| 0 <= i < |front| && front[i].materialIndex == material;
        assert meshes[i] == front[i];
      }
      if exists i :: 0 <= i < |meshes| && meshes[i].materialIndex == material {
        var i :| 0 <= i < |meshes| && meshes[i].materialIndex == material;
        if i < |front| {
          assert front[i] == meshes[i];
        }
      }
    }
  }

  /** A material's list is the slices of its meshes, later meshes first. */
  lemma {:induction false} IndexMapLists(meshes: seq<MeshRange>, indices: seq<nat>, material: nat)
    requires RangesInside(meshes, |indices|)
    ensures material in IndexMap(meshes, indices) ==> IndexMap(meshes, indices)[material] == LaterFirst(meshes, indices, material)
  {
    if meshes != [] {
      IndexMapFront(meshes, indices);
      var front := meshes[..|meshes| - 1];
      var last := meshes[|meshes| - 1];
      assert meshes == front + [last];
      IndexMapLists(front, indices, material);
      LaterFirstAppend(front, last, indices, material);
      if material !in IndexMap(front, indices) {
        IndexMapKeys(front, indices, material);
        LaterFirstAbsent(front, indices, material);
      }
    }
  }

  lemma {:induction false} LaterFirstLength(meshes: seq<MeshRange>, indices: seq<nat>, material: nat)
    requires RangesInside(meshes, |indices|)
    ensures |LaterFirst(meshes, indices, material)| == CountFor(meshes, material)
  {
    if meshes != [] {
      assert RangesInside(meshes[1..], |indices|) by {
        assert forall i :: 0 <= i < |meshes| - 1 ==> meshes[1..][i] == meshes[i + 1];
      }
      LaterFirstLength(meshes[1..], indices, material);
    }
  }

  /** `model`. */
  class Model {
    var source: ModelSource?
    var inputLayout: Pipeline.InputLayout
    var vertices: seq<Vertex>
    var indices: seq<nat>
    var meshes: seq<MeshRange>
    var materials: seq<nat>
    var indexMap: map<nat, seq<nat>>

    /** The constructor from a source: registered with it, then filled from it. */
    constructor FromSource(source: ModelSource)
      requires source.Valid()
      modifies source
      ensures this.source == source && source.createdModels == old(source.createdModels) + {this}
      ensures source.Valid()
      ensures inputLayout == VertexInputLayout()
      ensures vertices == source.vertices && indices == source.indices && materials == source.materials
      ensures Copied(source.meshes, meshes)
      ensures RangesInside(meshes, |indices|) && indexMap == IndexMap(meshes, indices)
      ensures source.path == old(source.path) && source.vertices == old(source.vertices) && source.indices == old(source.indices)
      ensures source.meshes == old(source.meshes) && source.materials == old(source.materials)
    {
      this.source := source;
      inputLayout := VertexInputLayout();
      vertices := [];
      indices := [];
      meshes := [];
      materials := [];
      indexMap := map[];
      new;
      source.createdModels := source.createdModels + {this};
      AcquireMeshData();
      CopiedInside(source.meshes, meshes, |source.vertices|, |indices|);
      AssembleIndexMap();
    }

    /** The constructor from explicit data: no source, the index map built over the given meshes. */
    constructor (materials: seq<nat>, meshes: seq<MeshRange>, vertices: seq<Vertex>, indices: seq<nat>)
      requires RangesInside(meshes, |indices|)
      ensures source == null && inputLayout == VertexInputLayout()
      ensures this.vertices == vertices && this.indices == indices && this.meshes == meshes && this.materials == materials
      ensures indexMap == IndexMap(meshes, indices)
    {
      source := null;
      inputLayout := VertexInputLayout();
      this.materials := materials;
      this.meshes := meshes;
      this.vertices := vertices;
      this.indices := indices;
      indexMap := map[];
      new;
      AssembleIndexMap();
    }

    /** The destructor: a model made from a source is unregistered from it. */
    method Dispose()
      requires source != null ==> source.Valid()
      modifies source
      ensures source != null ==> source.createdModels == old(source.createdModels) - {this} && source.Valid()
    {
      if source != null {
        source.createdModels := source.createdModels - {this};
      }
    }

    /**
     * `acquire_mesh_data`: nothing without a source; otherwise the source's vertices,
     * indices and materials are copied, and of each mesh only its index range and
     * material are kept, in the same order.
     */
    method AcquireMeshData()
      modifies this
      ensures old(source) == null ==> vertices == old(vertices) && indices == old(indices) && meshes == old(meshes) && materials == old(materials)
      ensures source != null ==> vertices == source.vertices && indices == source.indices && materials == source.materials
      ensures source != null ==> Copied(source.meshes, meshes)
      ensures source == old(source) && inputLayout == old(inputLayout) && indexMap == old(indexMap)
    {
      if source == null {
        return;
      }
      var from := source;
      vertices := from.vertices;
      indices := from.indices;
      materials := from.materials;
      meshes := [];
      for i := 0 to |from.meshes|
        invariant |meshes| == i
        invariant forall j :: 0 <= j < i ==> meshes[j] == MeshRange(from.meshes[j].indexOffset, from.meshes[j].indexCount, from.meshes[j].materialIndex)
        invariant source == from && inputLayout == old(inputLayout) && indexMap == old(indexMap)
        invariant vertices == from.vertices && indices == from.indices && materials == from.materials
      {
        var mesh := from.meshes[i];
        meshes := meshes + [MeshRange(mesh.indexOffset, mesh.indexCount, mesh.materialIndex)];
      }
    }

    /** `assemble_index_map`: the map is cleared and rebuilt over the meshes in order. */
    method AssembleIndexMap()
      requires RangesInside(meshes, |indices|)
      modifies this`indexMap
      ensures indexMap == IndexMap(meshes, indices)
    {
      var assembled := map[];
      for i := 0 to |meshes|
        invariant RangesInside(meshes[..i], |indices|)
        invariant assembled == IndexMap(meshes[..i], indices)
      {
        var mesh := meshes[i];
        var list := if mesh.materialIndex in assembled then assembled[mesh.materialIndex] else [];
        assert meshes[..i + 1][..i] == meshes[..i];
        assembled := assembled[mesh.materialIndex := indices[mesh.indexOffset..mesh.indexOffset + mesh.indexCount] + list];
      }
      assert meshes[..|meshes|] == meshes;
      indexMap := assembled;
    }
  }

  /** A model's meshes keep each source mesh's index range and material, in order. */
  predicate Copied(sourceMeshes: seq<Mesh>, meshes: seq<MeshRange>)
  {
    |meshes| == |sourceMeshes| &&
    forall j :: 0 <= j < |meshes| ==>
      meshes[j] == MeshRange(sourceMeshes[j].indexOffset, sourceMeshes[j].indexCount, sourceMeshes[j].materialIndex)
  }

  /** Ranges copied from a tiling lie inside the index array. */
  lemma CopiedInside(sourceMeshes: seq<Mesh>, meshes: seq<MeshRange>, vertexTotal: nat, indexTotal: nat)
    requires Tiled(sourceMeshes, vertexTotal, indexTotal) && Copied(sourceMeshes, meshes)
    ensures RangesInside(meshes, indexTotal)
  {
    TiledSlicesInside(sourceMeshes, vertexTotal, indexTotal);
  }
}
