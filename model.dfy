/**
 * `Model` (src/glbox/model.cpp): loads a scene through Assimp, walks its node
 * tree in pre-order, flattens every mesh into a vertex and an index list and
 * loads the mesh's diffuse and normal maps through a path-keyed cache,
 * `textures_loaded`, so that each texture file is loaded once per model.
 *
 * The Assimp scene is an input value (the result of `ReadFile`), and the GL
 * name a texture receives is supplied by the caller as `texId(filename)`.
 */
module Models {
  import opened Wrappers
  import opened Vectors
  import opened Textures

  // ----- The imported scene, as Assimp hands it over -----

  /**
   * An `aiMesh`: `mNumVertices` is `|positions|`; `texCoords` is channel 0
   * (`mTextureCoords[0]`, absent when null); `tangents`/`bitangents` are
   * present when `HasTangentsAndBitangents()`.
   */
  datatype AiMesh = AiMesh(
    positions: seq<Vec3>,
    normals: seq<Vec3>,
    texCoords: Option<seq<Vec2>>,
    tangents: Option<seq<Vec3>>,
    bitangents: Option<seq<Vec3>>,
    faces: seq<seq<nat>>,
    materialIndex: nat)

  /** The texture slots of an `aiMaterial` for the two types the loader asks for. */
  datatype AiMaterial = AiMaterial(diffuse: seq<string>, normal: seq<string>)

  datatype TextureType = Diffuse | Normals

  /** An `aiNode`: indices into the scene's meshes, and child nodes. */
  datatype AiNode = AiNode(meshes: seq<nat>, children: seq<AiNode>)

  /** An `aiScene`; `incomplete` is `mFlags & AI_SCENE_FLAGS_INCOMPLETE`. */
  datatype AiScene = AiScene(
    meshes: seq<AiMesh>,
    materials: seq<AiMaterial>,
    incomplete: bool,
    root: Option<AiNode>)

  /** `aiMesh::HasTangentsAndBitangents()`. */
  predicate HasTangents(m: AiMesh) {
    m.tangents.Some? && m.bitangents.Some?
  }

  /** Every per-vertex array Assimp provides has one entry per vertex. */
  predicate MeshValid(m: AiMesh) {
    var n := |m.positions|;
    |m.normals| == n
    && (m.texCoords.Some? ==> |m.texCoords.value| == n)
    && (m.tangents.Some? ==> |m.tangents.value| == n)
    && (m.bitangents.Some? ==> |m.bitangents.value| == n)
  }

  /** The scene's meshes are well formed and name existing materials. */
  predicate SceneValid(s: AiScene) {
    forall i :: 0 <= i < |s.meshes| ==> MeshValid(s.meshes[i]) && s.meshes[i].materialIndex < |s.materials|
  }

  /** Every mesh index in the subtree names one of the scene's `count` meshes. */
  predicate NodeValid(node: AiNode, count: nat)
    decreases node
  {
    (forall i :: 0 <= i < |node.meshes| ==> node.meshes[i] < count)
    && forall k :: 0 <= k < |node.children| ==> NodeValid(node.children[k], count)
  }

  /** `GetTextureCount(type)` slots, read by `GetTexture(type, i)`. */
  function Slots(mat: AiMaterial, t: TextureType): seq<string> {
    match t
    case Diffuse => mat.diffuse
    case Normals => mat.normal
  }

  // ----- Paths -----

  /** `find_last_of('/')`: the position of the last '/', or none. */
  function LastSlash(s: string): (r: Option<nat>)
    ensures r.Some? ==> r.value < |s| && s[r.value] == '/' && forall k :: r.value < k < |s| ==> s[k] != '/'
    ensures r.None? <==> forall k :: 0 <= k < |s| ==> s[k] != '/'
  {
    if |s| == 0 then None
    else if s[|s| - 1] == '/' then Some(|s| - 1)
    else LastSlash(s[..|s| - 1])
  }

  /** `path.substr(0, path.find_last_of('/'))`: with no '/', `npos` keeps the whole path. */
  function DirectoryOf(path: string): string {
    match LastSlash(path)
    case None => path
    case Some(i) => path[..i]
  }

  /** What follows the last '/'. */
  function NameOf(path: string): string {
    match LastSlash(path)
    case None => path
    case Some(i) => path[i + 1..]
  }

  /** `TextureFromFile` opens `directory + '/' + path`. */
  function TexturePath(directory: string, name: string): string {
    directory + "/" + name
  }

  /**
   * Splitting a path at its last '/' and joining the parts with '/' gives
   * it back, and the name part holds no '/': a texture named like the
   * model's file is opened next to the model.
   */
  lemma DirectoryRoundTrip(path: string)
    requires exists k :: 0 <= k < |path| && path[k] == '/'
    ensures TexturePath(DirectoryOf(path), NameOf(path)) == path
    ensures forall k :: 0 <= k < |NameOf(path)| ==> NameOf(path)[k] != '/'
  {
    var i := LastSlash(path).value;
    assert path == path[..i] + "/" + path[i + 1..];
    forall k | 0 <= k < |NameOf(path)| ensures NameOf(path)[k] != '/' {
      assert NameOf(path)[k] == path[i + 1 + k];
    }
  }

  /**
   * With no '/' the directory is the whole path, so a texture `name` is
   * looked for at `path + "/" + name`.
   */
  lemma NoSlashDirectory(path: string, name: string)
    requires forall k :: 0 <= k < |path| ==> path[k] != '/'
    ensures DirectoryOf(path) == path
    ensures TexturePath(DirectoryOf(path), name) == path + "/" + name
  {
  }

  // ----- Vertex flattening -----

  /** 3 + 3 + 2 floats, plus 3 + 3 when tangents and bitangents exist. */
  function VertexStride(m: AiMesh): nat {
    if HasTangents(m) then 14 else 8
  }

  /** Texture coordinates of vertex i, or (0, 0) when channel 0 is missing. */
  function UvOf(m: AiMesh, i: nat): (r: seq<real>)
    requires MeshValid(m) && i < |m.positions|
    ensures |r| == 2
  {
    match m.texCoords
    case Some(tc) => [tc[i].u, tc[i].v]
    case None => [0.0, 0.0]
  }

  /** The floats the vertex loop pushes for vertex i. */
  function VertexBlock(m: AiMesh, i: nat): (r: seq<real>)
    requires MeshValid(m) && i < |m.positions|
    ensures |r| == VertexStride(m)
  {
    Components(m.positions[i]) + Components(m.normals[i]) + UvOf(m, i)
    + if HasTangents(m) then Components(m.tangents.value[i]) + Components(m.bitangents.value[i]) else []
  }

  /** The blocks of the first k vertices, in order. */
  function Flatten(m: AiMesh, k: nat): seq<real>
    requires MeshValid(m) && k <= |m.positions|
  {
    if k == 0 then [] else Flatten(m, k - 1) + VertexBlock(m, k - 1)
  }

  function MeshVertices(m: AiMesh): seq<real>
    requires MeshValid(m)
  {
    Flatten(m, |m.positions|)
  }

  /** The vertex loop of `processMesh`. */
  method FlattenVertices(m: AiMesh) returns (vertices: seq<real>)
    requires MeshValid(m)
    ensures vertices == MeshVertices(m)
  {
    vertices := [];
    var i := 0;
    while i < |m.positions|
      invariant i <= |m.positions|
      invariant vertices == Flatten(m, i)
    {
      vertices := PushVertex(vertices, m, i);
      i := i + 1;
    }
  }

  /** One iteration of the vertex loop: the floats of vertex i are pushed. */
  method PushVertex(vertices: seq<real>, m: AiMesh, i: nat) returns (r: seq<real>)
    requires MeshValid(m) && i < |m.positions|
    ensures r == vertices + VertexBlock(m, i)
  {
    var uv := if m.texCoords.Some? then [m.texCoords.value[i].u, m.texCoords.value[i].v] else [0.0, 0.0];
    r := vertices + Components(m.positions[i]) + Components(m.normals[i]) + uv;
    if HasTangents(m) {
      r := r + Components(m.tangents.value[i]) + Components(m.bitangents.value[i]);
    }
  }

  lemma {:induction false} FlattenPrefix(m: AiMesh, k: nat, n: nat)
    requires MeshValid(m) && k <= n <= |m.positions|
    ensures |Flatten(m, k)| == k * VertexStride(m)
    ensures Flatten(m, k) <= Flatten(m, n)
    decreases n
  {
    if n == k {
      if k > 0 {
        FlattenPrefix(m, k - 1, k - 1);
      }
    } else {
      FlattenPrefix(m, k, n - 1);
    }
  }

  /**
   * The vertex list has `VertexStride` floats per vertex, and vertex i
   * occupies the i-th block: position, normal, texture coordinates (zero
   * when missing), then tangent and bitangent when present.
   */
  lemma MeshVertexAt(m: AiMesh, i: nat)
    requires MeshValid(m) && i < |m.positions|
    ensures var s := VertexStride(m);
      |MeshVertices(m)| == |m.positions| * s
      && MeshVertices(m)[i * s..i * s + s] == VertexBlock(m, i)
  {
    var s := VertexStride(m);
    FlattenPrefix(m, i, i);
    FlattenPrefix(m, i + 1, |m.positions|);
    FlattenPrefix(m, |m.positions|, |m.positions|);
    assert Flatten(m, i + 1) == Flatten(m, i) + VertexBlock(m, i);
    assert MeshVertices(m)[i * s..i * s + s] == Flatten(m, i + 1)[i * s..i * s + s];
  }

  /** The fields of one block, as the loop pushes them. */
  lemma VertexBlockFields(m: AiMesh, i: nat)
    requires MeshValid(m) && i < |m.positions|
    ensures var b := VertexBlock(m, i);
      b[0..3] == Components(m.positions[i])
      && b[3..6] == Components(m.normals[i])
      && (m.texCoords.None? ==> b[6] == 0.0 && b[7] == 0.0)
      && (m.texCoords.Some? ==> b[6] == m.texCoords.value[i].u && b[7] == m.texCoords.value[i].v)
      && (HasTangents(m) ==> b[8..11] == Components(m.tangents.value[i]) && b[11..14] == Components(m.bitangents.value[i]))
  {
  }

  // ----- Index flattening -----

  /** All faces' indices, face after face. */
  function Concat(faces: seq<seq<nat>>): seq<nat> {
    if |faces| == 0 then [] else Concat(faces[..|faces| - 1]) + faces[|faces| - 1]
  }

  /** The face loop of `processMesh`: every face's `mIndices`, in order. */
  method CollectIndices(faces: seq<seq<nat>>) returns (indices: seq<nat>)
    ensures indices == Concat(faces)
  {
    indices := [];
    var i := 0;
    while i < |faces|
      invariant i <= |faces|
      invariant indices == Concat(faces[..i])
    {
      var face := faces[i];
      ghost var before := indices;
      var j := 0;
      while j < |face|
        invariant j <= |face|
        invariant indices == before + face[..j]
      {
        indices := indices + [face[j]];
        j := j + 1;
      }
      assert faces[..i + 1][..i] == faces[..i];
      i := i + 1;
    }
    assert faces[..|faces|] == faces;
  }

  /**
   * When every face is a triangle (as `aiProcess_Triangulate` makes
   * them), there are three indices per face and index 3k + j is corner j
   * of face k.
   */
  lemma {:induction false} TriangleIndices(faces: seq<seq<nat>>, k: nat, j: nat)
    requires forall f :: 0 <= f < |faces| ==> |faces[f]| == 3
    requires k < |faces| && j < 3
    ensures |Concat(faces)| == 3 * |faces|
    ensures Concat(faces)[3 * k + j] == faces[k][j]
    decreases |faces|
  {
    var n := |faces|;
    var init := faces[..n - 1];
    assert Concat(faces) == Concat(init) + faces[n - 1];
    if n > 1 {
      TriangleIndices(init, 0, 0);
    }
    assert |Concat(init)| == 3 * (n - 1);
    if k < n - 1 {
      TriangleIndices(init, k, j);
      assert init[k] == faces[k];
    } else {
      assert Concat(faces)[3 * k + j] == faces[n - 1][j];
    }
  }

  /** An index is in the list exactly when some face holds it. */
  lemma {:induction false} ConcatMembers(faces: seq<seq<nat>>, v: nat)
    ensures v in Concat(faces) <==> exists f :: 0 <= f < |faces| && v in faces[f]
    decreases |faces|
  {
    if |faces| > 0 {
      var init := faces[..|faces| - 1];
      ConcatMembers(init, v);
      if v in Concat(init) {
        var f :| 0 <= f < |init| && v in init[f];
        assert faces[f] == init[f];
      }
      if exists f :: 0 <= f < |faces| && v in faces[f] {
        var f :| 0 <= f < |faces| && v in faces[f];
        if f < |faces| - 1 {
          assert init[f] == faces[f];
        }
      }
    }
  }

  // ----- The texture cache -----

  /** `Texture { id, type, path }`. */
  datatype Texture = Texture(id: UInt32, kind: string, path: string)

  /** The first cached entry whose path equals p (the search breaks at the first match). */
  function FirstWithPath(cache: seq<Texture>, p: string): (r: Option<nat>)
    ensures r.Some? ==> (r.value < |cache| && cache[r.value].path == p
                         && forall k :: 0 <= k < r.value ==> cache[k].path != p)
    ensures r.None? <==> forall k :: 0 <= k < |cache| ==> cache[k].path != p
  {
    if |cache| == 0 then None
    else if cache[0].path == p then Some(0)
    else match FirstWithPath(cache[1..], p)
      case None => None
      case Some(j) => Some(j + 1)
  }

  /** No two cached entries share a path. */
  ghost predicate UniquePaths(cache: seq<Texture>) {
    forall i, j :: 0 <= i < j < |cache| ==> cache[i].path != cache[j].path
  }

  /** What `loadMaterialTextures` returns, and the cache it leaves. */
  datatype Loaded = Loaded(textures: seq<Texture>, cache: seq<Texture>)

  /**
   * The texture for slot path p: the first cached entry with that path on
   * a hit; on a miss a new entry of the given type, loaded from
   * `directory/p`, which is also appended to the cache.
   */
  function LoadSlot(cache: seq<Texture>, p: string, typeName: string, directory: string,
                    texId: string -> UInt32): Loaded
  {
    match FirstWithPath(cache, p)
    case Some(j) => Loaded([cache[j]], cache)
    case None =>
      var t := Texture(texId(TexturePath(directory, p)), typeName, p);
      Loaded([t], cache + [t])
  }

  /** The slots of one texture type, in slot order, threading the cache. */
  function LoadSlots(cache: seq<Texture>, slots: seq<string>, typeName: string, directory: string,
                     texId: string -> UInt32): Loaded
  {
    if |slots| == 0 then Loaded([], cache)
    else
      var prev := LoadSlots(cache, slots[..|slots| - 1], typeName, directory, texId);
      var last := LoadSlot(prev.cache, slots[|slots| - 1], typeName, directory, texId);
      Loaded(prev.textures + last.textures, last.cache)
  }

  /** One entry per slot, carrying the slot's path, in slot order. */
  lemma {:induction false} LoadSlotsPaths(cache: seq<Texture>, slots: seq<string>, typeName: string,
                                          directory: string, texId: string -> UInt32)
    ensures var r := LoadSlots(cache, slots, typeName, directory, texId);
      PathsOf(r.textures) == slots
    decreases |slots|
  {
    if |slots| > 0 {
      var init := slots[..|slots| - 1];
      LoadSlotsPaths(cache, init, typeName, directory, texId);
      var prev := LoadSlots(cache, init, typeName, directory, texId);
      var r := LoadSlots(cache, slots, typeName, directory, texId);
      assert r.textures[..|r.textures| - 1] == prev.textures;
      assert slots == init + [slots[|slots| - 1]];
    }
  }

  /** The cache only grows, and every entry it gains has the requested type. */
  lemma {:induction false} LoadSlotsGrows(cache: seq<Texture>, slots: seq<string>, typeName: string,
                                          directory: string, texId: string -> UInt32)
    ensures var r := LoadSlots(cache, slots, typeName, directory, texId);
      cache <= r.cache && forall k :: |cache| <= k < |r.cache| ==> r.cache[k].kind == typeName
    decreases |slots|
  {
    if |slots| > 0 {
      LoadSlotsGrows(cache, slots[..|slots| - 1], typeName, directory, texId);
    }
  }

  /**
   * Every returned texture is the first cache entry with its path, so a
   * path already cached is reused and none is loaded twice.
   */
  lemma {:induction false} LoadSlotsCached(cache: seq<Texture>, slots: seq<string>, typeName: string,
                                           directory: string, texId: string -> UInt32)
    ensures var r := LoadSlots(cache, slots, typeName, directory, texId);
      |r.textures| == |slots|
      && forall k :: 0 <= k < |slots| ==>
           FirstWithPath(r.cache, slots[k]).Some?
           && r.textures[k] == r.cache[FirstWithPath(r.cache, slots[k]).value]
    decreases |slots|
  {
    if |slots| > 0 {
      var init := slots[..|slots| - 1];
      var prev := LoadSlots(cache, init, typeName, directory, texId);
      var r := LoadSlots(cache, slots, typeName, directory, texId);
      LoadSlotsCached(cache, init, typeName, directory, texId);
      assert prev.cache <= r.cache;
      forall k | 0 <= k < |init|
        ensures FirstWithPath(r.cache, slots[k]).Some?
        ensures r.textures[k] == r.cache[FirstWithPath(r.cache, slots[k]).value]
      {
        assert slots[k] == init[k];
        assert r.textures[k] == prev.textures[k];
        FirstWithPathExtend(prev.cache, r.cache, slots[k]);
      }
      LoadSlotResolved(prev.cache, slots[|slots| - 1], typeName, directory, texId);
    }
  }

  /** After one slot is loaded, its texture is the first cache entry with its path. */
  lemma LoadSlotResolved(cache: seq<Texture>, p: string, typeName: string, directory: string,
                         texId: string -> UInt32)
    ensures var l := LoadSlot(cache, p, typeName, directory, texId);
      FirstWithPath(l.cache, p).Some? && l.textures == [l.cache[FirstWithPath(l.cache, p).value]]
  {
    if FirstWithPath(cache, p).None? {
      var grown := LoadSlot(cache, p, typeName, directory, texId).cache;
      assert grown[|cache|].path == p;
      assert forall k :: 0 <= k < |cache| ==> grown[k] == cache[k];
    }
  }

  /** A path found in a cache is found at the same entry after the cache grows. */
  lemma FirstWithPathExtend(cache: seq<Texture>, grown: seq<Texture>, p: string)
    requires cache <= grown
    requires FirstWithPath(cache, p).Some?
    ensures FirstWithPath(grown, p) == FirstWithPath(cache, p)
  {
    var j := FirstWithPath(cache, p).value;
    assert grown[j] == cache[j];
    assert forall k :: 0 <= k < j ==> grown[k] == cache[k];
  }

  /** If no two cached entries share a path before loading, none do after. */
  lemma {:induction false} LoadSlotsKeepsUnique(cache: seq<Texture>, slots: seq<string>, typeName: string,
                                                directory: string, texId: string -> UInt32)
    requires UniquePaths(cache)
    ensures UniquePaths(LoadSlots(cache, slots, typeName, directory, texId).cache)
    decreases |slots|
  {
    if |slots| > 0 {
      var prev := LoadSlots(cache, slots[..|slots| - 1], typeName, directory, texId);
      LoadSlotsKeepsUnique(cache, slots[..|slots| - 1], typeName, directory, texId);
      var p := slots[|slots| - 1];
      if FirstWithPath(prev.cache, p).None? {
        var grown := prev.cache + [Texture(texId(TexturePath(directory, p)), typeName, p)];
        assert forall i :: 0 <= i < |prev.cache| ==> grown[i] == prev.cache[i];
      }
    }
  }

  /** A slot whose path is already cached gets the cached entry and loads nothing. */
  lemma CacheHit(cache: seq<Texture>, p: string, typeName: string, directory: string, texId: string -> UInt32)
    requires exists k :: 0 <= k < |cache| && cache[k].path == p
    ensures var r := LoadSlot(cache, p, typeName, directory, texId);
      r.cache == cache && r.textures == [cache[FirstWithPath(cache, p).value]]
  {
  }

  /** A slot whose path is not cached appends exactly one entry, of that path and type. */
  lemma CacheMiss(cache: seq<Texture>, p: string, typeName: string, directory: string, texId: string -> UInt32)
    requires forall k :: 0 <= k < |cache| ==> cache[k].path != p
    ensures var r := LoadSlot(cache, p, typeName, directory, texId);
      |r.cache| == |cache| + 1 && cache <= r.cache
      && r.cache[|cache|] == Texture(texId(directory + "/" + p), typeName, p)
      && r.textures == [r.cache[|cache|]]
  {
  }

  // ----- Meshes and the node walk -----

  /** `StaticMesh(vertices, indices, textures)`, as built by `processMesh`. */
  datatype MeshData = MeshData(vertices: seq<real>, indices: seq<nat>, textures: seq<Texture>)

  /** The paths of a texture list. */
  function PathsOf(ts: seq<Texture>): (r: seq<string>)
    ensures |r| == |ts| && forall k :: 0 <= k < |ts| ==> r[k] == ts[k].path
  {
    if |ts| == 0 then [] else PathsOf(ts[..|ts| - 1]) + [ts[|ts| - 1].path]
  }

  lemma PathsAppend(a: seq<Texture>, b: seq<Texture>)
    ensures PathsOf(a + b) == PathsOf(a) + PathsOf(b)
  {
    var l, r := PathsOf(a + b), PathsOf(a) + PathsOf(b);
    forall k | 0 <= k < |l| ensures l[k] == r[k] {
      if k < |a| {
        assert (a + b)[k] == a[k];
      } else {
        assert (a + b)[k] == b[k - |a|];
      }
    }
  }

  /** A processed mesh and the cache after its two texture loads. */
  datatype Walked = Walked(meshes: seq<MeshData>, cache: seq<Texture>)

  /** `processMesh`: vertices, indices, then diffuse maps followed by normal maps. */
  function MeshResult(m: AiMesh, materials: seq<AiMaterial>, directory: string, texId: string -> UInt32,
                      cache: seq<Texture>): Walked
    requires MeshValid(m) && m.materialIndex < |materials|
  {
    var mat := materials[m.materialIndex];
    var d := LoadSlots(cache, Slots(mat, Diffuse), "texture_diffuse", directory, texId);
    var n := LoadSlots(d.cache, Slots(mat, Normals), "texture_normal", directory, texId);
    Walked([MeshData(MeshVertices(m), Concat(m.faces), d.textures + n.textures)], n.cache)
  }

  /**
   * A mesh's textures hold one entry per diffuse slot and then one per
   * normal slot, carrying the slots' paths in that order.
   */
  lemma MeshTextureOrder(m: AiMesh, materials: seq<AiMaterial>, directory: string, texId: string -> UInt32,
                         cache: seq<Texture>)
    requires MeshValid(m) && m.materialIndex < |materials|
    ensures var mat := materials[m.materialIndex];
      PathsOf(MeshResult(m, materials, directory, texId, cache).meshes[0].textures) == mat.diffuse + mat.normal
  {
    var mat := materials[m.materialIndex];
    var d := LoadSlots(cache, Slots(mat, Diffuse), "texture_diffuse", directory, texId);
    var n := LoadSlots(d.cache, Slots(mat, Normals), "texture_normal", directory, texId);
    LoadSlotsPaths(cache, Slots(mat, Diffuse), "texture_diffuse", directory, texId);
    LoadSlotsPaths(d.cache, Slots(mat, Normals), "texture_normal", directory, texId);
    PathsAppend(d.textures, n.textures);
  }

  /** Every index in the order names one of `count` meshes. */
  ghost predicate InRange(order: seq<nat>, count: nat) {
    forall i :: 0 <= i < |order| ==> order[i] < count
  }

  lemma InRangeAppend(a: seq<nat>, b: seq<nat>, count: nat)
    ensures InRange(a + b, count) <==> InRange(a, count) && InRange(b, count)
  {
    if InRange(a + b, count) {
      forall i | 0 <= i < |a| ensures a[i] < count {
        assert (a + b)[i] == a[i];
      }
      forall i | 0 <= i < |b| ensures b[i] < count {
        assert (a + b)[|a| + i] == b[i];
      }
    }
    if InRange(a, count) && InRange(b, count) {
      forall i | 0 <= i < |a + b| ensures (a + b)[i] < count {
        if i >= |a| {
          assert (a + b)[i] == b[i - |a|];
        }
      }
    }
  }

  /**
   * Visiting scene mesh i: `processMesh` on it, appending the result and
   * passing the cache on. (The guard only makes the step total; for a
   * scene Assimp produces it always holds, see `VisitMesh`.)
   */
  function Visit(s: AiScene, directory: string, texId: string -> UInt32): (Walked, nat) -> Walked {
    (w: Walked, i: nat) =>
      if i < |s.meshes| && MeshValid(s.meshes[i]) && s.meshes[i].materialIndex < |s.materials| then
        var r := MeshResult(s.meshes[i], s.materials, directory, texId, w.cache);
        Walked(w.meshes + r.meshes, r.cache)
      else w
  }

  /** The step applied to each index of the order in turn. */
  function Fold(step: (Walked, nat) -> Walked, w: Walked, order: seq<nat>): Walked {
    if |order| == 0 then w else step(Fold(step, w, order[..|order| - 1]), order[|order| - 1])
  }

  /** Visiting one more index of an order. */
  lemma FoldSnoc(step: (Walked, nat) -> Walked, w: Walked, order: seq<nat>, i: nat)
    requires i < |order|
    ensures Fold(step, w, order[..i + 1]) == step(Fold(step, w, order[..i]), order[i])
  {
    assert order[..i + 1][..i] == order[..i];
  }

  /** Visiting two runs one after the other is visiting their concatenation. */
  lemma {:induction false} FoldAppend(step: (Walked, nat) -> Walked, w: Walked, a: seq<nat>, b: seq<nat>)
    ensures Fold(step, w, a + b) == Fold(step, Fold(step, w, a), b)
    decreases |b|
  {
    if |b| == 0 {
      assert a + b == a;
    } else {
      var b' := b[..|b| - 1];
      assert (a + b)[..|a + b| - 1] == a + b';
      FoldAppend(step, w, a, b');
    }
  }

  /** On a valid scene, visiting mesh i appends exactly its `processMesh` result. */
  lemma VisitMesh(s: AiScene, directory: string, texId: string -> UInt32, w: Walked, i: nat)
    requires SceneValid(s) && i < |s.meshes|
    ensures var r := MeshResult(s.meshes[i], s.materials, directory, texId, w.cache);
      Visit(s, directory, texId)(w, i) == Walked(w.meshes + r.meshes, r.cache)
  {
  }

  /** Visiting a valid mesh index appends exactly that mesh's data. */
  lemma VisitAppends(s: AiScene, directory: string, texId: string -> UInt32, w: Walked, i: nat)
    requires SceneValid(s) && i < |s.meshes|
    ensures var q := Visit(s, directory, texId)(w, i);
      |q.meshes| == |w.meshes| + 1 && q.meshes[..|w.meshes|] == w.meshes
      && q.meshes[|w.meshes|].vertices == MeshVertices(s.meshes[i])
      && q.meshes[|w.meshes|].indices == Concat(s.meshes[i].faces)
  {
    VisitMesh(s, directory, texId, w, i);
    var q := Visit(s, directory, texId)(w, i);
    assert q.meshes[..|w.meshes|] == w.meshes;
  }

  /**
   * Walking a valid order keeps the meshes already built and appends one
   * mesh per index; the k-th appended mesh holds the flattened vertices
   * and the face indices of the k-th visited scene mesh.
   */
  lemma {:induction false} FoldMeshes(s: AiScene, directory: string, texId: string -> UInt32, w: Walked,
                                      order: seq<nat>)
    requires SceneValid(s) && InRange(order, |s.meshes|)
    ensures var r := Fold(Visit(s, directory, texId), w, order);
      |r.meshes| == |w.meshes| + |order| && w.meshes <= r.meshes
      && forall k :: 0 <= k < |order| ==>
           r.meshes[|w.meshes| + k].vertices == MeshVertices(s.meshes[order[k]])
           && r.meshes[|w.meshes| + k].indices == Concat(s.meshes[order[k]].faces)
    decreases |order|
  {
    if |order| > 0 {
      var init := order[..|order| - 1];
      var step := Visit(s, directory, texId);
      assert InRange(init, |s.meshes|);
      FoldMeshes(s, directory, texId, w, init);
      var p := Fold(step, w, init);
      var last := order[|order| - 1];
      var r := Fold(step, w, order);
      assert r == step(p, last);
      VisitAppends(s, directory, texId, p, last);
      forall k | 0 <= k < |order|
        ensures r.meshes[|w.meshes| + k].vertices == MeshVertices(s.meshes[order[k]])
        ensures r.meshes[|w.meshes| + k].indices == Concat(s.meshes[order[k]].faces)
      {
        if k < |init| {
          assert init[k] == order[k];
          assert r.meshes[|w.meshes| + k] == p.meshes[|w.meshes| + k];
        }
      }
    }
  }

  /** A node's own meshes in order, then each child's subtree in order. */
  function PreOrder(node: AiNode): seq<nat>
    decreases node, 1
  {
    node.meshes + ChildrenPreOrder(node, |node.children|)
  }

  /** The pre-order of the first k children, one after another. */
  function ChildrenPreOrder(node: AiNode, k: nat): seq<nat>
    requires k <= |node.children|
    decreases node, 0, k
  {
    if k == 0 then [] else ChildrenPreOrder(node, k - 1) + PreOrder(node.children[k - 1])
  }

  /** Every visited index names one of the scene's meshes. */
  lemma {:induction false} PreOrderValid(node: AiNode, count: nat)
    requires NodeValid(node, count)
    ensures InRange(PreOrder(node), count)
    decreases node, 1
  {
    ChildrenPreOrderValid(node, count, |node.children|);
  }

  lemma {:induction false} ChildrenPreOrderValid(node: AiNode, count: nat, k: nat)
    requires NodeValid(node, count) && k <= |node.children|
    ensures InRange(ChildrenPreOrder(node, k), count)
    decreases node, 0, k
  {
    if k > 0 {
      ChildrenPreOrderValid(node, count, k - 1);
      PreOrderValid(node.children[k - 1], count);
    }
  }

  /**
   * The walk `processNode` performs, by the shape of its code: the node's
   * meshes first, then each child's walk in turn.
   */
  function WalkTree(step: (Walked, nat) -> Walked, w: Walked, node: AiNode): Walked
    decreases node, 1
  {
    WalkChildren(step, Fold(step, w, node.meshes), node, |node.children|)
  }

  /** The walks of the first k children, one after another. */
  function WalkChildren(step: (Walked, nat) -> Walked, w: Walked, node: AiNode, k: nat): Walked
    requires k <= |node.children|
    decreases node, 0, k
  {
    if k == 0 then w else WalkTree(step, WalkChildren(step, w, node, k - 1), node.children[k - 1])
  }

  /** The walk visits the scene meshes in pre-order. */
  lemma {:induction false} WalkIsPreOrder(step: (Walked, nat) -> Walked, w: Walked, node: AiNode)
    ensures WalkTree(step, w, node) == Fold(step, w, PreOrder(node))
    decreases node, 1
  {
    WalkChildrenIsPreOrder(step, w, node, |node.children|);
  }

  lemma {:induction false} WalkChildrenIsPreOrder(step: (Walked, nat) -> Walked, w: Walked, node: AiNode, k: nat)
    requires k <= |node.children|
    ensures WalkChildren(step, Fold(step, w, node.meshes), node, k) == Fold(step, w, node.meshes + ChildrenPreOrder(node, k))
    decreases node, 0, k
  {
    if k == 0 {
      assert node.meshes + ChildrenPreOrder(node, 0) == node.meshes;
    } else {
      var child := node.children[k - 1];
      var before := Fold(step, w, node.meshes);
      WalkChildrenIsPreOrder(step, w, node, k - 1);
      var done := node.meshes + ChildrenPreOrder(node, k - 1);
      assert WalkChildren(step, before, node, k) == WalkTree(step, Fold(step, w, done), child);
      WalkIsPreOrder(step, Fold(step, w, done), child);
      FoldAppend(step, w, done, PreOrder(child));
      assert ChildrenPreOrder(node, k) == ChildrenPreOrder(node, k - 1) + PreOrder(child);
      assert done + PreOrder(child) == node.meshes + ChildrenPreOrder(node, k);
    }
  }

  /** The root and a single child's meshes: the root's come first. */
  lemma PreOrderOneChild(root: seq<nat>, child: seq<nat>)
    ensures PreOrder(AiNode(root, [AiNode(child, [])])) == root + child
  {
    var leaf := AiNode(child, []);
    var node := AiNode(root, [leaf]);
    assert ChildrenPreOrder(leaf, 0) == [];
    assert PreOrder(leaf) == child;
    assert ChildrenPreOrder(node, 1) == ChildrenPreOrder(node, 0) + PreOrder(leaf);
  }

  // ----- The loader object -----

  class Model {
    var meshes: seq<MeshData>
    var directory: string
    var texturesLoaded: seq<Texture>

    /** A model with no meshes, no directory and an empty cache. */
    constructor()
      ensures meshes == [] && directory == "" && texturesLoaded == []
    {
      meshes := [];
      directory := "";
      texturesLoaded := [];
    }

    /** The inner search loop of `loadMaterialTextures`: the first cached entry with path p. */
    method FindLoaded(p: string) returns (found: Option<nat>)
      ensures found == FirstWithPath(texturesLoaded, p)
    {
      var j := 0;
      while j < |texturesLoaded|
        invariant j <= |texturesLoaded|
        invariant forall k :: 0 <= k < j ==> texturesLoaded[k].path != p
      {
        if texturesLoaded[j].path == p {
          return Some(j);
        }
        j := j + 1;
      }
      return None;
    }

    /** `loadMaterialTextures`: one texture per slot of type t, through the cache. */
    method LoadMaterialTextures(mat: AiMaterial, t: TextureType, typeName: string, texId: string -> UInt32)
      returns (textures: seq<Texture>)
      modifies this
      ensures Loaded(textures, texturesLoaded) == LoadSlots(old(texturesLoaded), Slots(mat, t), typeName, directory, texId)
      ensures meshes == old(meshes) && directory == old(directory)
    {
      var slots := Slots(mat, t);
      textures := [];
      var i := 0;
      while i < |slots|
        invariant i <= |slots|
        invariant meshes == old(meshes) && directory == old(directory)
        invariant Loaded(textures, texturesLoaded) == LoadSlots(old(texturesLoaded), slots[..i], typeName, directory, texId)
      {
        var p := slots[i];
        var found := FindLoaded(p);
        if found.Some? {
          textures := textures + [texturesLoaded[found.value]];
        } else {
          var texture := Texture(texId(TexturePath(directory, p)), typeName, p);
          textures := textures + [texture];
          texturesLoaded := texturesLoaded + [texture];
        }
        assert slots[..i + 1][..i] == slots[..i];
        i := i + 1;
      }
      assert slots[..|slots|] == slots;
    }

    /** `processMesh`: flatten vertices and faces, then load diffuse and normal maps. */
    method ProcessMesh(m: AiMesh, materials: seq<AiMaterial>, texId: string -> UInt32) returns (mesh: MeshData)
      requires MeshValid(m) && m.materialIndex < |materials|
      modifies this
      ensures Walked([mesh], texturesLoaded) == MeshResult(m, materials, directory, texId, old(texturesLoaded))
      ensures meshes == old(meshes) && directory == old(directory)
    {
      var vertices := FlattenVertices(m);
      var indices := CollectIndices(m.faces);
      var mat := materials[m.materialIndex];
      var diffuseMaps := LoadMaterialTextures(mat, Diffuse, "texture_diffuse", texId);
      var normalMaps := LoadMaterialTextures(mat, Normals, "texture_normal", texId);
      mesh := MeshData(vertices, indices, diffuseMaps + normalMaps);
    }

    /** The first loop of `processNode`: each listed scene mesh is processed and appended, in order. */
    method AppendMeshes(order: seq<nat>, scene: AiScene, texId: string -> UInt32)
      requires SceneValid(scene) && InRange(order, |scene.meshes|)
      modifies this
      ensures Walked(meshes, texturesLoaded)
        == Fold(Visit(scene, directory, texId), Walked(old(meshes), old(texturesLoaded)), order)
      ensures directory == old(directory)
    {
      ghost var w0 := Walked(meshes, texturesLoaded);
      var i := 0;
      while i < |order|
        invariant i <= |order| && directory == old(directory)
        invariant Walked(meshes, texturesLoaded) == Fold(Visit(scene, directory, texId), w0, order[..i])
      {
        FoldSnoc(Visit(scene, directory, texId), w0, order, i);
        VisitMesh(scene, directory, texId, Walked(meshes, texturesLoaded), order[i]);
        var mesh := ProcessMesh(scene.meshes[order[i]], scene.materials, texId);
        meshes := meshes + [mesh];
        i := i + 1;
      }
      assert order[..i] == order;
    }

    /**
     * `processNode`: the node's meshes are appended in order, then each
     * child is walked in order (by `WalkIsPreOrder`, the meshes come in
     * pre-order).
     */
    method ProcessNode(node: AiNode, scene: AiScene, texId: string -> UInt32)
      requires SceneValid(scene) && NodeValid(node, |scene.meshes|)
      modifies this
      ensures Walked(meshes, texturesLoaded)
        == WalkTree(Visit(scene, directory, texId), Walked(old(meshes), old(texturesLoaded)), node)
      ensures directory == old(directory)
      decreases node, 1
    {
      assert InRange(node.meshes, |scene.meshes|);
      AppendMeshes(node.meshes, scene, texId);
      ProcessChildren(node, scene, texId, Walked(meshes, texturesLoaded));
    }

    /** The second loop of `processNode`: each child's walk in turn, starting from w. */
    method ProcessChildren(node: AiNode, scene: AiScene, texId: string -> UInt32, ghost w: Walked)
      requires SceneValid(scene) && NodeValid(node, |scene.meshes|)
      requires Walked(meshes, texturesLoaded) == w
      modifies this
      ensures Walked(meshes, texturesLoaded) == WalkChildren(Visit(scene, directory, texId), w, node, |node.children|)
      ensures directory == old(directory)
      decreases node, 0
    {
      var i := 0;
      while i < |node.children|
        invariant i <= |node.children| && directory == old(directory)
        invariant Walked(meshes, texturesLoaded) == WalkChildren(Visit(scene, directory, texId), w, node, i)
      {
        ProcessNode(node.children[i], scene, texId);
        i := i + 1;
      }
    }

    /**
     * `loadModel`: a scene that failed to import, is incomplete or has no
     * root changes nothing; otherwise the directory becomes the path up to
     * its last '/' and the root is walked.
     */
    method LoadModel(path: string, scene: Option<AiScene>, texId: string -> UInt32)
      requires Imported(scene) ==> SceneValid(scene.value) && NodeValid(scene.value.root.value, |scene.value.meshes|)
      modifies this
      ensures !Imported(scene) ==> meshes == old(meshes) && directory == old(directory) && texturesLoaded == old(texturesLoaded)
      ensures Imported(scene) ==> directory == DirectoryOf(path)
      ensures Imported(scene) ==>
        Walked(meshes, texturesLoaded)
          == Fold(Visit(scene.value, directory, texId), Walked(old(meshes), old(texturesLoaded)),
                  PreOrder(scene.value.root.value))
    {
      if !Imported(scene) {
        return;
      }
      directory := match LastSlash(path) case None => path case Some(i) => path[..i];
      PreOrderValid(scene.value.root.value, |scene.value.meshes|);
      ProcessNode(scene.value.root.value, scene.value, texId);
      WalkIsPreOrder(Visit(scene.value, directory, texId), Walked(old(meshes), old(texturesLoaded)), scene.value.root.value);
    }
  }

  /** `ReadFile` gave a scene, not flagged incomplete, with a root node. */
  predicate Imported(scene: Option<AiScene>) {
    scene.Some? && !scene.value.incomplete && scene.value.root.Some?
  }
}
