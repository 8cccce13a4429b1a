# gl-box, modelled in Dafny

gl-box is an OpenGL sandbox: a small engine (`src/glbox`) and a set of
sample programs (`src/samples`). Most of it drives the GPU. This project
models the parts that are plain sequential logic and states what they do
without a GPU. Each core source file is modelled by one or more Dafny modules:

- **StubGenerator** (`generate_cpp_files.py`) walks a tree and writes a one-line
  `#include` stub for every `.h` that has no sibling `.cpp` yet. The file system
  is a map from path to contents.
- **ShaderSource** (`Shader::loadFile`) erases leading byte-order marks and
  no-break spaces from a shader file.
- **The mesh builders** fill vertex and index buffers in nested loops:
  - **Geometry**: the plane, sphere, cube, light frustum and static cube of `Geometry.h`;
  - **MeshFactory**: `meshfactory.h`;
  - **Cubes** and **Lights**: the `makeCube` and `pushFace` lambdas;
  - **Spheres**, **UvSpheres** and **MainScene**: the 64 x 64 UV sphere of
    `Sphere.h` and `main.cpp`;
  - **StaticMeshes**: the 8-to-11-float tangent step of `StaticMesh.h`;
  - **Models**: the Assimp flattening of `model.cpp`.

  **Grids** and **Faces** hold the loop shape they share: row-major grids of
  equal blocks, and four-corner faces with two triangles.
- **Textures** describes the checker texture, the upload format and the
  shadow-map size record.
- **Raycasts** and **Physics** cover the axis-aligned boxes, the bounds of a
  vertex buffer, the octree and the nearest raycast hit.
- **The game-state machines:**
  - **EcsArkanoid3d** and its systems (`…Input`, `…Physics`, `…Logic`, `…Game`)
    model the entity-component 3D Arkanoid;
  - **EcsArkanoid** models the 2D one;
  - **OopArkanoid3d** models the object-oriented 3D one;
  - **Arkanoid3d** holds what the two 3D games share;
  - **EcsDemo** models the entity store of `ecs.h`.
- **The input handlers:** **DefaultInput** (`default.h`), **CsmDemo** (`csm.h`)
  and the callbacks in **Lights** and **MainScene**.
- **Model** loads a model and keeps its path-keyed texture cache.

Code the source writes as loops over mutable state is modelled as Dafny
methods with loop invariants. Objects whose fields the source updates in
place are classes. Each method is proved to compute a specification
function, and the lemmas about those functions state what the source
promises.

Floats are modelled as reals. Trigonometry, `normalize`, the collision
tests and the ray-slab test cannot be stated this way. They are parameters
the caller supplies, so every count, stride, index, bound and copied value
is proved for any such function.

## Model

| member | source | states |
|---|---|---|
| `Faces.QuadFan` | src/samples/cubes.h:143-144 | a face's two triangles are six indices, all among its four corners base .. base + 3 |
| `Faces.FanGridFacts` | src/samples/cubes.h:146-151 | n faces emit 6n indices, each within the 4n vertices those faces append |
| `Faces.FanAppendFacts` | src/samples/cubes.h:143-151 | appending n faces' triangles to an index list adds 6n entries, each naming one of the n faces' new vertices |
| `Faces.FanGridAt` | src/samples/cubes.h:143-144 | face k's six indices sit at 6k: base + 4k + {0, 1, 2, 0, 2, 3} |
| `Faces.FanStep` | src/samples/cubes.h:138-144 | one more face, whose first vertex is the vertex count before the call, extends the index run by that face's triangles |
| `Cubes.FacesMatchTheirNames` | src/samples/cubes.h:133-151 | each of the six faces lies in the plane its comment names (back, front, left, right, top, bottom), 0.5 along its outward normal |
| `Cubes.FaceBlock` | src/samples/cubes.h:139-142 | a face appends exactly four vertices |
| `Cubes.Face` | src/samples/cubes.h:137-145 | the `face` lambda appends the four corners with UVs (0,0), (1,0), (1,1), (0,1) and the triangles base + {0,1,2,0,2,3}, base the vertex count before |
| `Cubes.CubeRow` | src/samples/cubes.h:146-151 | face k's four vertices are row k of the cube's vertex grid |
| `Cubes.FaceAt` | src/samples/cubes.h:146-151 | each `face` call extends the vertex and index buffers by one face |
| `Cubes.MakeCube` | src/samples/cubes.h:131-152 | `makeCube` appends 24 vertices and 36 indices, and every new index names one of the new vertices |
| `Cubes.CubeVertexAt` | src/samples/cubes.h:133-151 | vertex j of face k sits at 4k + j: that face's corner j with UV j of the face pattern |
| `Textures.CDiv` | src/glbox/Texture.h:29-30 | C++ `int` division: for a non-negative dividend and positive divisor it is the mathematical quotient |
| `Textures.CheckerPixel` | src/glbox/Texture.h:31-35 | each pixel is three bytes |
| `Textures.CheckerLength` | src/glbox/Texture.h:26 | the checker buffer holds size * size * 3 bytes |
| `Textures.CheckerPixelAt` | src/glbox/Texture.h:27-35 | pixel (x, y) is the three bytes at (y * size + x) * 3: (230, 80, 80) when its cell parity is odd, (40, 200, 240) otherwise |
| `Textures.SingleCheckIsUniform` | src/glbox/Texture.h:29-31 | with at most one check every pixel has the even colour |
| `Textures.MakeCheckerTex` | src/glbox/Texture.h:25-37 | the pixel loops leave exactly the checker image in the zero-filled buffer, for every size, a non-positive one included |
| `Textures.CheckerRow` | src/glbox/Texture.h:28-36 | one pass of the outer loop paints row y and keeps the rows before it |
| `Textures.WritePixel` | src/glbox/Texture.h:33-35 | the three writes of a pixel set its bytes and leave every earlier byte |
| `Textures.LoadFormat` | src/glbox/Texture.h:61-65 | one component gives GL_RED, four GL_RGBA, every other count GL_RGB |
| `Textures.GreyAlphaMismatch` | src/glbox/Texture.h:61-68 | a two-component image is uploaded with a format whose pixels are not two bytes |
| `Textures.LoadFormatCorrected` | src/glbox/Texture.h:61-65 | the corrected choice reads exactly as many bytes per pixel as the image has components, and agrees with the source for every count but two |
| `Textures.LoadFormatMatches` | src/glbox/Texture.h:61-65 | for 1, 3 and 4 components the source's format already matches the image |
| `Textures.CreateDepthMapFBO` | src/glbox/Texture.h:87-116 | the record carries the requested width and height and the ids GL generated |
| `Textures.DefaultShadowSize` | src/glbox/Texture.h:87 | without size arguments the shadow map is 4096 x 4096 |
| `Lights.LitBlock` | src/samples/lights.h:175-178 | `pushFace` appends exactly four vertices |
| `Lights.PushFace` | src/samples/lights.h:171-181 | `pushFace` appends the four corners with UVs (0,0), (1,0), (1,1), (0,1) and normal n, then base + {0,1,2,0,2,3}, base the old vertex count |
| `Lights.LitRow` | src/samples/lights.h:188-193 | face k's four vertices are row k of the lit cube's vertex grid |
| `Lights.LitStep` | src/samples/lights.h:188-193 | appending face k's block extends the vertex grid by row k |
| `Lights.PushFaceAt` | src/samples/lights.h:188-193 | each `pushFace` call extends the vertex and index buffers by one face |
| `Lights.MakeCube` | src/samples/lights.h:183-194 | `makeCube` appends 24 vertices and 36 indices, every new index naming a new vertex |
| `Lights.LitVertexAt` | src/samples/lights.h:184-193 | vertex j of face k sits at 4k + j: that face's corner j, UV j and the face's normal |
| `Lights.NormalsPointOut` | src/samples/lights.h:188-193 | each face's normal points out of the cube: its corners lie 0.5 along it |
| `Lights.Toggled` | src/samples/lights.h:265-268 | a flag changes exactly on a press of its key |
| `Lights.ToggleTwice` | src/samples/lights.h:267-268 | two presses restore a flag |
| `Lights.Controls.constructor` | src/samples/lights.h:251-252 | both flags start false |
| `Lights.Controls.KeyCallback` | src/samples/lights.h:264-270 | only a press acts: P flips pause, F1 flips wireframe, Escape requests the window to close |
| `Lights.Camera.constructor` | src/samples/lights.h:231-238 | the camera's member initialisers |
| `Lights.Camera.MouseMove` | src/samples/lights.h:254-263 | the first event only records the cursor; each event turns yaw and pitch by the offset times the sensitivity, pitch clamped to [-89, 89], and nothing else changes |
| `Lights.SrgbFormats` | src/samples/lights.h:210-211 | four channels upload as GL_RGBA into GL_SRGB8_ALPHA8, every other count as GL_RGB into GL_SRGB8 |
| `Lights.SrgbFormatsFit` | src/samples/lights.h:197-211 | the upload reads exactly the image's bytes per pixel exactly for 3 and 4 channels |
| `Geometry.PlaneVertex` | src/glbox/geometry/Geometry.h:35-50 | a plane vertex is eight floats |
| `Geometry.GeneratePlane` | src/glbox/geometry/Geometry.h:18-71 | the output vectors are cleared and filled with one vertex per grid point and two triangles per cell; with non-negative segment counts (segX + 1)(segZ + 1) vertices and 6 segX segZ indices, each below the vertex count |
| `Geometry.PlaneQuadFormula` | src/glbox/geometry/Geometry.h:57-68 | cell (z, x) emits v1, v2, v3, v2, v4, v3 with v1 = z(segX + 1) + x, v2 = v1 + 1, v3 = v1 + segX + 1, v4 = v3 + 1 |
| `Geometry.PlaneVertexLayout` | src/glbox/geometry/Geometry.h:33-52 | grid point (z, x) is the 8 floats at (z(segX + 1) + x) * 8: position y 0, normal (0, 1, 0) |
| `Geometry.PlaneIndexFacts` | src/glbox/geometry/Geometry.h:55-70 | 6 segX segZ indices, all below the (segX + 1)(segZ + 1) vertices |
| `Geometry.SphereVertex` | src/glbox/geometry/Geometry.h:86-105 | a sphere vertex is eight floats |
| `Geometry.GenerateSphere` | src/glbox/geometry/Geometry.h:76-124 | cleared outputs, one vertex per ring and sector, two triangles between neighbouring rings; with at least two rings and sectors rings * sectors vertices and 6 (rings - 1)(sectors - 1) indices, each below the vertex count |
| `Geometry.SphereQuadFormula` | src/glbox/geometry/Geometry.h:108-121 | cell (r, s) emits v1, v3, v4, v1, v2, v3 with the source's v1 .. v4 |
| `Geometry.SphereVertexLayout` | src/glbox/geometry/Geometry.h:86-105 | rings x sectors vertices of 8 floats, ring by ring; vertex (r, s) is the block at (r * sectors + s) * 8 |
| `Geometry.SphereVertexScaled` | src/glbox/geometry/Geometry.h:92-103 | a vertex is its position, equal to its normal scaled by the radius, then the normal and the UV |
| `Geometry.SphereIndexFacts` | src/glbox/geometry/Geometry.h:108-121 | 6 (rings - 1)(sectors - 1) indices, all below rings * sectors |
| `Geometry.CubeFaces` | src/glbox/geometry/Geometry.h:140-169 | the face table has six faces |
| `Geometry.CubeFacesShape` | src/glbox/geometry/Geometry.h:140-169 | every face has four corners and the UVs (0,0), (1,0), (1,1), (0,1), and lies at distance h along its normal |
| `Geometry.GenerateCube` | src/glbox/geometry/Geometry.h:129-194 | 24 vertices of 8 floats laid out face by face, and 36 indices, all below 24 |
| `Geometry.EmitFaces` | src/glbox/geometry/Geometry.h:171-193 | the face loop appends each face's four corners and offset + {0,1,2,0,2,3}, offset growing by four per face |
| `Geometry.FaceGridLayout` | src/glbox/geometry/Geometry.h:172-184 | corner i of face f is the 8 floats at (4f + i) * 8: corner, face normal, corner UV |
| `Geometry.FrustumCorners` | src/glbox/geometry/Geometry.h:206-215 | the light frustum has eight corners |
| `Geometry.AddVertex` | src/glbox/geometry/Geometry.h:217-219 | `addVertex` appends exactly eight floats |
| `Geometry.FrustumFaces` | src/glbox/geometry/Geometry.h:225-242 | the 24 `addVertex` calls form six faces |
| `Geometry.FrustumFacesShape` | src/glbox/geometry/Geometry.h:206-242 | every face has four corners and the standard UVs and lies in the plane perpendicular to its normal: near at nearPlane, far at -farPlane, the sides at orthoSize |
| `Geometry.GenerateLightFrustum` | src/glbox/geometry/Geometry.h:199-248 | cleared outputs, then 192 floats laid out face by face and 36 indices, all below 24 |
| `Geometry.FaceStep` | src/glbox/geometry/Geometry.h:225-242 | four `addVertex` calls with a face's corners, normal and UVs complete that face of the vertex grid |
| `Geometry.StaticCubeBounds` | src/glbox/geometry/Geometry.h:265-299 | the static cube holds 24 vertices of 8 floats and its 36 indices are all below 24 |
| `Geometry.StaticCubeQuads` | src/glbox/geometry/Geometry.h:297-299 | the static indices are six quads, quad q naming only vertices 4q .. 4q + 3 |
| `StaticMeshes.InVertex` | src/glbox/StaticMesh.h:31 | a vertex index below the truncated vertex count names 8 floats inside the buffer |
| `StaticMeshes.TriangleTangent` | src/glbox/StaticMesh.h:46-58 | a triangle contributes no tangent exactly when its UV determinant is zero |
| `StaticMeshes.AddTriangle` | src/glbox/StaticMesh.h:36-61 | one loop pass keeps one accumulated tangent per vertex |
| `StaticMeshes.Zeros` | src/glbox/StaticMesh.h:32 | `tempTangents` starts as one zero vector per vertex |
| `StaticMeshes.Accumulate` | src/glbox/StaticMesh.h:34-62 | after any number of complete triangles there is still one tangent per vertex |
| `StaticMeshes.CalculateTangents` | src/glbox/StaticMesh.h:20-83 | an empty vertex or index buffer, or one whose length is not a multiple of 8, is returned unchanged; otherwise the result has 11 floats per vertex and is the interleaving of the input with the final tangents |
| `StaticMeshes.AccumulateTangents` | src/glbox/StaticMesh.h:32-62 | the in-place loop over the complete triangles computes the accumulated tangents |
| `StaticMeshes.InterleaveTangents` | src/glbox/StaticMesh.h:64-82 | the second loop produces each vertex's 8 input floats followed by its normalised, Gram-Schmidt-corrected tangent |
| `StaticMeshes.EmitVertex` | src/glbox/StaticMesh.h:67-80 | one pass of the second loop extends the output of the first i vertices to that of the first i + 1 |
| `StaticMeshes.CopyVertex` | src/glbox/StaticMesh.h:75-77 | the inner loop appends the 8 input floats of the vertex, in order |
| `StaticMeshes.TangentsLength` | src/glbox/StaticMesh.h:64-82 | an accepted buffer of n vertices yields 11 n floats |
| `StaticMeshes.TangentLayout` | src/glbox/StaticMesh.h:67-80 | output vertex i is input vertex i unchanged in floats 11 i .. 11 i + 7 and its tangent in 11 i + 8 .. 11 i + 10 |
| `StaticMeshes.AddTriangleAt` | src/glbox/StaticMesh.h:60 | a pass adds to vertex v the triangle's tangent once per corner at v, or nothing when the triangle is skipped |
| `StaticMeshes.AccumulateIsSum` | src/glbox/StaticMesh.h:34-62 | the accumulated tangent of a vertex is the sum over accepted triangles of tangent times the number of corners at that vertex |
| `StaticMeshes.UntouchedStaysZero` | src/glbox/StaticMesh.h:32-62 | a vertex no accepted triangle uses keeps the zero tangent |
| `StaticMeshes.AsWrittenAgreement` | src/glbox/StaticMesh.h:34-35 | the loop as written stays inside the index buffer exactly when its length is a multiple of 3, and then agrees with the loop over complete triangles |
| `StaticMeshes.AsWrittenFrom` | src/glbox/StaticMesh.h:34-35 | the same agreement from any triangle boundary on |
| `StaticMeshes.PartialTriangleReadsPastEnd` | src/glbox/StaticMesh.h:34-35 | one vertex and the single index 0: the as-written loop reads past the index buffer |
| `StaticMeshes.StoredStride` | src/glbox/StaticMesh.h:150-159 | for 8-float input the second stride check passes exactly when the buffers are non-empty or the input happens to be a multiple of 88 floats |
| `StaticMeshes.ToUInt32` | src/glbox/StaticMesh.h:161 | the `unsigned int` cast is below 2^32 and is the identity on values below 2^32 |
| `StaticMeshes.StaticMesh.constructor` | src/glbox/StaticMesh.h:88-95 | the constructor stores the buffers `UpdateGeometry` stores from empty ones |
| `StaticMeshes.StaticMesh.UpdateGeometry` | src/glbox/StaticMesh.h:140-161 | input not a multiple of 8 floats sets indexCount to 0 and keeps the buffers; otherwise the vertices become the tangent-step result and the indices the input, and indexCount is the 32-bit index count exactly when that result is a multiple of 11 floats, else 0 |
| `MeshFactory.CubeCornerFacts` | src/samples/objects/geometry/meshfactory.h:9-12 | 8 positions of 3 floats, every coordinate 0.5 or -0.5 |
| `MeshFactory.CreateCube` | src/samples/objects/geometry/meshfactory.h:9-16 | the cube mesh has 8 positions of 3 floats and 12 triangles of 3 indices; `CubeCornerFacts`, `CubeTriangleBounds` and `CubeCornersUsed` state the rest |
| `MeshFactory.CubeTriangleBounds` | src/samples/objects/geometry/meshfactory.h:13-15 | 36 indices, all below 8 |
| `MeshFactory.CubeCornersUsed` | src/samples/objects/geometry/meshfactory.h:13-15 | every corner is used by some triangle |
| `MeshFactory.SpherePosition` | src/samples/objects/geometry/meshfactory.h:26-28 | a sphere position is three floats |
| `MeshFactory.CreateSphere` | src/samples/objects/geometry/meshfactory.h:19-44 | one position per (y, x) for y <= latSeg, x <= longSeg and two triangles per cell; with non-negative segment counts (latSeg + 1)(longSeg + 1) positions and 6 latSeg longSeg indices below that count |
| `MeshFactory.SphereQuadFormula` | src/samples/objects/geometry/meshfactory.h:33-40 | cell (y, x) emits a, b, a + 1, b, b + 1, a + 1 |
| `MeshFactory.SpherePositionLayout` | src/samples/objects/geometry/meshfactory.h:22-30 | position (y, x) is the 3 floats at (y (longSeg + 1) + x) * 3, the direction scaled by the radius |
| `MeshFactory.SphereIndexFacts` | src/samples/objects/geometry/meshfactory.h:31-42 | 6 latSeg longSeg indices, all below (latSeg + 1)(longSeg + 1) |
| `UvSpheres.BuildIndices` | src/glbox/geometry/Sphere.h:317-326 | the index loops build exactly the cell-by-cell index buffer |
| `UvSpheres.UvQuadFormula` | src/glbox/geometry/Sphere.h:319-324 | cell (y, x) pushes a, b, d, b, c, d with a = 65 y + x, b = 65 (y + 1) + x, c = b + 1, d = a + 1 |
| `UvSpheres.UvIndexCount` | src/glbox/geometry/Sphere.h:317-328 | the index buffer has 64 * 64 * 6 = 24576 entries |
| `UvSpheres.UvIndexFacts` | src/main.cpp:504-517 | the 24576 indices all name one of the 65 * 65 vertices |
| `UvSpheres.BuildVertices` | src/glbox/geometry/Sphere.h:303-316 | the vertex loops push one entry per (y, x) with y, x <= 64, row by row |
| `UvSpheres.UvGridAt` | src/main.cpp:490-502 | vertex (y, x) is entry 65 y + x of the 4225 pushed |
| `Spheres.VertexFloats` | src/glbox/geometry/Sphere.h:333-336 | one vertex is 11 floats |
| `Spheres.InterleaveVertices` | src/glbox/geometry/Sphere.h:329-337 | the interleaving loop produces each vertex's 11 floats in order |
| `Spheres.InitGeometry` | src/glbox/geometry/Sphere.h:296-337 | the vertex, index and interleaving loops build the sphere's data and the 24576 indices, and indexCount is their number |
| `Spheres.UploadGeometry` | src/glbox/geometry/Sphere.h:328-357 | after the upload the sphere's index count is 24576 |
| `Spheres.InterleaveAt` | src/glbox/geometry/Sphere.h:332-337 | vertex i's floats are elements 11 i .. 11 i + 10 of `data` |
| `Spheres.SphereVertexAt` | src/glbox/geometry/Sphere.h:303-337 | vertex (y, x) is its sphere point, the same point as normal, uv (x / 64, y / 64) and its column's tangent, at 11 (65 y + x); 65 * 65 vertices |
| `Spheres.NormalIsPosition` | src/glbox/geometry/Sphere.h:309-310 | every vertex's normal floats repeat its position floats |
| `Spheres.InterleaveNormal` | src/glbox/geometry/Sphere.h:333-334 | a vertex whose normal is its position repeats its first three floats |
| `Spheres.UvGridMembers` | src/glbox/geometry/Sphere.h:309-310 | every vertex the loops push has its normal equal to its position |
| `Spheres.Sphere.constructor` | src/glbox/geometry/Sphere.h:271-287 | index count 24576, the default material (white, alpha 1, metallic 0, roughness 0.5, ao 1, reflection 1, transmission 0, ior 1.52), every map id 0, no map used, no blending |
| `Spheres.Sphere.SetMaterial` | src/glbox/geometry/Sphere.h:377-381 | the eight parameters replace the material; maps and index count are kept; blending exactly when trans > 0 |
| `Spheres.Sphere.SetAlbedoTexture` | src/glbox/geometry/Sphere.h:257 | only the albedo id changes, and the albedo map is used exactly when the id is non-zero |
| `Spheres.Sphere.SetNormalTexture` | src/glbox/geometry/Sphere.h:258 | only the normal-map id changes, and that map is used exactly when the id is non-zero |
| `Spheres.Sphere.SetMetallicTexture` | src/glbox/geometry/Sphere.h:259 | only the metallic id changes, and that map is used exactly when the id is non-zero |
| `Spheres.Sphere.SetRoughnessTexture` | src/glbox/geometry/Sphere.h:260 | only the roughness id changes, and that map is used exactly when the id is non-zero |
| `Spheres.Sphere.SetAoTexture` | src/glbox/geometry/Sphere.h:261 | only the ao id changes, and that map is used exactly when the id is non-zero |
| `Spheres.Sphere.UsedMaps` | src/glbox/geometry/Sphere.h:425-467 | `draw` samples each of the five maps exactly when its id is not 0 |
| `MainScene.CubeArraySize` | src/main.cpp:447-476 | the cube array holds 36 vertices of 3 floats, the count drawn |
| `MainScene.PosNormFloats` | src/main.cpp:522-527 | one scene-sphere vertex is 6 floats |
| `MainScene.InterleavePosNorm` | src/main.cpp:519-528 | the interleaving loop yields position i then normal i for every i |
| `MainScene.BuildSceneSphere` | src/main.cpp:484-528 | 65 x 65 points as positions and normals, the 24576 indices, the 6-float interleave, indexCount the number of indices |
| `MainScene.UploadSceneSphere` | src/main.cpp:517-542 | after the upload indexCount is 24576 |
| `MainScene.PosNormAt` | src/main.cpp:520-528 | vertex i is floats 6 i .. 6 i + 5: position then normal |
| `MainScene.SceneSphereVertexAt` | src/main.cpp:490-528 | vertex (y, x) is its point twice, at 6 (65 y + x); 65 * 65 vertices |
| `MainScene.Scene.constructor` | src/main.cpp:23-49 | the globals' initial values: no GL objects, yaw -90, pitch 0, the cursor at the screen centre (640, 360), first mouse event pending, looking along -z |
| `MainScene.Scene.RenderCube` | src/main.cpp:441-478 | the cube array is uploaded to fresh objects exactly on the first call; 36 vertices are drawn on every call; nothing else changes |
| `MainScene.Scene.RenderSphere` | src/main.cpp:479-548 | the sphere is built and uploaded exactly while sphereVAO is 0, setting indexCount to 24576; indexCount indices are drawn on every call; nothing else changes |
| `MainScene.Scene.MouseCallback` | src/main.cpp:411-439 | the first event only records the cursor; yaw and pitch change by a tenth of the offset (y inverted), pitch is clamped to [-89, 89], and the camera looks along the front vector of the new angles |
| `Models.LastSlash` | src/glbox/model.cpp:59 | `find_last_of('/')` is a '/' with none after it, and is absent exactly when the path has no '/' |
| `Models.DirectoryOf` | src/glbox/model.cpp:59 | `path.substr(0, path.find_last_of('/'))`, the whole path when there is no '/'; `DirectoryRoundTrip` and `NoSlashDirectory` state it |
| `Models.DirectoryRoundTrip` | src/glbox/model.cpp:59 | with a '/' in the path, directory + '/' + name gives the path back, and the name holds no '/' |
| `Models.NoSlashDirectory` | src/glbox/model.cpp:59 | with no '/', `npos` keeps the whole path as the directory, so textures are looked for at path + "/" + name |
| `Models.UvOf` | src/glbox/model.cpp:94-103 | texture coordinates are two floats, (0, 0) without channel 0 |
| `Models.VertexBlock` | src/glbox/model.cpp:86-113 | one vertex is `VertexStride` floats: 8, or 14 with tangents and bitangents |
| `Models.FlattenVertices` | src/glbox/model.cpp:83-114 | the vertex loop builds the blocks of all vertices in order |
| `Models.PushVertex` | src/glbox/model.cpp:85-112 | one loop pass pushes exactly the floats of vertex i after those already pushed |
| `Models.FlattenPrefix` | src/glbox/model.cpp:83-114 | after k vertices there are k blocks, and later vertices only append |
| `Models.MeshVertexAt` | src/glbox/model.cpp:83-114 | vertex i occupies floats i * stride onwards: position, normal, texture coordinates or zeros, then the tangent and bitangent when present |
| `Models.VertexBlockFields` | src/glbox/model.cpp:86-113 | the fields of one block in the order pushed |
| `Models.CollectIndices` | src/glbox/model.cpp:116-121 | the face loop concatenates every face's indices in order |
| `Models.TriangleIndices` | src/glbox/model.cpp:116-121 | triangulated faces give 3 indices per face, index 3k + j being corner j of face k |
| `Models.ConcatMembers` | src/glbox/model.cpp:116-121 | an index is collected exactly when some face holds it |
| `Models.FirstWithPath` | src/glbox/model.cpp:145-153 | the search finds the first cached entry with the path, and nothing exactly when no entry has it |
| `Models.LoadSlotsPaths` | src/glbox/model.cpp:137-165 | `loadMaterialTextures` returns one texture per slot, carrying the slot's path, in slot order |
| `Models.LoadSlotsGrows` | src/glbox/model.cpp:154-162 | the cache only grows, and every new entry has the requested type name |
| `Models.LoadSlotsCached` | src/glbox/model.cpp:145-162 | every returned texture is the first cache entry with its path, so none is loaded twice |
| `Models.LoadSlotResolved` | src/glbox/model.cpp:143-162 | after a slot is handled its texture is the first cache entry with its path |
| `Models.FirstWithPathExtend` | src/glbox/model.cpp:145-153 | a path found in the cache is found at the same entry after the cache grows |
| `Models.LoadSlotsKeepsUnique` | src/glbox/model.cpp:145-162 | a cache without duplicate paths stays without them |
| `Models.CacheHit` | src/glbox/model.cpp:147-151 | a cached path returns the cached entry and loads nothing |
| `Models.CacheMiss` | src/glbox/model.cpp:154-162 | an uncached path appends exactly one entry, loaded from directory + "/" + path with the type name and path |
| `Models.PathsAppend` | src/glbox/model.cpp:128-131 | the paths of two joined texture lists are the joined paths |
| `Models.MeshTextureOrder` | src/glbox/model.cpp:123-132 | a mesh's textures carry the diffuse slots' paths followed by the normal slots' |
| `Models.InRangeAppend` | src/glbox/model.cpp:66-75 | two index runs are in range exactly when both are |
| `Models.FoldSnoc` | src/glbox/model.cpp:66-70 | visiting one more mesh index is one more step |
| `Models.FoldAppend` | src/glbox/model.cpp:64-76 | visiting two runs in turn is visiting their concatenation |
| `Models.VisitMesh` | src/glbox/model.cpp:68-69 | visiting scene mesh i appends exactly its `processMesh` result |
| `Models.VisitAppends` | src/glbox/model.cpp:66-70 | visiting scene mesh i keeps the meshes already built and appends one mesh holding its flattened vertices and its face indices |
| `Models.FoldMeshes` | src/glbox/model.cpp:64-76 | the walk keeps the meshes built before it and appends one mesh per visited index, holding that scene mesh's vertices and face indices |
| `Models.PreOrderValid` | src/glbox/model.cpp:64-76 | every index the walk visits names a scene mesh |
| `Models.WalkIsPreOrder` | src/glbox/model.cpp:64-76 | `processNode` visits the node's meshes first and then each child's subtree, that is, in pre-order |
| `Models.PreOrderOneChild` | src/glbox/model.cpp:66-75 | a root with one leaf child visits the root's meshes before the child's |
| `Models.Model.constructor` | src/glbox/model.cpp:48-62 | a model starts with no meshes, no directory and an empty cache |
| `Models.Model.FindLoaded` | src/glbox/model.cpp:145-153 | the inner loop finds the first cached entry with the path |
| `Models.Model.LoadMaterialTextures` | src/glbox/model.cpp:137-165 | the returned textures and the new cache are those of the slot-by-slot cached load; meshes and directory are kept |
| `Models.Model.ProcessMesh` | src/glbox/model.cpp:78-135 | the mesh built and the new cache are those of `processMesh`: flattened vertices, concatenated faces, diffuse then normal maps |
| `Models.Model.AppendMeshes` | src/glbox/model.cpp:66-70 | the node's listed meshes are processed and appended in order |
| `Models.Model.ProcessNode` | src/glbox/model.cpp:64-76 | meshes and cache become those of the pre-order walk of the node |
| `Models.Model.ProcessChildren` | src/glbox/model.cpp:72-75 | each child's walk runs in turn |
| `Models.Model.LoadModel` | src/glbox/model.cpp:48-62 | a failed, incomplete or rootless import changes nothing; otherwise the directory is the path up to its last '/' and the root is walked in pre-order |
| `Raycasts.Intersects` | src/glbox/physics/Raycast.h:99-103 | `BoxCollider::Intersects`: the closed intervals overlap on all three axes; its properties are `IntersectsSymmetric`, `IntersectsCommonPoint` and `TouchingBoxesIntersect` |
| `Raycasts.IntersectsSymmetric` | src/glbox/physics/Raycast.h:99-103 | the box overlap test is symmetric |
| `Raycasts.IntersectsCommonPoint` | src/glbox/physics/Raycast.h:99-103 | non-inverted boxes intersect exactly when they share a point |
| `Raycasts.TouchingBoxesIntersect` | src/glbox/physics/Raycast.h:99-103 | boxes sharing only a face intersect (the comparisons are closed) |
| `Raycasts.Contains` | src/glbox/physics/Raycast.h:108-112 | `BoxCollider::Contains`: the other box lies within this one on all three axes; its properties are `ContainsFacts` and `ContainsPoints` |
| `Raycasts.ContainsFacts` | src/glbox/physics/Raycast.h:108-112 | containment is reflexive and transitive, and a box containing a non-inverted box intersects it |
| `Raycasts.ContainsPoints` | src/glbox/physics/Raycast.h:108-112 | a point of a contained box lies in the containing box |
| `Raycasts.BoundsEnclose` | src/glbox/physics/Raycast.h:56-64 | every sampled position lies in the computed bounds |
| `Raycasts.GrowStep` | src/glbox/physics/Raycast.h:57-63 | one loop pass extends the bounds from the samples below i to those below i + stride |
| `Raycasts.CalculateFromVertices` | src/glbox/physics/Raycast.h:46-65 | a non-positive stride or an empty buffer gives the zero box; otherwise the box is the tightest one over every sampled position (each bound is attained, or stays at its start value when nothing is sampled) |
| `Raycasts.AsWrittenReadsPastEnd` | src/glbox/physics/Raycast.h:56-59 | a buffer of 4 floats with stride 3: the loop as written visits i = 3 and reads `vertices[4]` and `vertices[5]` |
| `Raycasts.CorrectedAgrees` | src/glbox/physics/Raycast.h:56-64 | where the loop as written stays in bounds it visits exactly the corrected loop's samples |
| `Raycasts.Octant` | src/glbox/physics/Raycast.h:177-187 | child i's bounds: the centre splits each axis, and child i takes the upper half along the axes the source lists for it (-, x, y, z, xy, xz, yz, xyz); `OctantsPartition` states that the octants are contained in the box and cover it |
| `Raycasts.Subdivide` | src/glbox/physics/Raycast.h:177-190 | `OctreeNode::Subdivide`: eight new leaves over the octants, the objects kept, `isLeaf` cleared; `SubdivideShape` states it |
| `Raycasts.SubdivideShape` | src/glbox/physics/Raycast.h:177-190 | `Subdivide` gives eight empty leaves over the octants, keeps the objects and clears `isLeaf` |
| `Raycasts.OctantsPartition` | src/glbox/physics/Raycast.h:178-187 | every octant of a non-inverted box is non-inverted and inside it, and the octants cover it |
| `Raycasts.GetChildIndexForAABB` | src/glbox/physics/Raycast.h:277-293 | the index of the only child containing the box, and -1 exactly when there is no such single child |
| `Raycasts.StoresPush` | src/glbox/physics/Raycast.h:304 | pushing an object onto a node adds exactly that object to what the node stores |
| `Raycasts.InsertRecursive` | src/glbox/physics/Raycast.h:296-341 | a box missing the node changes nothing; a leaf takes the object and splits into the octants when overfull above the depth limit; an inner node passes it to the only child containing it or keeps it; bounds and well-formedness are kept, nothing but the object is added, and nothing recorded is lost |
| `Raycasts.Redistribute` | src/glbox/physics/Raycast.h:312-327 | after a split each moved object goes to its only containing child or stays; nothing is lost or invented |
| `Raycasts.FoundStored` | src/glbox/physics/Raycast.h:343-362 | a query reaches only objects the tree holds |
| `Raycasts.FoundAtChild` | src/glbox/physics/Raycast.h:357-360 | an object found below a child whose parent the ray hits is found from the parent |
| `Raycasts.QueryRecursive` | src/glbox/physics/Raycast.h:343-362 | the hit set gains exactly the objects reached through nodes the ray hits |
| `Raycasts.SortedElements` | src/glbox/physics/Raycast.h:269 | the set's elements, each once, ascending |
| `Raycasts.Octree.constructor` | src/glbox/physics/Raycast.h:205-208 | a leaf root over the given bounds, no recorded boxes, limits 8 and 10 by default |
| `Raycasts.Octree.Clear` | src/glbox/physics/Raycast.h:217-221 | a fresh leaf root over the inverted default box and no recorded boxes; limits kept |
| `Raycasts.Octree.Insert` | src/glbox/physics/Raycast.h:256-259 | records the box, then inserts from the root at depth 0: nothing stored is lost, only the object is added, and a box missing the root changes no node |
| `Raycasts.Octree.Query` | src/glbox/physics/Raycast.h:265-270 | the objects the ray reaches through the tree, each once, ascending |
| `Physics.RaycastHit.constructor` | src/glbox/physics/Raycast.h:145-150 | no hit, distance `FLT_MAX`, no object |
| `Physics.Nearest` | src/glbox/physics/Physics.h:25-56 | the record after the first k candidates is never farther than the one it started from, and is either that record or a hit naming one of those candidates |
| `Physics.NearestFacts` | src/glbox/physics/Physics.h:25-56 | no candidate is hit nearer than the record; a hit is recorded exactly when some candidate is hit below `FLT_MAX`, and then the record is the first candidate at the least distance, with its point on the ray |
| `Physics.PerformRaycast` | src/glbox/physics/Physics.h:7-59 | resets the record, takes the octree's ascending candidates, keeps the nearest hit and returns whether one was found |
| `DefaultInput.OneTogglePerPress` | src/samples/default.h:305-326 | over any run of frames the cursor flag flips exactly once per new press of L that ImGui leaves to the game |
| `DefaultInput.HoldingL` | src/samples/default.h:314-323 | holding L down after the press was seen changes nothing |
| `DefaultInput.Input.constructor` | src/samples/default.h:35-40 | cursor disabled, L not pressed, first mouse event pending, cursor at the screen centre |
| `DefaultInput.Input.ProcessInput` | src/samples/default.h:305-326 | the toggle takes one edge-detecting step; a cursor mode is set exactly when the flag flips, normal when enabled; the mouse record is kept |
| `DefaultInput.Input.MouseCallback` | src/samples/default.h:337-362 | ignored while ImGui wants the mouse or the cursor is free; otherwise the offsets since the last event (zero on the first, y inverted) go to the camera and the cursor is recorded |
| `CsmDemo.CascadePlanes` | src/samples/csm.h:293-294 | cascade i spans from 0.1 (i = 0) or the previous split to its own split |
| `CsmDemo.CascadesOrdered` | src/samples/csm.h:291-296 | with increasing splits every cascade's range is non-empty and consecutive cascades meet |
| `CsmDemo.DemoCascades` | src/samples/csm.h:281-296 | the demo's splits give the cascades (0.1, 10), (10, 30) and (30, 100) |
| `CsmDemo.OrthoSize` | src/samples/csm.h:295 | the orthographic half-width is half the cascade's far plane |
| `CsmDemo.Demo.constructor` | src/samples/csm.h:195-213 | 1024 keys all up, the cursor at the screen centre, first event pending, yaw -90 and pitch 0 |
| `CsmDemo.Demo.KeyCallback` | src/samples/csm.h:215 | for a key in [0, 1024) a press sets it and a release clears it; any other key or action changes nothing |
| `CsmDemo.Demo.MouseCallback` | src/samples/csm.h:217-225 | the first event only records the cursor; yaw and pitch change by a tenth of the offset (y inverted), pitch is clamped to [-89, 89] |
| `EcsDemo.WrapSucc` | src/samples/ecs.h:175 | counting on from a wrapped id wraps like counting on from the count |
| `EcsDemo.EntityManager.constructor` | src/samples/ecs.h:158-172 | a valid manager with no entities and `nextID` 0 |
| `EcsDemo.EntityManager.CreateEntity` | src/samples/ecs.h:174-186 | hands out `nextID`, bumps it modulo 2^32, and appends the id and one default component to every vector; the vectors stay aligned |
| `EcsDemo.EntityManager.IdsDistinct` | src/samples/ecs.h:174-186 | with at most 2^32 entities no id repeats |
| `EcsDemo.EntityManager.DestroyEntity` | src/samples/ecs.h:188-190 | `destroyEntity` only reports the id: the manager is unchanged |
| `EcsDemo.SetupRanges` | src/samples/ecs.h:398-415 | the first 50 entities circle at speed 1, the rest move on a sine at a speed in [2, 3]; colours lie in [0, 1] with alpha 1 |
| `EcsDemo.RandCallsDisjoint` | src/samples/ecs.h:406-415 | each entity's `rand()` calls come after all of the previous entity's |
| `EcsDemo.SetUpEntity` | src/samples/ecs.h:398-419 | the loop body gives entity i its movement, position, colour and rotation and consumes its `rand()` calls; nothing else changes |
| `EcsDemo.SetupEntities` | src/samples/ecs.h:391-420 | 100 entities with ids 0 .. 99, each carrying the components the loop gives it |
| `EcsDemo.SetUpExtends` | src/samples/ecs.h:395-420 | setting up entity i keeps the earlier entities set up |
| `EcsDemo.InstanceData` | src/samples/ecs.h:247-262 | nothing is drawn without entities; otherwise one model matrix per world matrix and one vec4 per colour, in order |
| `EcsArkanoid.Append` | src/samples/ecs_arkanoid.h:117-123 | appending an entity keeps the six vectors the same length, one longer |
| `EcsArkanoid.EntityManager.constructor` | src/samples/ecs_arkanoid.h:100-111 | a valid manager with no entities and `nextID` 0 |
| `EcsArkanoid.EntityManager.IsAlive` | src/samples/ecs_arkanoid.h:135-137 | `isAlive`: the id is inside the vectors and its flag is set |
| `EcsArkanoid.EntityManager.CreateEntity` | src/samples/ecs_arkanoid.h:114-129 | hands out `nextID` and bumps it modulo 2^32; an id past the vectors appends one default entry to each, alive; an id inside them only revives it; until 2^32 ids the id is the old length |
| `EcsArkanoid.EntityManager.DestroyEntity` | src/samples/ecs_arkanoid.h:131-133 | an id inside the vectors stops being alive and nothing else changes; any other id changes nothing |
| `EcsArkanoid.EntityManager.FirstFromFacts` | src/samples/ecs_arkanoid.h:141-148 | the scan from i finds the least alive index of the kind at or after i, and `NotFound` when there is none |
| `EcsArkanoid.EntityManager.FirstOfKindFacts` | src/samples/ecs_arkanoid.h:141-148 | `findFirstOfType` is the least alive index of the kind, or `(EntityID)-1` when there is none |
| `EcsArkanoid.EntityManager.FirstFrom` | src/samples/ecs_arkanoid.h:141-148 | the scan from i answers `(EntityID)-1` or an index from i on inside the vectors |
| `EcsArkanoid.EntityManager.FirstOfKind` | src/samples/ecs_arkanoid.h:141-148 | `findFirstOfType` answers `(EntityID)-1` or an index inside the vectors |
| `EcsArkanoid.EntityManager.FindFirstOfType` | src/samples/ecs_arkanoid.h:141-148 | the loop answers what `FirstOfKind` specifies |
| `EcsArkanoid.Game.constructor` | src/samples/ecs_arkanoid.h:89-90 | score 0 and `INITIAL_LIVES` lives |
| `EcsArkanoid.Game.ResetGame` | src/samples/ecs_arkanoid.h:270-280 | lives back to 3, score 0, every brick alive again, every other flag and component kept |
| `EcsArkanoid.Game.ResetBallAndPaddle` | src/samples/ecs_arkanoid.h:282-293 | the positions become `RoundPositions` and the velocities `RoundVelocities` of the old ones; nothing else changes |
| `EcsArkanoid.RoundPositions` | src/samples/ecs_arkanoid.h:284-290 | the ball at (SCR_WIDTH / 2, BALL_START_Y), the paddle (when found and distinct) at (SCR_WIDTH / 2, PADDLE_START_Y), every other position kept |
| `EcsArkanoid.RoundVelocities` | src/samples/ecs_arkanoid.h:291-292 | the ball moves at BALL_INITIAL_SPEED_Y vertically and ±BALL_INITIAL_SPEED_X sideways as the coin says, every other velocity kept |
| `EcsArkanoid.Game.HitOneBrick` | src/samples/ecs_arkanoid.h:364-389 | the first alive brick the ball touches is destroyed, scores 100 and bounces the ball: its velocity is reflected in that brick's contact normal and sped up by 1.02; no earlier alive brick was touched; with none touched the flags, score and velocities stay |
| `EcsArkanoid.Game.BallUpdate` | src/samples/ecs_arkanoid.h:296-390 | no ball: nothing happens; a fall costs a life, the last one restores 3 lives, score 0 and all bricks, and either way the positions and velocities become those `resetBallAndPaddle` gives for the ball and paddle found before the frame; otherwise the ball takes the moved position, and either no alive brick is touched and the flags and score stay with the ball at the steered velocity, or the first touched alive brick dies, scores 100 and the ball leaves with the bounced velocity; lives stay in [1, 3] and the score a multiple of 100 |
| `EcsArkanoid.FirstTouchedUnique` | src/samples/ecs_arkanoid.h:364-387 | the brick loop with `break` has at most one first touched alive brick, and none when no brick is touched |
| `EcsArkanoid.Bounce` | src/samples/ecs_arkanoid.h:377-385 | the brick bounce, `v - 2 (v . n) n` with each component times `BALL_SPEEDUP_FACTOR`; `BounceUnit` states its effect |
| `EcsArkanoid.BounceUnit` | src/samples/ecs_arkanoid.h:377-385 | in a unit normal the brick bounce negates the normal component and keeps the tangential one, both times 1.02, so the speed grows by exactly 1.02 |
| `EcsArkanoid.SlotBelow` | src/samples/ecs_arkanoid.h:439-441 | brick (r, c) is entity r * cols + c of the grid, below rows * cols |
| `EcsArkanoid.CreateBrick` | src/samples/ecs_arkanoid.h:441-451 | one new entity becomes a brick at its grid place with the brick size and a colour from three `rand()` values |
| `EcsArkanoid.BrickStep` | src/samples/ecs_arkanoid.h:439-453 | one more brick keeps the entities before it and the bricks made so far |
| `EcsArkanoid.PlacedKept` | src/samples/ecs_arkanoid.h:439-453 | a brick already at its slot stays there when another entity is created |
| `EcsArkanoid.PlacedNew` | src/samples/ecs_arkanoid.h:441-451 | the entity created for (r, c) sits at slot r * cols + c with brick (r, c)'s components |
| `EcsArkanoid.PlacedStep` | src/samples/ecs_arkanoid.h:440-452 | one pass of the column loop places brick (r, c) and keeps every brick before it in row-major order |
| `EcsArkanoid.PlacedRow` | src/samples/ecs_arkanoid.h:439-453 | a finished column loop has placed every brick of the rows so far |
| `EcsArkanoid.CreateBricksGrid` | src/samples/ecs_arkanoid.h:438-454 | rows * cols new entities, all alive bricks, brick (r, c) the entity r * cols + c after the earlier ones, at its grid place and coloured from `rand()` values 3 (r * cols + c) to 3 (r * cols + c) + 2, every earlier entity kept, three `rand()` calls per brick |
| `EcsArkanoid.CreatePaddle` | src/samples/ecs_arkanoid.h:459-465 | a new entity becomes the paddle: bottom centre, 200 x 20, yellow |
| `EcsArkanoid.CreateBall` | src/samples/ecs_arkanoid.h:468-476 | a new entity becomes the ball: above the paddle, 16 x 16, orange, moving up and to the side the coin picks |
| `EcsArkanoid.SetupGame` | src/samples/ecs_arkanoid.h:457-488 | on a fresh manager: the paddle is entity 0, the ball 1, and entities 2 .. 61 the 10 x 6 bricks of size 100 x 30 with padding 8, brick (r, c) entity 2 + 10 r + c at x = 154 + 108 c, y = 600 - 38 r, coloured from `rand()` values 3 (10 r + c) on |
| `EcsArkanoid.SetupFinds` | src/samples/ecs_arkanoid.h:297-298 | after setup `findFirstOfType` finds the paddle at 0 and the ball at 1, and the alive bricks are exactly entities 2 .. 61 |
| `OopArkanoid3d.NewBrick` | src/samples/oop_arkanoid3d.h:293-304 | a new brick is alive, has the given transform and colour, and caches its transform's matrix |
| `OopArkanoid3d.DeadCount` | src/samples/oop_arkanoid3d.h:669-694 | the dead bricks are at most all bricks |
| `OopArkanoid3d.DeadCountBounds` | src/samples/oop_arkanoid3d.h:708-711 | all bricks are dead exactly when the dead count is the brick count; none is dead when all are alive |
| `OopArkanoid3d.Kill` | src/samples/oop_arkanoid3d.h:672 | killing brick i keeps the brick count and leaves brick i dead |
| `OopArkanoid3d.KillCounts` | src/samples/oop_arkanoid3d.h:672 | killing an alive brick raises the dead count by exactly one |
| `OopArkanoid3d.FadesTransitive` | src/samples/oop_arkanoid3d.h:669-694 | fading over two frames is fading |
| `OopArkanoid3d.FadesCount` | src/samples/oop_arkanoid3d.h:669-694 | a dead brick stays dead and the dead count never falls |
| `OopArkanoid3d.FirstHitFrom` | src/samples/oop_arkanoid3d.h:669-694 | the loop finds the first alive brick the ball touches from i on, or reports that none is touched |
| `OopArkanoid3d.VisibleFacts` | src/samples/oop_arkanoid3d.h:736-741 | the render list holds exactly the alive bricks, as many as are not dead |
| `OopArkanoid3d.MatricesLength` | src/samples/oop_arkanoid3d.h:738-739 | one cached matrix and one colour per listed brick, each that brick's |
| `OopArkanoid3d.VisibleStep` | src/samples/oop_arkanoid3d.h:736-741 | one more brick extends the render lists by its matrix and colour exactly when it is alive |
| `OopArkanoid3d.WallLength` | src/samples/oop_arkanoid3d.h:545-555 | the wall holds rows * cols bricks |
| `OopArkanoid3d.WallAt` | src/samples/oop_arkanoid3d.h:545-555 | brick r * cols + c is the one built for row r, column c with its colour |
| `OopArkanoid3d.WallAlive` | src/samples/oop_arkanoid3d.h:553 | every wall brick is alive with its matrix cached |
| `OopArkanoid3d.ResetGameValid` | src/samples/oop_arkanoid3d.h:525-572 | `resetGame` gives a valid game: score 0, 3 lives, no flags, 10 * 30 alive bricks, paddle home, ball at its start velocity |
| `OopArkanoid3d.InputValid` | src/samples/oop_arkanoid3d.h:574-610 | `processInput` keeps the invariant, the bricks, score and lives, and clamps the paddle inside the field |
| `OopArkanoid3d.LaunchRule` | src/samples/oop_arkanoid3d.h:605-609 | launched afterwards exactly when launched before, or Space with the game neither over nor won |
| `OopArkanoid3d.UnlaunchedOnlyPlaces` | src/samples/oop_arkanoid3d.h:626-630 | an unlaunched ball is only placed 0.2 above the paddle's top, centred on it |
| `OopArkanoid3d.Bounce` | src/samples/oop_arkanoid3d.h:675-691 | the brick branch's bounce: reflect in `ContactNormal`, then `Speedup`; `ReflectUnit`, `ContactNormal` and `SpeedCapped` state the pieces |
| `OopArkanoid3d.AtMostOneBrick` | src/samples/oop_arkanoid3d.h:669-694 | the brick loop kills nothing, or exactly the first alive touched brick for 10 points |
| `OopArkanoid3d.FrameFades` | src/samples/oop_arkanoid3d.h:624-717 | during a frame bricks only fade |
| `OopArkanoid3d.DeathRule` | src/samples/oop_arkanoid3d.h:697-705 | a ball below MIN_Y costs exactly one life; no life left ends the game, otherwise the round restarts with the paddle home |
| `OopArkanoid3d.VictoryRule` | src/samples/oop_arkanoid3d.h:708-716 | all bricks dead wins and ends the game and grounds the ball; otherwise the won flag is kept |
| `OopArkanoid3d.StrikeValid` | src/samples/oop_arkanoid3d.h:669-694 | the brick loop keeps the invariant of 10 points per dead brick |
| `OopArkanoid3d.JudgeValid` | src/samples/oop_arkanoid3d.h:697-716 | judging a running game keeps the invariant |
| `OopArkanoid3d.PhysicsValid` | src/samples/oop_arkanoid3d.h:624-717 | `updatePhysics` keeps the invariant |
| `OopArkanoid3d.RenderCount` | src/samples/oop_arkanoid3d.h:736-747 | the number of bricks drawn is 300 minus score / 10 |
| `OopArkanoid3d.Game.constructor` | src/samples/oop_arkanoid3d.h:393-400 | the default members, then `resetGame`; the result is valid |
| `OopArkanoid3d.Game.ResetBallPaddle` | src/samples/oop_arkanoid3d.h:560-572 | the state becomes the round reset of the old state |
| `OopArkanoid3d.Game.ResetGame` | src/samples/oop_arkanoid3d.h:525-558 | the state becomes the game reset, which is valid |
| `OopArkanoid3d.Game.ProcessInput` | src/samples/oop_arkanoid3d.h:574-610 | the state becomes `Input` of the old one and stays valid |
| `OopArkanoid3d.Game.FindFirstHit` | src/samples/oop_arkanoid3d.h:669-671 | the search answers `FirstHit` |
| `OopArkanoid3d.Game.StrikeBricks` | src/samples/oop_arkanoid3d.h:669-694 | the state becomes `Strike` of the old one |
| `OopArkanoid3d.Game.JudgeFrame` | src/samples/oop_arkanoid3d.h:697-716 | the state becomes `Judge` of the old one |
| `OopArkanoid3d.Game.AllDestroyed` | src/samples/oop_arkanoid3d.h:708-711 | the victory loop answers true exactly when every brick is dead |
| `OopArkanoid3d.Flight` | src/samples/oop_arkanoid3d.h:632-666 | the flown ball keeps the x and z that integration and the walls give it, inside the walls; a paddle hit sets only y, to the paddle's top plus radius plus 0.1; without a hit the position and velocity are the walls' |
| `OopArkanoid3d.Game.UpdatePhysics` | src/samples/oop_arkanoid3d.h:624-717 | the state becomes `Physics` of the old one and stays valid |
| `OopArkanoid3d.Game.Render` | src/samples/oop_arkanoid3d.h:719-769 | the alive bricks' matrices and colours in order, drawn only when there are some, then the paddle and the ball |
| `Arkanoid3d.GetMatrix` | src/samples/oop_arkanoid3d.h:285-290 | the model matrix translates by the position and scales by the scale |
| `Arkanoid3d.CheckAABB` | src/samples/oop_arkanoid3d.h:612-618 | the ball and the box can overlap only when the radius plus the half-width and the radius plus the half-height are positive; `CheckAABBByDistance` states the test as distances |
| `Arkanoid3d.CheckAABBByDistance` | src/samples/oop_arkanoid3d.h:612-618 | the overlap test holds exactly when the centres are closer than the radius plus the half-size on both x and y |
| `Arkanoid3d.Reflect` | src/samples/oop_arkanoid3d.h:620-622 | `reflectVector` scales the normal component by 1 - 2 (n . n), so a unit normal negates it; `ReflectUnit` and `ReflectAxes` state the rest |
| `Arkanoid3d.ReflectUnit` | src/samples/oop_arkanoid3d.h:620-622 | in a unit normal, reflection negates the normal component and keeps the tangential one |
| `Arkanoid3d.ReflectAxes` | src/samples/oop_arkanoid3d.h:620-622 | the axis normals flip exactly one velocity component |
| `Arkanoid3d.Speedup` | src/samples/oop_arkanoid3d.h:686-691 | the velocity times 1.15, replaced by the capped vector exactly when its length then exceeds 40; `SpeedCapped` bounds the speed |
| `Arkanoid3d.SpeedCapped` | src/samples/oop_arkanoid3d.h:686-691 | after a speed-up the speed never exceeds MAX_SPEED |
| `Arkanoid3d.ContactNormal` | src/samples/oop_arkanoid3d.h:675-683 | the brick contact normal is a unit vector |
| `Arkanoid3d.Above` | src/samples/oop_arkanoid3d.h:626-630 | the resting ball is centred on the paddle, half its height plus radius plus the lift above it |
| `Arkanoid3d.Walls` | src/samples/oop_arkanoid3d.h:634-645 | the ball ends inside [MIN_X, MAX_X] and below MAX_Y; a velocity component flips exactly when its wall was reached |
| `Arkanoid3d.WallSpansField` | src/samples/oop_arkanoid3d.h:537-555 | the brick wall spans the field: the first column starts at MIN_X, the last ends at MAX_X, neighbours are 0.2 apart |
| `EcsArkanoid3d.TagOf` | src/samples/ecs_arkanoid3d.h:446 | `registry.tags[entity].type`: the stored tag, or the default None tag when the entity has none; `TouchedTags` states what `operator[]` does to the map |
| `EcsArkanoid3d.Get` | src/samples/ecs_arkanoid3d.h:401-407 | `getComponent` is null exactly when the map lacks the entity, otherwise the stored component |
| `EcsArkanoid3d.AddThenGet` | src/samples/ecs_arkanoid3d.h:393-399 | after `addComponent` the entity has exactly the new component and no other entity's changed |
| `EcsArkanoid3d.WalkDone` | src/samples/ecs_arkanoid3d.h:415 | a range-for over an `unordered_map` has visited every key once it is finished |
| `EcsArkanoid3d.Remove` | src/samples/ecs_arkanoid3d.h:364 | erase-remove keeps exactly the entries other than e |
| `EcsArkanoid3d.RemoveCount` | src/samples/ecs_arkanoid3d.h:364 | erase-remove drops exactly the occurrences of e and leaves a list without e unchanged |
| `EcsArkanoid3d.CreateFresh` | src/samples/ecs_arkanoid3d.h:357-361 | until the ids wrap, `createEntity` returns a non-null id not yet in use, appends it and advances `nextId` past it |
| `EcsArkanoid3d.DestroyGone` | src/samples/ecs_arkanoid3d.h:363-372 | after `destroyEntity(e)` e is in no list or map, every other entity keeps its components, and `nextId` and the global state are kept |
| `EcsArkanoid3d.DestroyValid` | src/samples/ecs_arkanoid3d.h:363-372 | destroying keeps every id issued and every component owned by a listed entity |
| `EcsArkanoid3d.ClearRestarts` | src/samples/ecs_arkanoid3d.h:374-385 | after `clear` nothing is registered and the next two ids handed out are 1 and 2 |
| `EcsArkanoid3d.Ids` | src/samples/ecs_arkanoid3d.h:357-361 | the ids handed out after a clear are 1, 2, ... in creation order |
| `EcsArkanoid3d.BuiltFacts` | src/samples/ecs_arkanoid3d.h:870-918 | after `resetGame` the maps hold exactly ids 1 .. n + 2: the paddle at 1, the ball at 2, brick k at k + 3 |
| `EcsArkanoid3d.WallIndex` | src/samples/ecs_arkanoid3d.h:902-903 | brick r * COLS + c is in row r and column c |
| `EcsArkanoid3d.BrickAt` | src/samples/ecs_arkanoid3d.h:902-916 | the brick built for row r and column c sits at its wall position, with the wall's size and that cell's colour |
| `EcsArkanoid3d.Registry.constructor` | src/samples/ecs_arkanoid3d.h:334-355 | nothing registered, ids from 1, score 0, three lives, neither over nor won |
| `EcsArkanoid3d.Registry.CreateEntity` | src/samples/ecs_arkanoid3d.h:357-361 | returns the old `nextId`, appends it, and increments `nextId` modulo 2^32 |
| `EcsArkanoid3d.Registry.DestroyEntity` | src/samples/ecs_arkanoid3d.h:363-372 | e leaves the entity list and all seven component maps; nothing else changes |
| `EcsArkanoid3d.Registry.Clear` | src/samples/ecs_arkanoid3d.h:374-385 | the list and all seven maps are emptied and `nextId` is 1; the global state is kept |
| `EcsArkanoid3d.Registry.AddTag` | src/samples/ecs_arkanoid3d.h:393 | the tag map gets e mapped to the new component; nothing else changes |
| `EcsArkanoid3d.Registry.AddTransform` | src/samples/ecs_arkanoid3d.h:394 | the transform map gets e mapped to the new component; nothing else changes |
| `EcsArkanoid3d.Registry.AddRigidbody` | src/samples/ecs_arkanoid3d.h:395 | the rigid-body map gets e mapped to the new component; nothing else changes |
| `EcsArkanoid3d.Registry.AddCollider` | src/samples/ecs_arkanoid3d.h:396 | the collider map gets e mapped to the new component; nothing else changes |
| `EcsArkanoid3d.Registry.AddRenderable` | src/samples/ecs_arkanoid3d.h:397 | the render map gets e mapped to the new component; nothing else changes |
| `EcsArkanoid3d.Registry.AddPlayer` | src/samples/ecs_arkanoid3d.h:398 | the player map gets e mapped to the new component; nothing else changes |
| `EcsArkanoid3d.Registry.AddGameState` | src/samples/ecs_arkanoid3d.h:399 | the game-state map gets e mapped to the new component; nothing else changes |
| `EcsArkanoid3d.SpawnPaddle` | src/samples/ecs_arkanoid3d.h:876-882 | on a cleared registry the paddle becomes entity 1 with its tag, transform, green cube, box collider and player component |
| `EcsArkanoid3d.SpawnBall` | src/samples/ecs_arkanoid3d.h:884-891 | the ball becomes entity 2 with its tag, transform, start velocity, red sphere, sphere collider and an unlaunched game state |
| `EcsArkanoid3d.SpawnBrick` | src/samples/ecs_arkanoid3d.h:904-915 | one more brick, for row r and column c, with its four components |
| `EcsArkanoid3d.SpawnWall` | src/samples/ecs_arkanoid3d.h:902-917 | the nested loops add all ROWS * COLS bricks |
| `EcsArkanoid3d.SpawnRow` | src/samples/ecs_arkanoid3d.h:903-916 | the column loop of row r adds that row's COLS bricks after the first r rows |
| `EcsArkanoid3d.ResetGame` | src/samples/ecs_arkanoid3d.h:870-918 | the registry becomes exactly the rebuilt world: paddle, ball and the full wall, with the start global state |
| `EcsArkanoid3dInput.SteerX` | src/samples/ecs_arkanoid3d.h:427-434 | the new paddle x lies inside the field shrunk by half the paddle's width, and is the eased x whenever that already does |
| `EcsArkanoid3dInput.SteerControl` | src/samples/ecs_arkanoid3d.h:437-441 | `lastX` is the new x; when dt is positive `velocityX` is the new x minus the old x over dt, otherwise it is kept |
| `EcsArkanoid3dInput.SteeredTransforms` | src/samples/ecs_arkanoid3d.h:415-442 | steering keeps the transform keys and changes only the x of a position |
| `EcsArkanoid3dInput.SteeredPlayers` | src/samples/ecs_arkanoid3d.h:415-442 | steering keeps the player keys |
| `EcsArkanoid3dInput.TouchedTags` | src/samples/ecs_arkanoid3d.h:446 | `tags[entity]` adds a None tag for every visited entity that had none and changes no existing tag |
| `EcsArkanoid3dInput.Launched` | src/samples/ecs_arkanoid3d.h:444-451 | handling Space keeps the game-state keys |
| `EcsArkanoid3dInput.InputSteers` | src/samples/ecs_arkanoid3d.h:415-442 | every player with a transform ends inside the field with `lastX` its x and, when dt is positive, `velocityX` its x distance over dt; y, z and the scale are kept, and players without a transform are untouched |
| `EcsArkanoid3dInput.SteeredAt` | src/samples/ecs_arkanoid3d.h:415-442 | over every player in turn, a player with a transform ends inside the field minus half its width, with `lastX` its x and `velocityX` its x distance over a positive dt, kept otherwise |
| `EcsArkanoid3dInput.InputKeeps` | src/samples/ecs_arkanoid3d.h:413-453 | input changes only the transforms, players, tags and game states, and the tags and game states only when Space is down |
| `EcsArkanoid3dInput.LaunchRule` | src/samples/ecs_arkanoid3d.h:444-451 | a game state is launched afterwards exactly when it was before, or Space is down, its entity is tagged a ball and the game is not over |
| `EcsArkanoid3dInput.SteerStep` | src/samples/ecs_arkanoid3d.h:415-442 | one more visited player changes only its own transform's x and its own player component |
| `EcsArkanoid3dInput.LaunchStep` | src/samples/ecs_arkanoid3d.h:445-450 | one more visited game state is launched exactly when the loop's condition holds for it |
| `EcsArkanoid3dInput.SteerOne` | src/samples/ecs_arkanoid3d.h:425-441 | the loop body moves the transform's x to `SteerX` and sets the player component to `SteerControl` |
| `EcsArkanoid3dInput.SteerPaddles` | src/samples/ecs_arkanoid3d.h:415-442 | the walk over the players, in any visiting order, leaves exactly the steered transforms and players |
| `EcsArkanoid3dInput.LaunchBalls` | src/samples/ecs_arkanoid3d.h:444-451 | the walk over the game states, in any visiting order, leaves exactly the touched tags and launched states |
| `EcsArkanoid3dInput.InputUpdate` | src/samples/ecs_arkanoid3d.h:413-453 | the registry afterwards is `Input` of the old one |
| `EcsArkanoid3dPhysics.FirstFrom` | src/samples/ecs_arkanoid3d.h:468-477 | the position of the first entity from i on with the wanted tag, with no earlier one so tagged; none when there is none |
| `EcsArkanoid3dPhysics.FirstTagged` | src/samples/ecs_arkanoid3d.h:468-477 | the walk with `break` yields an entity of the walk with the tag, or none when no entity has it |
| `EcsArkanoid3dPhysics.FirstTaggedIsFirst` | src/samples/ecs_arkanoid3d.h:468-477 | when position i is the first with the tag, the walk yields that entity |
| `EcsArkanoid3dPhysics.OrNull` | src/samples/ecs_arkanoid3d.h:461 | not found is `NULL_ENTITY`, found is the entity |
| `EcsArkanoid3dPhysics.FindFirst` | src/samples/ecs_arkanoid3d.h:468-477 | the loop with `break` answers `FirstTagged` |
| `EcsArkanoid3dPhysics.PlaceBall` | src/samples/ecs_arkanoid3d.h:482-495 | only the ball's position changes: centred on the first paddle, half its height plus the radius plus 0.2 above it; nothing happens without a paddle transform |
| `EcsArkanoid3dPhysics.Fly` | src/samples/ecs_arkanoid3d.h:497-511 | only the ball's transform and rigidbody change: moved by velocity times dt, then held by the walls |
| `EcsArkanoid3dPhysics.Touch` | src/samples/ecs_arkanoid3d.h:517-562 | a brick is reported exactly when it is touched, and then scores SCORE_PER_BRICK; only a touched paddle moves the ball, 0.1 above its top; an untouched target changes nothing |
| `EcsArkanoid3dPhysics.CollideScore` | src/samples/ecs_arkanoid3d.h:517-562 | over the whole collider walk the score rises by SCORE_PER_BRICK per brick reported |
| `EcsArkanoid3dPhysics.CollideReports` | src/samples/ecs_arkanoid3d.h:517-562 | every reported entity is a brick of the walk other than the ball, and none is reported twice |
| `EcsArkanoid3dPhysics.TouchedBricks` | src/samples/ecs_arkanoid3d.h:517-562 | the listed bricks are walk entries with a transform that the ball touches |
| `EcsArkanoid3dPhysics.CollideBricksOnly` | src/samples/ecs_arkanoid3d.h:517-562 | without a paddle in the walk the ball stays put and every brick it touches is destroyed in that frame, not only the first |
| `EcsArkanoid3dPhysics.Collisions` | src/samples/ecs_arkanoid3d.h:514-563 | the collider loop, skipping the ball and entities without a transform, answers `Collide` |
| `EcsArkanoid3dPhysics.TouchOne` | src/samples/ecs_arkanoid3d.h:523-561 | the loop body answers `Touch` |
| `EcsArkanoid3dPhysics.Gone` | src/samples/ecs_arkanoid3d.h:565-567 | the set of the listed entities |
| `EcsArkanoid3dPhysics.DestroyAllKeeps` | src/samples/ecs_arkanoid3d.h:565-567 | after the destroy loop exactly the unlisted entities remain; `nextId` and the global state are kept |
| `EcsArkanoid3dPhysics.DestroyAllBodies` | src/samples/ecs_arkanoid3d.h:565-567 | the tag, transform, rigidbody and collider maps lose exactly the listed entities |
| `EcsArkanoid3dPhysics.DestroyAllViews` | src/samples/ecs_arkanoid3d.h:565-567 | the render, player and game-state maps lose exactly the listed entities |
| `EcsArkanoid3dPhysics.DestroyAllValid` | src/samples/ecs_arkanoid3d.h:565-567 | the destroy loop keeps ids issued and components owned |
| `EcsArkanoid3dPhysics.DestroyEach` | src/samples/ecs_arkanoid3d.h:565-567 | the loop leaves the registry as `DestroyAll` |
| `EcsArkanoid3dPhysics.GoneSize` | src/samples/ecs_arkanoid3d.h:565-567 | a list without repeats destroys as many entities as it holds |
| `EcsArkanoid3dPhysics.BricksMinus` | src/samples/ecs_arkanoid3d.h:565-567 | removing bricks leaves the other bricks, fewer by the number removed |
| `EcsArkanoid3dPhysics.ResolveScores` | src/samples/ecs_arkanoid3d.h:514-567 | the bricks hit are gone, the score rises by SCORE_PER_BRICK for each, lives and flags are kept |
| `EcsArkanoid3dPhysics.ResolveValid` | src/samples/ecs_arkanoid3d.h:514-567 | the collisions and the destruction keep ids issued and components owned |
| `EcsArkanoid3dPhysics.PhysicsIdle` | src/samples/ecs_arkanoid3d.h:457-496 | a game over, or no ball with a game state, changes nothing; an unlaunched ball changes only transforms and no key |
| `EcsArkanoid3dPhysics.PhysicsScores` | src/samples/ecs_arkanoid3d.h:457-568 | a physics frame only removes bricks, scores SCORE_PER_BRICK for each, and keeps lives and flags |
| `EcsArkanoid3dPhysics.PhysicsValid` | src/samples/ecs_arkanoid3d.h:457-568 | a physics frame keeps ids issued and components owned |
| `EcsArkanoid3dPhysics.PlaceOnPaddle` | src/samples/ecs_arkanoid3d.h:482-495 | the paddle search with `break` leaves the transforms of `PlaceBall` |
| `EcsArkanoid3dPhysics.FlyBall` | src/samples/ecs_arkanoid3d.h:497-511 | the integration and wall tests leave the transforms and rigidbodies of `Fly` |
| `EcsArkanoid3dPhysics.FlyValid` | src/samples/ecs_arkanoid3d.h:497-511 | moving the ball keeps the keys of the transforms and rigidbodies, so ids stay issued and components owned |
| `EcsArkanoid3dPhysics.PhysicsUpdate` | src/samples/ecs_arkanoid3d.h:457-568 | the registry afterwards is `Physics` of the old one |
| `EcsArkanoid3dLogic.LastBefore` | src/samples/ecs_arkanoid3d.h:594 | the last match before n, if any, lies below n |
| `EcsArkanoid3dLogic.LastBeforeFacts` | src/samples/ecs_arkanoid3d.h:594 | the walk without `break` ends on a match with no match after it, or finds none when there is none |
| `EcsArkanoid3dLogic.LastTaggedFacts` | src/samples/ecs_arkanoid3d.h:594 | the judged ball is null only when nothing is tagged a ball, and is otherwise an entity so tagged |
| `EcsArkanoid3dLogic.FindLast` | src/samples/ecs_arkanoid3d.h:593-594 | the overwriting loop answers `LastTagged` |
| `EcsArkanoid3dLogic.TwoBalls` | src/samples/ecs_arkanoid3d.h:468-594 | with two balls, the physics system moves one ball and the logic system judges another |
| `EcsArkanoid3dLogic.PaddlesHome` | src/samples/ecs_arkanoid3d.h:632-639 | sending paddles home keeps the transform keys and every scale |
| `EcsArkanoid3dLogic.PaddlesIdle` | src/samples/ecs_arkanoid3d.h:632-639 | stopping paddles keeps the player keys |
| `EcsArkanoid3dLogic.ResetRound` | src/samples/ecs_arkanoid3d.h:623-641 | `resetRound` changes only the game states, rigidbodies, transforms and players, and keeps their keys |
| `EcsArkanoid3dLogic.PaddleStep` | src/samples/ecs_arkanoid3d.h:632-639 | one more visited tag resets exactly that entity's transform and player component when it is a paddle |
| `EcsArkanoid3dLogic.ResetBall` | src/samples/ecs_arkanoid3d.h:624-629 | the ball's game state and rigidbody become those of `ResetRound` |
| `EcsArkanoid3dLogic.ResetPaddles` | src/samples/ecs_arkanoid3d.h:632-639 | the paddle walk, in any visiting order, leaves the transforms and players of `ResetRound` |
| `EcsArkanoid3dLogic.ResetRoundUpdate` | src/samples/ecs_arkanoid3d.h:623-641 | the four maps afterwards are those of `ResetRound` |
| `EcsArkanoid3dLogic.LoseLife` | src/samples/ecs_arkanoid3d.h:598-606 | losing a life takes exactly one life, keeps the score, and keeps the keys of every map |
| `EcsArkanoid3dLogic.ResetRoundKeeps` | src/samples/ecs_arkanoid3d.h:623-641 | `resetRound` changes component values only, never which entities have components |
| `EcsArkanoid3dLogic.LogicKeeps` | src/samples/ecs_arkanoid3d.h:591-620 | the logic system changes no entity, tag, collider, render component or score, and no map's keys |
| `EcsArkanoid3dLogic.JudgedKeeps` | src/samples/ecs_arkanoid3d.h:593-607 | the death check changes component values, lives and flags only |
| `EcsArkanoid3dLogic.LoseLifeKeeps` | src/samples/ecs_arkanoid3d.h:598-606 | losing a life changes component values, lives and flags only |
| `EcsArkanoid3dLogic.DeathRule` | src/samples/ecs_arkanoid3d.h:596-607 | a fall costs exactly one life; the last life lost ends the game; without a restart no component changes |
| `EcsArkanoid3dLogic.LogicFrame` | src/samples/ecs_arkanoid3d.h:609-619 | the victory check sets both flags exactly when no brick is left, and touches nothing else |
| `EcsArkanoid3dLogic.RestartRule` | src/samples/ecs_arkanoid3d.h:603-605 | with lives left the ball is unlaunched at START_VEL, every paddle is home and still, and no other transform moves |
| `EcsArkanoid3dLogic.VictoryRule` | src/samples/ecs_arkanoid3d.h:591-620 | won exactly when already won or no brick is left; over exactly when already over, the last life was lost, or no brick is left |
| `EcsArkanoid3dLogic.AnyBrick` | src/samples/ecs_arkanoid3d.h:610-616 | the brick walk with `break` finds one exactly when some entity is tagged a brick |
| `EcsArkanoid3dLogic.JudgeDeath` | src/samples/ecs_arkanoid3d.h:593-607 | the registry afterwards is `Judged` of the old one |
| `EcsArkanoid3dLogic.LogicUpdate` | src/samples/ecs_arkanoid3d.h:591-620 | the registry afterwards is `Logic` of the old one |
| `EcsArkanoid3dGame.FrameDt` | src/samples/ecs_arkanoid3d.h:808 | the step is the elapsed time when that is at most 0.05, and 0.05 otherwise |
| `EcsArkanoid3dGame.BuiltBricks` | src/samples/ecs_arkanoid3d.h:870-918 | the rebuilt world holds exactly n bricks and no tag at or past id n + 3 |
| `EcsArkanoid3dGame.ResetValid` | src/samples/ecs_arkanoid3d.h:870-918 | `resetGame` builds a valid world: ids issued, components owned, no score, INITIAL_LIVES lives, all bricks |
| `EcsArkanoid3dGame.InputValid` | src/samples/ecs_arkanoid3d.h:413-453 | the input system keeps the world valid |
| `EcsArkanoid3dGame.PhysicsKeepsValid` | src/samples/ecs_arkanoid3d.h:457-568 | the physics system keeps the world valid: the score stays SCORE_PER_BRICK per destroyed brick |
| `EcsArkanoid3dGame.LogicValid` | src/samples/ecs_arkanoid3d.h:591-620 | the logic system keeps a running game's world valid: lives within 0 .. INITIAL_LIVES, a won game over without bricks |
| `EcsArkanoid3dGame.FrameValid` | src/samples/ecs_arkanoid3d.h:805-825 | every pass of the game loop keeps the world valid |
| `EcsArkanoid3dGame.FrameKeepsBricks` | src/samples/ecs_arkanoid3d.h:805-825 | short of a restart a frame never brings a brick back |
| `EcsArkanoid3dGame.FrameProgress` | src/samples/ecs_arkanoid3d.h:805-825 | short of a restart the score never falls |
| `EcsArkanoid3dGame.FrameWhileOver` | src/samples/ecs_arkanoid3d.h:816-824 | while the game is over and R is up, no entity, brick, rigidbody, collider or global state changes |
| `EcsArkanoid3dGame.FrameRestarts` | src/samples/ecs_arkanoid3d.h:820-823 | R after the game is over rebuilds the start state, all bricks and the ids 1 .. ROWS * COLS + 2 |
| `EcsArkanoid3dGame.RunFrame` | src/samples/ecs_arkanoid3d.h:805-825 | one loop pass leaves the registry as `Frame` of the old one |
| `StubGenerator.Join` | src/glbox/generate_cpp_files.py:8 | `os.path.join` ends with the file name and puts exactly one '/' between a non-empty directory and it |
| `StubGenerator.LastIndexOf` | src/glbox/generate_cpp_files.py:10 | the last index of c, or -1 when c does not occur |
| `StubGenerator.SplitextRoot` | src/glbox/generate_cpp_files.py:10 | the root of `splitext` is the path itself or a prefix of it that stops just before a '.' |
| `StubGenerator.Jobs` | src/glbox/generate_cpp_files.py:5-11 | one job per header |
| `StubGenerator.JobsAt` | src/glbox/generate_cpp_files.py:8-11 | job i is the `.cpp` path and the stub of header i |
| `StubGenerator.GenerateStubs` | src/glbox/generate_cpp_files.py:5-18 | the loops leave the file system and the report of `Script`: one line per header, and every existing file kept |
| `StubGenerator.NextFile` | src/glbox/generate_cpp_files.py:6-7 | one more listed file adds its header's step when it ends in ".h" and changes nothing otherwise |
| `StubGenerator.RunLength` | src/glbox/generate_cpp_files.py:16-18 | every header prints exactly one line |
| `StubGenerator.RunPreserves` | src/glbox/generate_cpp_files.py:13-15 | an existing file is never opened for writing, so its content survives |
| `StubGenerator.RunKeys` | src/glbox/generate_cpp_files.py:13-15 | the files afterwards are those before plus the `.cpp` paths of the headers |
| `StubGenerator.RunWritesFirstStub` | src/glbox/generate_cpp_files.py:13-15 | a new file holds the stub of the first header with that `.cpp` path |
| `StubGenerator.LineAtPrefix` | src/glbox/generate_cpp_files.py:16-18 | a header's report line does not depend on the headers after it |
| `StubGenerator.RunLogLast` | src/glbox/generate_cpp_files.py:16-18 | the last line printed is the last header's |
| `StubGenerator.RunLog` | src/glbox/generate_cpp_files.py:13-18 | line i says "created" exactly when header i's `.cpp` existed neither at the start nor by an earlier header, else "exist" |
| `StubGenerator.RunOnCovered` | src/glbox/generate_cpp_files.py:13-18 | with every `.cpp` present nothing changes and every line says "exist" |
| `StubGenerator.Idempotent` | src/glbox/generate_cpp_files.py:5-18 | a second run changes nothing and reports "exist" for every header |
| `StubGenerator.HeadersUntouched` | src/glbox/generate_cpp_files.py:10-15 | a path ending in ".h" is neither created nor rewritten |
| `StubGenerator.HeadersInMember` | src/glbox/generate_cpp_files.py:6-7 | exactly the listed names ending in ".h" become headers of that directory |
| `StubGenerator.HeadersMember` | src/glbox/generate_cpp_files.py:5-7 | exactly the walked names ending in ".h" become headers, with their own directory |
| `StubGenerator.LastDotOfHeader` | src/glbox/generate_cpp_files.py:10 | in a path ending in ".h" the last dot is the one before the 'h' |
| `StubGenerator.LastSepOfJoin` | src/glbox/generate_cpp_files.py:8 | in a joined path whose name has no '/', the last '/' is just before the name |
| `StubGenerator.CppPath` | src/glbox/generate_cpp_files.py:10 | `os.path.splitext(header_path)[0] + ".cpp"` over the joined header path; `CppPathOfHeader` states what it gives |
| `StubGenerator.CppPathOfHeader` | src/glbox/generate_cpp_files.py:10 | the `.cpp` path replaces the final ".h" in the same directory, unless the name before ".h" is only dots |
| `StubGenerator.SplitextOfHeaderPath` | src/glbox/generate_cpp_files.py:10 | `splitext` drops the ".h" exactly when the base name before it has a character other than '.' |
| `StubGenerator.HeaderPathShape` | src/glbox/generate_cpp_files.py:7-8 | a header's joined path ends in ".h" |
| `StubGenerator.NonDotShift` | src/glbox/generate_cpp_files.py:10 | the base name's dots are those of the joined path after its last '/' |
| `StubGenerator.JoinPrefix` | src/glbox/generate_cpp_files.py:8-10 | cutting the ".h" off commutes with joining |
| `StubGenerator.PlainHeaderExample` | src/glbox/generate_cpp_files.py:10 | "a.h" gives "a.cpp" in the same directory |
| `StubGenerator.DotOnlyHeaderExample` | src/glbox/generate_cpp_files.py:10 | a bare ".h" has no extension and gives ".h.cpp" |
| `ShaderSource.MarkerLength` | src/samples/objects/gl/shader.cpp:69-90 | a marker's length is within the content, and is 0 exactly when no marker starts it |
| `ShaderSource.Strip` | src/samples/objects/gl/shader.cpp:66-93 | the stripped text is no longer than the file and starts with no marker |
| `ShaderSource.LoadFile` | src/samples/objects/gl/shader.cpp:54-96 | an unopenable file gives the empty string; otherwise the file with its leading markers erased |
| `ShaderSource.UnchangedIff` | src/samples/objects/gl/shader.cpp:66-93 | the content is kept exactly when it starts with no marker |
| `ShaderSource.Idempotent` | src/samples/objects/gl/shader.cpp:66-93 | stripping twice is stripping once |
| `ShaderSource.ErasedPrefix` | src/samples/objects/gl/shader.cpp:66-93 | what is erased is a run of whole markers and the rest is kept verbatim |
| `ShaderSource.SameMarker` | src/samples/objects/gl/shader.cpp:69-90 | the marker at the front depends only on the bytes it covers |
| `ShaderSource.BrokenMarkerKept` | src/samples/objects/gl/shader.cpp:70-92 | an EF not followed by BB BF, or a C2 not followed by A0, stops the stripping |
| `ShaderSource.ConsecutiveMarkers` | src/samples/objects/gl/shader.cpp:66-93 | EF BB BF, FE and C2 A0 in a row all go |

## Left out
- Console output is not modelled: the `std::cout`, `std::cerr` and `print` reports (for example the missing-matrix message of `src/glbox/physics/Physics.h:31` and the message of `destroyEntity` in `src/samples/ecs.h:189`) have no counterpart; `StubGenerator` keeps its report lines as a log value.
- StubGenerator.GenerateStubs: assumes every `open` and `write` succeeds; in the source an exception aborts the walk and leaves the later headers without stubs.
- GL, GLFW, GLAD and ImGui calls are inputs or are left out:
  - buffer, texture and framebuffer ids are values the caller supplies;
  - draw calls, uniform uploads and shader compilation are not modelled;
  - ImGui's capture flags and the cursor position are inputs.
- Floating point is modelled as real arithmetic, without rounding. `FLT_MAX` is a real constant.
- These float computations are parameters, not formulas:
  - trigonometry (sphere points, camera front vectors);
  - `glm::normalize` and `length`;
  - `glm::normalize(v) * MAX_SPEED`;
  - the ray-slab test and `GetTransformed`;
  - `checkAABB` and `checkBoxVsBoxAABB`.
- The ball and paddle kinematics of the 2D Arkanoid are inputs (where the ball ends, whether it fell out, which bricks it touches), not computed.
- `rand()` and `Random::RandomColor` are parameters (`colorOf`, `rnd(k)`). The model does not fix which values they return.
- File and image input is abstract:
  - the file text, the stb_image result and the Assimp scene are input values;
  - `os.walk` is the walk sequence;
  - printed lines are returned as a sequence.
- `unordered_map` iteration order is unspecified in C++. The ECS systems take it as an order parameter listing each key once, and are proved for every order.
- EcsArkanoid3dPhysics.PhysicsUpdate: requires `PhysicsReady`, that the components whose pointers the source dereferences without a null check are present. The model does not prove that a frame keeps it true for the next frame.
- EcsArkanoid3dInput.InputUpdate: requires `Steerable`, that no paddle is wider than the field. The model does not prove that a frame keeps it true.
- EcsArkanoid3dGame.RunFrame: requires `FrameReady`, which is both of the above, for each frame.
- EcsArkanoid3d.CreateFresh: requires `nextId + 1 < 2^32`, so the id counter does not wrap. `Created` and the registry's `CreateEntity` themselves model the 32-bit wrap-around.
- EcsArkanoid3dPhysics.PhysicsUpdate: writes the ball's transform and rigidbody back once, after the collider walk. The source updates them through pointers during the walk. The two are equal because no step of the walk reads them back from the maps.
- `RenderSystem` and `TransformSystem` of the ECS samples are float matrix work and are not modelled. The instance lists that `ecs.h`'s `RenderSystem` builds are modelled.
- EcsArkanoid.Game.HitOneBrick: the touch test and the contact normal come from `aabb_circle_collision` on floats, so they are inputs (`touches`, `normals`, the latter already normalised); the reflection and the 1.02 speed-up are computed in reals.
- EcsArkanoid.Game.BallUpdate: the ball's position and velocity after movement, the walls and the paddle are inputs (`moved`, `steered`), since they are float kinematics.
- Integer width: sizes, loop counters and index products such as `size * size * 3` (Texture.h) and the mesh builders' vertex and index arithmetic are unbounded integers, so C++ `int` and `size_t` overflow is not modelled. The 32-bit wraps that are modelled are `StaticMeshes.ToUInt32`, the ECS id counters (`EcsDemo.WrapSucc`, the `EcsArkanoid` and `EcsArkanoid3d` `CreateEntity`s) and the `UInt32` entity ids.
- `Octree::Build` is not modelled. Its 5% padding is float arithmetic, and it walks a `std::map` keyed by pointer.
- Octree nodes are values, not heap nodes. Ownership through `unique_ptr` and node allocation are not modelled.
- The GLSL programs and the render-loop-only samples fall outside this model.

## Findings

| source | as written | input that shows it | evidently intended | confidence | as-written member | corrected member |
|---|---|---|---|---|---|---|
| src/glbox/StaticMesh.h:34-35 | the triangle loop steps by 3 while `i < indices.size()`, then reads `indices[i+1]` and `indices[i+2]` | one vertex and the index buffer `[0]` | only complete triangles are read | not executed | `StaticMeshes.PartialTriangleReadsPastEnd` | `StaticMeshes.CalculateTangents` |
| src/glbox/Texture.h:61-65 | two components (grey and alpha) fall through to `GL_RGB`, which reads 3 bytes per pixel from a 2-byte-per-pixel image | `nrComponents == 2` | a format with as many channels as the image (`GL_RG`) | not executed | `Textures.GreyAlphaMismatch` | `Textures.LoadFormatCorrected` |
| src/glbox/physics/Raycast.h:56-59 | each sample at i reads `vertices[i+1]` and `vertices[i+2]`, with only `i < vertices.size()` checked | 4 floats with stride 3 | only samples with three floats left are read | not executed | `Raycasts.AsWrittenReadsPastEnd` | `Raycasts.CalculateFromVertices` |
