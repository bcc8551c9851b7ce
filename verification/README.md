# exaggerated-shading-demo: a Dafny model of its sequential core

exaggerated-shading-demo is an OpenGL viewer for exaggerated shading of
polyhedral surfaces. Most of its code is a thin layer over OpenGL, the
window system and Lua. This project models the parts of it that carry their
own logic:

- **Scene loading.** `scene_from(path)` (scene.cpp) checks the path and the
  Assimp import result. It then concatenates all imported meshes into one
  vertex array and one face array, shifting indices by running offsets and
  fan-triangulating polygons. Only the last fan triangle of a polygon
  survives. `scene_from(stl_surface)` (scene.hpp) expands each STL triangle
  into three flat-shaded vertices.
- **Text scanning for shader diagnostics.** `line_offsets` and
  `matched_line_number` (opengl/defaults.hpp) feed `debug_print` of the
  shader wrapper (opengl/resources/shader.hpp). `debug_print` prints every
  non-empty log line, and for a log line that names source line `n`, the
  source lines around `n`.
- **Handle ownership.** `basic_identifier` and the older `identifier` (both
  defaults.hpp files) are plain, copyable wrappers of one GL object name.
  `unique_resource` and the older `unique` build on them and are move-only
  owners of that name. Their moves never duplicate a non-zero name.
- **Small pure tables and accessors:**
  - the message-file paths of fdm.hpp;
  - the integer geometry of `viewport`;
  - the attribute traits and component-type families of opengl/draw.hpp and
    opengl/primitive.hpp, whose disjointness makes overload selection
    unambiguous.

Each module follows one concern of the source: `TextLines`, `Resources`,
`Shader`, `Fdm`, `Viewport`, `Draw`, `Primitive`, `Scene` and `SceneImport`.
opengl/defaults.hpp feeds both `TextLines` and `Resources`, and `Resources`
also covers opengl/resources/defaults.hpp. `Gl` holds the
OpenGL enumeration values (as in gl.h) and `Wrappers` holds `Option` and
`Result`. A thrown exception is a `Failure` carrying its message.

Where the code works step by step, it is modelled as methods with loops and
invariants:

- `LineOffsets`, `DebugPrint`, `SceneFromStl` and `SceneFromPath`;
- the array-filling loops under `SceneFromPath`;
- the handle-mutating methods of the `Identifier` and `UniqueResource`
  classes.

The loops of `LineOffsets`, `DebugPrint`, `SceneFromStl` and `SceneFromPath`
are proved equal to specification functions, and the promised properties are
proved about those functions as lemmas. The `Identifier` and `UniqueResource`
methods state their new state directly as a relation to the old one; lemmas
and methods beside them show that no non-zero handle becomes shared.

Two facts about the code shape the model of `scene_from(path)`:

- It throws a plain `runtime_error` with one of two messages. A null import
  result gets the same message as an incomplete or root-less one ("Assimp
  could not process the file.").
- Only the last fan triangle of each polygon is stored.

## Model

| member | source | states |
|---|---|---|
| TextLines.NulIndex | exaggerated-shading-demo/opengl/defaults.hpp:66-69 | the scan stops at the first NUL: no NUL before the returned position, a NUL at it unless it is the length |
| TextLines.LineStarts | exaggerated-shading-demo/opengl/defaults.hpp:64-65 | each pushed line start follows a newline and the starts strictly increase |
| TextLines.LineStartsCount | exaggerated-shading-demo/opengl/defaults.hpp:64-65 | there is one line start per newline |
| TextLines.Offsets | exaggerated-shading-demo/opengl/defaults.hpp:60-73 | the offsets start with 0, end with the NUL position or the length, never exceed the length, and never decrease |
| TextLines.LineOffsets | exaggerated-shading-demo/opengl/defaults.hpp:60-73 | the scanning loop with its early return at a NUL yields exactly `Offsets` |
| TextLines.LineStartsStep | exaggerated-shading-demo/opengl/defaults.hpp:64-65 | scanning one more character appends `i + 1` exactly when it is a newline |
| TextLines.LineStartsComplete | exaggerated-shading-demo/opengl/defaults.hpp:64-65 | every newline yields its line start |
| TextLines.OffsetsInterior | exaggerated-shading-demo/opengl/defaults.hpp:64-69 | the interior offsets are exactly the positions after the newlines that precede the first NUL (both directions) |
| TextLines.OffsetsLength | exaggerated-shading-demo/opengl/defaults.hpp:64-71 | without a NUL the last offset is the length and there are (number of newlines) + 2 offsets |
| TextLines.TrailingNewline | exaggerated-shading-demo/opengl/defaults.hpp:65-71 | without a NUL a trailing newline makes the last two offsets equal to the length |
| TextLines.IgnoredAfterNul | exaggerated-shading-demo/opengl/defaults.hpp:66-69 | characters after the first NUL never change the offsets |
| TextLines.DigitRunEnd | exaggerated-shading-demo/opengl/defaults.hpp:78 | the `\d+` of the pattern matches the maximal run of digits |
| TextLines.MatchEndsRun | exaggerated-shading-demo/opengl/defaults.hpp:78 | a match `:<digits>(` at a colon uses the whole digit run after it, so a colon starts at most one match |
| TextLines.FirstMatchFrom | exaggerated-shading-demo/opengl/defaults.hpp:79-81 | the search finds a match at or after `i` and none between `i` and it, or reports that there is none |
| TextLines.MatchedLineNumber | exaggerated-shading-demo/opengl/defaults.hpp:77-82 | -1 exactly when the text holds no `:<digits>(`; otherwise the value of the digits of the leftmost match |
| TextLines.DecimalValue | exaggerated-shading-demo/opengl/defaults.hpp:82 | the value `std::stoi` reads from the matched digits: below 10 to the number of digits |
| TextLines.LeadingZero | exaggerated-shading-demo/opengl/defaults.hpp:82 | leading zeros do not change the value read |
| Resources.Identifier.Default | exaggerated-shading-demo/opengl/resources/defaults.hpp:14 | a default-constructed identifier holds handle 0 |
| Resources.Identifier.constructor | exaggerated-shading-demo/opengl/resources/defaults.hpp:18-19 | the explicit constructor stores exactly the given handle |
| Resources.Identifier.NativeHandle | exaggerated-shading-demo/opengl/resources/defaults.hpp:23-25 | returns the stored handle |
| Resources.Identifier.Swap | exaggerated-shading-demo/opengl/resources/defaults.hpp:29-31 | the two handles are exchanged |
| Resources.SwapTwice | exaggerated-shading-demo/opengl/resources/defaults.hpp:29-31 | swapping twice gives both identifiers back their handles |
| Resources.Identifier.Reset | exaggerated-shading-demo/opengl/resources/defaults.hpp:41 | the handle becomes 0 |
| Resources.Compare | exaggerated-shading-demo/opengl/resources/defaults.hpp:35-36 | ordering and equality are those of the handles, each in both directions |
| Resources.UniqueResource.Of | exaggerated-shading-demo/opengl/resources/defaults.hpp:89-90 | the base is initialised with the factory's handle |
| Resources.UniqueResource.Acquire | exaggerated-shading-demo/opengl/resources/defaults.hpp:87-93 | construction succeeds exactly when `valid` accepts the created handle, and then holds it; otherwise it fails with "Failed to acquire OpenGL resource." (the older `unique` constructor of opengl/defaults.hpp:176-185 behaves the same) |
| Resources.UniqueResource.Move | exaggerated-shading-demo/opengl/resources/defaults.hpp:110-113 | the new object takes the source's handle and the source is left at 0 (likewise the older `unique` move constructor, opengl/defaults.hpp:199-201) |
| Resources.UniqueResource.MoveAssign | exaggerated-shading-demo/opengl/resources/defaults.hpp:114-117 | move assignment swaps the handles (likewise the older `unique`, opengl/defaults.hpp:202-206) |
| Resources.UniqueResource.Destroy | exaggerated-shading-demo/opengl/resources/defaults.hpp:98-100 | the destructor destroys exactly the handle held |
| Resources.AcquireAmong | exaggerated-shading-demo/opengl/resources/defaults.hpp:87-93 | acquiring a name no live object holds, or the name 0 (a failed `create`, possibly while moved-from objects hold 0), succeeds exactly when `valid` accepts it and keeps every non-zero handle held by at most one object |
| Resources.MoveConstructAmong | exaggerated-shading-demo/opengl/resources/defaults.hpp:110-113 | move construction keeps every non-zero handle held by at most one object |
| Resources.MoveAssignAmong | exaggerated-shading-demo/opengl/resources/defaults.hpp:114-117 | move assignment keeps every non-zero handle held by at most one object |
| Resources.DestroyEach | exaggerated-shading-demo/opengl/resources/defaults.hpp:98-100 | destroying unshared objects destroys each one's handle, and no non-zero handle twice |
| Shader.ShaderTypeString | exaggerated-shading-demo/opengl/resources/shader.hpp:17-46 | each of the six stages has its own name, in both directions; "unknown" exactly for every other value |
| Shader.Size | exaggerated-shading-demo/opengl/resources/shader.hpp:112-118 | -1 for a C string, the exact length for a string view |
| Shader.SourceLengths | exaggerated-shading-demo/opengl/resources/shader.hpp:134-137 | `set_source` passes one length per argument, in argument order |
| Shader.Data | exaggerated-shading-demo/opengl/resources/shader.hpp:110-115 | the pointer handed to GL points at the argument's characters, whose text is a prefix of them |
| Shader.SourceData | exaggerated-shading-demo/opengl/resources/shader.hpp:135 | `set_source` passes one pointer per argument, in argument order, each pointing at no fewer characters than its length asks for (-1 for a C string) |
| Shader.SetSourceStores | exaggerated-shading-demo/opengl/resources/shader.hpp:129-137 | the stored shader source is the concatenation of the arguments' texts (C strings up to their NUL, views whole), and of all their characters when none holds a NUL |
| Shader.SetSourcesArguments | exaggerated-shading-demo/opengl/resources/shader.hpp:142-152 | `set_sources` passes every string of the range by data and size |
| Shader.SetSourcesCopiesWhole | exaggerated-shading-demo/opengl/resources/shader.hpp:142-152 | GL copies every string of the range whole, NUL characters included, and stores exactly their concatenation |
| Shader.Lines | exaggerated-shading-demo/opengl/resources/shader.hpp:204-205 | there is one line per pair of consecutive offsets, cut out between them |
| Shader.WindowFirst | exaggerated-shading-demo/opengl/resources/shader.hpp:210 | the first line shown is the larger of 1 and n - 2 |
| Shader.WindowLast | exaggerated-shading-demo/opengl/resources/shader.hpp:211 | the end of the window is the smaller of n + 2 and the number of source offsets |
| Shader.DebugPrint | exaggerated-shading-demo/opengl/resources/shader.hpp:188-229 | the printed records are exactly `Listing`: nothing for a clean compile, the status alone for an empty log, else the status, a rule, one entry per log line and a closing rule |
| Shader.PrintLog | exaggerated-shading-demo/opengl/resources/shader.hpp:204-226 | the loop over the log lines prints the entries of all lines, in order |
| Shader.PrintLogLine | exaggerated-shading-demo/opengl/resources/shader.hpp:205-225 | an empty log line prints nothing; a line naming no `n > 0` prints itself alone; otherwise it prints itself and then its context window |
| Shader.PrintContext | exaggerated-shading-demo/opengl/resources/shader.hpp:210-224 | the three loops print the source lines from max(n - 2, 1) up to (not including) min(n + 2, offset count), with line `n` marked |
| Shader.ContextAt | exaggerated-shading-demo/opengl/resources/shader.hpp:212-224 | the printed context lines are numbered consecutively and each shows its own source line |
| Shader.ContextWindow | exaggerated-shading-demo/opengl/resources/shader.hpp:210-224 | the window never goes below line 1 nor past the last source line, covers at most n - 2 .. n + 1, shows each line's own text, and marks line `n` and no other |
| Shader.SilentIffCleanCompile | exaggerated-shading-demo/opengl/resources/shader.hpp:189-195 | nothing is printed exactly when the shader compiled and the log is empty |
| Fdm.MessageAddress | exaggerated-shading-demo/fdm.hpp:8-10 | the message path is the domain with ".fdm" appended, with no separator |
| Fdm.SendAddress | exaggerated-shading-demo/fdm.hpp:12-14 | ".send" appended |
| Fdm.RecvAddress | exaggerated-shading-demo/fdm.hpp:16-18 | ".recv" appended |
| Fdm.SendTemp | exaggerated-shading-demo/fdm.hpp:21-22 | `send` writes its message to d + ".fdm.send" first |
| Fdm.RecvTemp | exaggerated-shading-demo/fdm.hpp:31-32 | `recv` moves the message to d + ".fdm.recv" first |
| Fdm.MessageAddressInjective | exaggerated-shading-demo/fdm.hpp:8-10 | different domains get different message paths |
| Fdm.SendTempExtendsMessage | exaggerated-shading-demo/fdm.hpp:21-22 | `send`'s temporary path is d + ".fdm.send", and the message path is a proper prefix of it |
| Fdm.RecvTempExtendsMessage | exaggerated-shading-demo/fdm.hpp:31-32 | `recv`'s temporary path is d + ".fdm.recv", and the message path is a proper prefix of it |
| Fdm.AddressKindsDistinct | exaggerated-shading-demo/fdm.hpp:20-32 | for any two domains, the temporary send path, the temporary receive path and the message path never coincide |
| Viewport.Viewport.ToIVec4 | exaggerated-shading-demo/opengl/viewport.hpp:10 | the conversion yields (offset.x, offset.y, size.x, size.y) |
| Viewport.ToIVec4Injective | exaggerated-shading-demo/opengl/viewport.hpp:10 | the conversion determines the viewport |
| Viewport.Viewport.Width | exaggerated-shading-demo/opengl/viewport.hpp:12 | the width is size.x |
| Viewport.Viewport.Height | exaggerated-shading-demo/opengl/viewport.hpp:13 | the height is size.y |
| Viewport.Viewport.Left | exaggerated-shading-demo/opengl/viewport.hpp:15 | the left edge is offset.x |
| Viewport.Viewport.Right | exaggerated-shading-demo/opengl/viewport.hpp:16 | the right edge is the left edge plus the width, when that sum fits in 32 bits |
| Viewport.Viewport.Top | exaggerated-shading-demo/opengl/viewport.hpp:17 | the top edge is the bottom edge plus the height, when that sum fits in 32 bits |
| Viewport.Viewport.Bottom | exaggerated-shading-demo/opengl/viewport.hpp:18 | the bottom edge is offset.y |
| Viewport.EdgesOrdered | exaggerated-shading-demo/opengl/viewport.hpp:12-18 | a viewport of non-negative size has left ≤ right and bottom ≤ top |
| Viewport.Width | exaggerated-shading-demo/opengl/viewport.hpp:28-30 | the free function returns the member's value |
| Viewport.Height | exaggerated-shading-demo/opengl/viewport.hpp:32-34 | the free function returns the member's value |
| Viewport.Left | exaggerated-shading-demo/opengl/viewport.hpp:36-38 | the free function returns the member's value |
| Viewport.Right | exaggerated-shading-demo/opengl/viewport.hpp:40-42 | the free function returns the member's value |
| Viewport.Top | exaggerated-shading-demo/opengl/viewport.hpp:44-46 | the free function returns the member's value |
| Viewport.Bottom | exaggerated-shading-demo/opengl/viewport.hpp:48-50 | the free function returns the member's value |
| Draw.AttributeTraits | exaggerated-shading-demo/opengl/draw.hpp:7-62 | the size is the component count of the type (1, 2, 3 or 4), and the type is FLOAT, DOUBLE or INT according to the element |
| Draw.IsF32 | exaggerated-shading-demo/opengl/draw.hpp:145-154 | the component types read as 32-bit floats: GL_FLOAT, GL_HALF_FLOAT and GL_FIXED |
| Draw.IsF64 | exaggerated-shading-demo/opengl/draw.hpp:156-158 | the component type read as 64-bit floats: GL_DOUBLE |
| Draw.IsInt | exaggerated-shading-demo/opengl/draw.hpp:160-172 | the component types read as integers: the signed and unsigned bytes, shorts and ints |
| Draw.FamiliesDisjoint | exaggerated-shading-demo/opengl/draw.hpp:145-172 | `is_f32`, `is_f64` and `is_int` are pairwise disjoint |
| Draw.F32Attribute | exaggerated-shading-demo/opengl/draw.hpp:80-92 | location, offset and `normalized` are copied (GL_FALSE by default), and size and type come from the traits |
| Draw.F64Attribute | exaggerated-shading-demo/opengl/draw.hpp:108-117 | only for GL_DOUBLE types; location and offset are copied, and the size comes from the traits |
| Draw.IntAttribute | exaggerated-shading-demo/opengl/draw.hpp:134-143 | location and offset are copied, and size and type come from the traits |
| Draw.ExactlyOneOverload | exaggerated-shading-demo/opengl/draw.hpp:174-190 | for every traits type exactly one `attribute` overload is viable: the one of its element |
| Draw.Attribute | exaggerated-shading-demo/opengl/draw.hpp:174-190 | the chosen format's family is the viable overload, in both directions, and it is built by that family's constructor |
| Draw.StaticVertexVectorFormat.constructor | exaggerated-shading-demo/opengl/draw.hpp:344-345 | the stride is sizeof(value_type); buffer and offset start at 0 |
| Draw.StaticVertexVectorFormat.Assign | exaggerated-shading-demo/opengl/draw.hpp:347-350 | binds the vector's buffer, with offset = first × sizeof(value_type) |
| Primitive.DefaultsAgreeWithDraw | exaggerated-shading-demo/opengl/primitive.hpp:125-152 | the `defaults_to_*` predicates accept the same types as draw.hpp's `is_*` predicates, and are pairwise disjoint |
| Primitive.DefaultsToF32 | exaggerated-shading-demo/opengl/primitive.hpp:125-134 | the component types whose attribute defaults to the f32 format |
| Primitive.DefaultsToF64 | exaggerated-shading-demo/opengl/primitive.hpp:136-138 | the component type whose attribute defaults to the f64 format |
| Primitive.DefaultsToInt | exaggerated-shading-demo/opengl/primitive.hpp:140-152 | the component types whose attribute defaults to the int format |
| Primitive.AttributeProjectionOf | exaggerated-shading-demo/opengl/primitive.hpp:168-184 | the f32, f64 or int format is chosen exactly when the matching predicate holds for the traits type; it carries the traits' size and type, the member's offset, and GL_FALSE for `normalized` |
| Primitive.AttributeProjection | exaggerated-shading-demo/opengl/primitive.hpp:154-166 | the projection-less form selects the same way, with offset 0 |
| Primitive.VertexBufferFormat.Stride | exaggerated-shading-demo/opengl/primitive.hpp:186-190 | the stride is sizeof(value_type) |
| Primitive.VertexBuffer | exaggerated-shading-demo/opengl/primitive.hpp:233-237 | one attribute, the whole value, with stride sizeof(value_type) |
| Scene.TriangleVertices | exaggerated-shading-demo/scene.hpp:20-22 | a triangle contributes its three corners in order, each with the facet normal |
| Scene.SceneFromStl | exaggerated-shading-demo/scene.hpp:16-25 | the emplacing loop yields exactly `FlatShaded` of the triangles |
| Scene.FlatShadedAt | exaggerated-shading-demo/scene.hpp:18-23 | 3 × (number of triangles) vertices; vertex 3i + j is corner j of triangle i and carries triangle i's normal |
| Scene.FlatShadedAppend | exaggerated-shading-demo/scene.hpp:19 | triangle order is kept: the scene of a + b is the scene of a followed by that of b |
| SceneImport.SceneFromPath | exaggerated-shading-demo/scene.cpp:9-109 | a missing path fails with "The path does not exist." whatever the import gives; a null, incomplete or root-less import fails with "Assimp could not process the file."; otherwise the result is `Flattened` of the meshes |
| SceneImport.LoadError | exaggerated-shading-demo/scene.cpp:12-15 | every load failure message starts with "Failed to load 'polyhedral_surface' from path '" and ends with its reason |
| SceneImport.LoadErrorsDistinct | exaggerated-shading-demo/scene.cpp:12-48 | the two failures of a path have different messages, and the message determines the path |
| SceneImport.CountMeshes | exaggerated-shading-demo/scene.cpp:58-63 | the counting loop yields the total vertex count and the total face count |
| SceneImport.FillMeshes | exaggerated-shading-demo/scene.cpp:65-105 | the arrays resized to the totals end up holding exactly the flattened vertices and faces |
| SceneImport.WriteMeshVertices | exaggerated-shading-demo/scene.cpp:76-84 | mesh vertex `vid` lands at `vid + vertex_offset`; nothing before or after the mesh's range changes |
| SceneImport.WriteMeshFaces | exaggerated-shading-demo/scene.cpp:88-99 | mesh face `fid` lands in slot `face_offset + fid`; earlier slots are untouched and later slots stay default |
| SceneImport.WriteFan | exaggerated-shading-demo/scene.cpp:91-98 | the fan loop writes exactly the fan triangles (0, k-1, k) for k = 2 .. c-1 into its slot, in order, so the slot ends holding the last of them, or is unchanged when c < 3; no other slot changes |
| SceneImport.FanUpTo | exaggerated-shading-demo/scene.cpp:92-97 | once the counter reaches n the loop has written n - 2 triangles, the i-th being (0, i+1, i+2) shifted by the vertex offset |
| SceneImport.StoredFace | exaggerated-shading-demo/scene.cpp:91-98 | the slot holds the fan triangle for k = c - 1 when c ≥ 3, and the default face otherwise |
| SceneImport.StoredFaceIsLastFan | exaggerated-shading-demo/scene.cpp:91-98 | a slot keeps the last fan triangle written to it, or the default face when none is written |
| SceneImport.MeshVertices | exaggerated-shading-demo/scene.cpp:76-84 | one vertex per position, with its position and normal copied unchanged |
| SceneImport.MeshFaces | exaggerated-shading-demo/scene.cpp:88-99 | one slot per face, holding that face's stored triangle |
| SceneImport.FlatVertices | exaggerated-shading-demo/scene.cpp:65 | the vertex array has as many entries as all meshes have vertices |
| SceneImport.FlatFaces | exaggerated-shading-demo/scene.cpp:66 | the face array has as many slots as all meshes have faces |
| SceneImport.TotalsBoundedByPrefix | exaggerated-shading-demo/scene.cpp:103-104 | the running offsets never exceed the totals |
| SceneImport.FlatVerticesAt | exaggerated-shading-demo/scene.cpp:76-84 | vertex `vid` of mesh `m` is at (vertices of earlier meshes) + `vid`, with position and normal unchanged |
| SceneImport.FlatFacesAt | exaggerated-shading-demo/scene.cpp:88-99 | face `fid` of mesh `m` is in slot (faces of earlier meshes) + `fid`, with every index shifted by the vertices of earlier meshes |
| SceneImport.FlatFacesPrefix | exaggerated-shading-demo/scene.cpp:88-104 | later meshes leave the face slots of earlier meshes untouched |
| SceneImport.FlatFacesInRange | exaggerated-shading-demo/scene.cpp:91-103 | if every importer index is below its mesh's vertex count, every stored face indexes existing vertices or is the default face |
| SceneImport.FlatFacesInRangeNonEmpty | exaggerated-shading-demo/scene.cpp:91-103 | if in addition the scene has a vertex, every stored face indexes existing vertices |

## Left out

- Edge generation and normal smoothing (scene.cpp:107-108): their definitions are not part of this model, so `SceneFromPath` returns the scene as the loops leave it.
- The Assimp import itself: its result is the parameter `input`. It is `None` for a null pointer, otherwise its meshes with positions, normals and per-face index lists. Whether the path exists is the parameter `pathExists`.
- SceneFromPath: for an import that passes its checks it requires one normal per vertex, which Assimp provides after `aiProcess_GenSmoothNormals`. The code reads `mNormals[vid]` unchecked.
- SceneImport: the `uint32` vertex and face offsets are unbounded `nat`, so 32-bit wrap-around is not modelled. The face type of the scene is not part of this model. Its value-initialised default is taken to be (0, 0, 0).
- SceneImport.FillMeshes: the source's scene type with a `faces` member is not part of this model (scene.hpp declares `scene` with only `vertices`, while scene.cpp writes a `faces` member, so scene.cpp targets a different scene type). The model fills two arrays and returns their contents as a `PolyhedralScene` value.
- `aabb_from` (scene.hpp:27-31): it depends on aabb.hpp, which is not part of this model. stl_surface.hpp is not part of this model either: an STL triangle is its normal and its three corners.
- Vector components are `real` values that are only copied. Floating-point geometry is left out: `aspect_ratio` and `space` of viewport.hpp, camera.hpp and frame.hpp.
- TextLines.MatchedLineNumber: the `std::regex` search is specified directly as the leftmost `:<digits>(` match. The value is unbounded, so `std::stoi` overflow (an exception for very long digit runs) is not modelled.
- Shader.DebugPrint: the printing itself (`std::print` formatting, widths, newlines) is reduced to a list of records. The info log, compile status, stage and source text come from GL queries and are parameters.
- Shader.Size: the narrowing of `size()` to `GLint` is not modelled; a view longer than 2^31 - 1 characters would be passed a wrapped length.
- Shader.DebugPrint: it requires every line number a log line names to be a line of the source (`n` below the number of source-line offsets), because `src_lines[n]` is read unchecked.
- The GL calls of the shader, program, buffer, texture, framebuffer, renderbuffer and vertex-array wrappers are left out, as is `draw()`. They are foreign calls without logic of their own. `valid()` and `create()` are parameters of `UniqueResource.Acquire`.
- Resources: handles are unbounded `nat` rather than 32-bit `GLuint`. The wrapped base type's own state is not modelled.
- Resource views and `forward`/`decay` are left out: they are compile-time type plumbing.
- The `reinterpret_cast` offset computations (`projection_offset`, `access_offset`, `static_attribute_format::offset`) are left out. The projected member's byte offset is the parameter `projectionOffset` of `Primitive.AttributeProjectionOf`.
- Primitive.SizeOf: `sizeof` of the GLM types is taken as tightly packed 4- or 8-byte components.
- Viewport.Viewport.Right: it requires the 32-bit sum not to overflow, because signed overflow is undefined behaviour in the source. The same holds for Viewport.Viewport.Top.
- File I/O and inter-process handoff are left out: `string_from_file`, the file writes and renames of `fdm::send` and `fdm::recv` (only their paths are modelled), and `scoped_chdir`.
- UI, window and scripting code (viewer*.cpp, main.cpp) is left out.
