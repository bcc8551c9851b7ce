/** Loading a polyhedral scene through Assimp (scene.cpp, `scene_from(path)`):
    the error checks, then the concatenation of all imported meshes into one
    vertex array and one face array, shifting each mesh's indices by the
    number of vertices before it. A polygon face keeps only the last triangle
    of its fan; a face with fewer than three corners leaves its slot at the
    default face. */
module SceneImport {
  import opened Wrappers
  import opened Scene

  /** A triangle of vertex indices. */
  datatype Face = Face(a: nat, b: nat, c: nat)

  /** The value-initialised face a resized face array is filled with. */
  const NO_FACE: Face := Face(0, 0, 0)

  /** The value-initialised vertex a resized vertex array is filled with. */
  const NO_VERTEX: Vertex := Vertex(Vec3(0.0, 0.0, 0.0), Vec3(0.0, 0.0, 0.0))

  /** The scene type scene.cpp fills: vertices and faces. */
  datatype PolyhedralScene = PolyhedralScene(vertices: seq<Vertex>, faces: seq<Face>)

  /** An `aiMesh` as far as it is read: vertex positions, vertex normals and
      faces, each face the list of its corner indices (`mIndices`). */
  datatype ImportedMesh = ImportedMesh(positions: seq<Vec3>, normals: seq<Vec3>, faces: seq<seq<nat>>)

  /** An `aiScene`: the incomplete flag, whether it has a root node, and its meshes. */
  datatype ImportedScene = ImportedScene(incomplete: bool, hasRoot: bool, meshes: seq<ImportedMesh>)

  /** `mNormals` is read at every vertex index: Assimp provides one normal
      per vertex once `aiProcess_GenSmoothNormals` has run. */
  predicate NormalsPresent(meshes: seq<ImportedMesh>) {
    forall m :: 0 <= m < |meshes| ==> |meshes[m].normals| == |meshes[m].positions|
  }

  const PATH_MISSING: string := "The path does not exist."
  const IMPORT_FAILED: string := "Assimp could not process the file."

  /** The message of the `runtime_error` thrown by `throw_error(str)`. */
  function LoadError(path: string, reason: string): (message: string)
    ensures LOAD_PREFIX <= message
    ensures |reason| < |message| && message[|message| - |reason|..] == reason
  {
    LOAD_PREFIX + path + "'. " + reason
  }

  const LOAD_PREFIX: string := "Failed to load 'polyhedral_surface' from path '"

  /** The two failures of one path are told apart by their messages, and a
      message names the path it is about. */
  lemma LoadErrorsDistinct(path: string, other: string)
    ensures LoadError(path, PATH_MISSING) != LoadError(path, IMPORT_FAILED)
    ensures |path| == |other| && LoadError(path, PATH_MISSING) == LoadError(other, PATH_MISSING) ==> path == other
  {
    var m, n := LoadError(path, PATH_MISSING), LoadError(path, IMPORT_FAILED);
    assert |m| != |n|;
    if |path| == |other| && m == LoadError(other, PATH_MISSING) {
      assert path == m[|LOAD_PREFIX|..|LOAD_PREFIX| + |path|];
      assert other == LoadError(other, PATH_MISSING)[|LOAD_PREFIX|..|LOAD_PREFIX| + |other|];
    }
  }

  /** The import result passes the check: not null, not incomplete, with a root node. */
  predicate Processable(input: Option<ImportedScene>) {
    input.Some? && !input.value.incomplete && input.value.hasRoot
  }

  /** Sum of the vertex counts of `ms`. */
  function TotalVertices(ms: seq<ImportedMesh>): nat {
    if ms == [] then 0 else TotalVertices(ms[..|ms| - 1]) + |ms[|ms| - 1].positions|
  }

  /** Sum of the face counts of `ms`. */
  function TotalFaces(ms: seq<ImportedMesh>): nat {
    if ms == [] then 0 else TotalFaces(ms[..|ms| - 1]) + |ms[|ms| - 1].faces|
  }

  /** The vertices of one mesh, position and normal side by side. */
  function MeshVertices(mesh: ImportedMesh): (vs: seq<Vertex>)
    requires |mesh.normals| == |mesh.positions|
    ensures |vs| == |mesh.positions|
    ensures forall v :: 0 <= v < |vs| ==> vs[v] == Vertex(mesh.positions[v], mesh.normals[v])
  {
    seq(|mesh.positions|, v requires 0 <= v < |mesh.positions| => Vertex(mesh.positions[v], mesh.normals[v]))
  }

  /** The fan triangle `(0, k - 1, k)` of a polygon, shifted by `offset`. */
  function FanTriangle(face: seq<nat>, k: nat, offset: nat): Face
    requires 2 <= k < |face|
  {
    Face(face[0] + offset, face[k - 1] + offset, face[k] + offset)
  }

  /** The fan triangles `(0, k - 1, k)` for `k = 2 .. n - 1`, in order: what
      the face loop has written once its counter reaches `n`. */
  function FanUpTo(face: seq<nat>, n: nat, offset: nat): (ts: seq<Face>)
    requires n <= |face|
    ensures |ts| == if n < 2 then 0 else n - 2
    ensures forall i :: 0 <= i < |ts| ==> ts[i] == FanTriangle(face, i + 2, offset)
  {
    if n <= 2 then [] else FanUpTo(face, n - 1, offset) + [FanTriangle(face, n - 1, offset)]
  }

  /** All fan triangles of a polygon, for `k = 2 .. |face| - 1` in order. */
  function FanTriangles(face: seq<nat>, offset: nat): seq<Face> {
    FanUpTo(face, |face|, offset)
  }

  /** What the face's slot holds when the fan loop is done: its last fan
      triangle `(0, c - 2, c - 1)`, or the default face if it has fewer than 3 corners. */
  function StoredFace(face: seq<nat>, offset: nat): (f: Face)
    ensures |face| >= 3 ==> f == FanTriangle(face, |face| - 1, offset)
    ensures |face| < 3 ==> f == NO_FACE
  {
    if |face| >= 3 then Face(face[0] + offset, face[|face| - 2] + offset, face[|face| - 1] + offset)
    else NO_FACE
  }

  /** The face loop overwrites one slot with every fan triangle, so the slot
      keeps the last one written; when none is written it keeps the default. */
  lemma StoredFaceIsLastFan(face: seq<nat>, offset: nat)
    ensures var ts := FanTriangles(face, offset);
      StoredFace(face, offset) == if ts == [] then NO_FACE else ts[|ts| - 1]
  {
  }

  /** The faces of one mesh whose indices start at `offset`, one slot per face. */
  function MeshFaces(mesh: ImportedMesh, offset: nat): (fs: seq<Face>)
    ensures |fs| == |mesh.faces|
    ensures forall f :: 0 <= f < |fs| ==> fs[f] == StoredFace(mesh.faces[f], offset)
  {
    seq(|mesh.faces|, f requires 0 <= f < |mesh.faces| => StoredFace(mesh.faces[f], offset))
  }

  /** The vertex array of the concatenated meshes. */
  function FlatVertices(ms: seq<ImportedMesh>): (vs: seq<Vertex>)
    requires NormalsPresent(ms)
    ensures |vs| == TotalVertices(ms)
  {
    if ms == [] then []
    else FlatVertices(ms[..|ms| - 1]) + MeshVertices(ms[|ms| - 1])
  }

  /** The face array of the concatenated meshes, each mesh shifted by the vertices before it. */
  function FlatFaces(ms: seq<ImportedMesh>): (fs: seq<Face>)
    ensures |fs| == TotalFaces(ms)
  {
    if ms == [] then []
    else FlatFaces(ms[..|ms| - 1]) + MeshFaces(ms[|ms| - 1], TotalVertices(ms[..|ms| - 1]))
  }

  /** The scene the loops build from the imported meshes. */
  function Flattened(ms: seq<ImportedMesh>): PolyhedralScene
    requires NormalsPresent(ms)
  {
    PolyhedralScene(FlatVertices(ms), FlatFaces(ms))
  }

  /** `scene_from(path)`. Whether the path exists and what `ReadFile` returns
      (`None` for a null pointer) are parameters; edge generation and normal
      smoothing, applied at the end, are not part of this model. */
  method SceneFromPath(path: string, pathExists: bool, input: Option<ImportedScene>)
    returns (r: Result<PolyhedralScene, string>)
    requires Processable(input) ==> NormalsPresent(input.value.meshes)
    ensures !pathExists ==> r == Failure(LoadError(path, PATH_MISSING))
    ensures pathExists && !Processable(input) ==> r == Failure(LoadError(path, IMPORT_FAILED))
    ensures pathExists && Processable(input) ==> r == Success(Flattened(input.value.meshes))
  {
    if !pathExists {
      return Failure(LoadError(path, PATH_MISSING));
    }
    if input.None? || input.value.incomplete || !input.value.hasRoot {
      return Failure(LoadError(path, IMPORT_FAILED));
    }
    var meshes := input.value.meshes;
    var vertexCount, faceCount := CountMeshes(meshes);
    var vertices := new Vertex[vertexCount](_ => NO_VERTEX);
    var faces := new Face[faceCount](_ => NO_FACE);
    FillMeshes(meshes, vertices, faces);
    return Success(PolyhedralScene(vertices[..], faces[..]));
  }

  /** The first loop: the total vertex and face counts of all meshes. */
  method CountMeshes(meshes: seq<ImportedMesh>) returns (vertexCount: nat, faceCount: nat)
    ensures vertexCount == TotalVertices(meshes) && faceCount == TotalFaces(meshes)
  {
    vertexCount := 0;
    faceCount := 0;
    for i := 0 to |meshes|
      invariant vertexCount == TotalVertices(meshes[..i])
      invariant faceCount == TotalFaces(meshes[..i])
    {
      assert meshes[..i + 1][..i] == meshes[..i];
      vertexCount := vertexCount + |meshes[i].positions|;
      faceCount := faceCount + |meshes[i].faces|;
    }
    assert meshes[..|meshes|] == meshes;
  }

  /** The second loop: every mesh writes its vertices and faces behind those
      of the meshes before it, into arrays resized to the totals. */
  method FillMeshes(meshes: seq<ImportedMesh>, vertices: array<Vertex>, faces: array<Face>)
    requires NormalsPresent(meshes)
    requires vertices.Length == TotalVertices(meshes) && faces.Length == TotalFaces(meshes)
    requires forall k :: 0 <= k < faces.Length ==> faces[k] == NO_FACE
    modifies vertices, faces
    ensures vertices[..] == FlatVertices(meshes) && faces[..] == FlatFaces(meshes)
  {
    var vertexOffset := 0;
    var faceOffset := 0;
    for mid := 0 to |meshes|
      invariant vertexOffset == TotalVertices(meshes[..mid])
      invariant faceOffset == TotalFaces(meshes[..mid])
      invariant vertexOffset <= vertices.Length && faceOffset <= faces.Length
      invariant NormalsPresent(meshes[..mid])
      invariant vertices[..vertexOffset] == FlatVertices(meshes[..mid])
      invariant faces[..faceOffset] == FlatFaces(meshes[..mid])
      invariant forall k :: faceOffset <= k < faces.Length ==> faces[k] == NO_FACE
    {
      var mesh := meshes[mid];
      assert meshes[..mid + 1][..mid] == meshes[..mid];
      assert meshes[..mid + 1][mid] == mesh;
      TotalsBoundedByPrefix(meshes, mid + 1);
      WriteMeshVertices(vertices, mesh, vertexOffset);
      WriteMeshFaces(faces, mesh, faceOffset, vertexOffset);
      vertexOffset := vertexOffset + |mesh.positions|;
      faceOffset := faceOffset + |mesh.faces|;
    }
    assert meshes[..|meshes|] == meshes;
    assert vertices[..] == vertices[..vertexOffset] && faces[..] == faces[..faceOffset];
  }

  /** The vertex loop of mesh `mesh`: vertex `vid` goes to `vid + vertexOffset`. */
  method WriteMeshVertices(vertices: array<Vertex>, mesh: ImportedMesh, vertexOffset: nat)
    requires |mesh.normals| == |mesh.positions|
    requires vertexOffset + |mesh.positions| <= vertices.Length
    modifies vertices
    ensures vertices[..vertexOffset + |mesh.positions|] ==
      old(vertices[..vertexOffset]) + MeshVertices(mesh)
    ensures forall k :: vertexOffset + |mesh.positions| <= k < vertices.Length ==> vertices[k] == old(vertices[k])
  {
    for vid := 0 to |mesh.positions|
      invariant vertices[..vertexOffset] == old(vertices[..vertexOffset])
      invariant forall v :: 0 <= v < vid ==> vertices[vertexOffset + v] == Vertex(mesh.positions[v], mesh.normals[v])
      invariant forall k :: vertexOffset + |mesh.positions| <= k < vertices.Length ==> vertices[k] == old(vertices[k])
    {
      vertices[vid + vertexOffset] := Vertex(mesh.positions[vid], mesh.normals[vid]);
    }
    assert vertices[..vertexOffset + |mesh.positions|] == vertices[..vertexOffset] + MeshVertices(mesh);
  }

  /** The face loop of mesh `mesh`: face `fid` goes to slot `faceOffset + fid`,
      its indices shifted by `vertexOffset`. The slots start out default. */
  method WriteMeshFaces(faces: array<Face>, mesh: ImportedMesh, faceOffset: nat, vertexOffset: nat)
    requires faceOffset + |mesh.faces| <= faces.Length
    requires forall k :: faceOffset <= k < faces.Length ==> faces[k] == NO_FACE
    modifies faces
    ensures faces[..faceOffset + |mesh.faces|] == old(faces[..faceOffset]) + MeshFaces(mesh, vertexOffset)
    ensures forall k :: faceOffset + |mesh.faces| <= k < faces.Length ==> faces[k] == NO_FACE
  {
    for fid := 0 to |mesh.faces|
      invariant faces[..faceOffset] == old(faces[..faceOffset])
      invariant forall f :: 0 <= f < fid ==> faces[faceOffset + f] == StoredFace(mesh.faces[f], vertexOffset)
      invariant forall k :: faceOffset + fid <= k < faces.Length ==> faces[k] == NO_FACE
    {
      ghost var written := WriteFan(faces, faceOffset + fid, mesh.faces[fid], vertexOffset);
    }
    assert faces[..faceOffset + |mesh.faces|] == faces[..faceOffset] + MeshFaces(mesh, vertexOffset);
  }

  /** The fan loop of one face: for `k = 2 .. corners - 1` it writes the
      triangle `(0, k - 1, k)` into the same slot. `written` records those
      writes in order. */
  method WriteFan(faces: array<Face>, slot: nat, face: seq<nat>, vertexOffset: nat)
    returns (ghost written: seq<Face>)
    requires slot < faces.Length
    modifies faces
    ensures written == FanTriangles(face, vertexOffset)
    ensures faces[slot] == if written == [] then old(faces[slot]) else written[|written| - 1]
    ensures faces[slot] == if |face| >= 3 then StoredFace(face, vertexOffset) else old(faces[slot])
    ensures forall k :: 0 <= k < faces.Length && k != slot ==> faces[k] == old(faces[k])
  {
    written := [];
    var k := 2;
    while k < |face|
      invariant 2 <= k && (k > 2 ==> k <= |face|)
      invariant k <= |face| ==> written == FanUpTo(face, k, vertexOffset)
      invariant k > |face| ==> written == []
      invariant written == [] ==> faces[slot] == old(faces[slot])
      invariant written != [] ==> faces[slot] == written[|written| - 1]
      invariant forall j :: 0 <= j < faces.Length && j != slot ==> faces[j] == old(faces[j])
    {
      faces[slot] := Face(face[0] + vertexOffset, face[k - 1] + vertexOffset, face[k] + vertexOffset);
      written := written + [FanTriangle(face, k, vertexOffset)];
      k := k + 1;
    }
    StoredFaceIsLastFan(face, vertexOffset);
  }

  /** The totals of a prefix never exceed the totals of the whole. */
  lemma {:induction false} TotalsBoundedByPrefix(ms: seq<ImportedMesh>, n: nat)
    requires n <= |ms|
    ensures TotalVertices(ms[..n]) <= TotalVertices(ms)
    ensures TotalFaces(ms[..n]) <= TotalFaces(ms)
    decreases |ms|
  {
    if n < |ms| {
      var init := ms[..|ms| - 1];
      assert init[..n] == ms[..n];
      TotalsBoundedByPrefix(init, n);
    } else {
      assert ms[..n] == ms;
    }
  }

  /** Vertex `vid` of mesh `m` lands at the number of vertices of the
      meshes before `m` plus `vid`, position and normal unchanged. */
  lemma {:induction false} FlatVerticesAt(ms: seq<ImportedMesh>, m: nat, vid: nat)
    requires NormalsPresent(ms)
    requires m < |ms| && vid < |ms[m].positions|
    ensures TotalVertices(ms[..m]) + vid < |FlatVertices(ms)|
    ensures FlatVertices(ms)[TotalVertices(ms[..m]) + vid] == Vertex(ms[m].positions[vid], ms[m].normals[vid])
    decreases |ms|
  {
    var init := ms[..|ms| - 1];
    if m < |ms| - 1 {
      assert init[..m] == ms[..m];
      assert init[m] == ms[m];
      FlatVerticesAt(init, m, vid);
    } else {
      assert ms[..m] == init;
    }
  }

  /** Face `fid` of mesh `m` lands in slot (faces before `m`) + `fid`, as
      its stored triangle shifted by the vertices before `m`. */
  lemma {:induction false} FlatFacesAt(ms: seq<ImportedMesh>, m: nat, fid: nat)
    requires m < |ms| && fid < |ms[m].faces|
    ensures TotalFaces(ms[..m]) + fid < |FlatFaces(ms)|
    ensures FlatFaces(ms)[TotalFaces(ms[..m]) + fid] == StoredFace(ms[m].faces[fid], TotalVertices(ms[..m]))
    decreases |ms|
  {
    var init := ms[..|ms| - 1];
    if m < |ms| - 1 {
      assert init[..m] == ms[..m];
      assert init[m] == ms[m];
      FlatFacesAt(init, m, fid);
    } else {
      assert ms[..m] == init;
    }
  }

  /** Mesh `n` and later ones leave the face slots of the meshes before `n` untouched. */
  lemma {:induction false} FlatFacesPrefix(ms: seq<ImportedMesh>, n: nat)
    requires n <= |ms|
    ensures FlatFaces(ms[..n]) <= FlatFaces(ms)
    decreases |ms|
  {
    if n < |ms| {
      var init := ms[..|ms| - 1];
      assert init[..n] == ms[..n];
      FlatFacesPrefix(init, n);
    } else {
      assert ms[..n] == ms;
    }
  }

  /** Every importer index of mesh `m` is below that mesh's vertex count. */
  predicate IndicesInRange(ms: seq<ImportedMesh>) {
    forall m, f, i :: 0 <= m < |ms| && 0 <= f < |ms[m].faces| && 0 <= i < |ms[m].faces[f]| ==>
      ms[m].faces[f][i] < |ms[m].positions|
  }

  predicate FaceBelow(face: Face, count: nat) {
    face.a < count && face.b < count && face.c < count
  }

  /** With in-range importer indices every stored face indexes an existing
      vertex, or is the default face left by a face with fewer than three corners. */
  lemma {:induction false} FlatFacesInRange(ms: seq<ImportedMesh>)
    requires IndicesInRange(ms)
    ensures forall s :: 0 <= s < |FlatFaces(ms)| ==>
      FaceBelow(FlatFaces(ms)[s], TotalVertices(ms)) || FlatFaces(ms)[s] == NO_FACE
    decreases |ms|
  {
    if ms != [] {
      var init := ms[..|ms| - 1];
      var last := ms[|ms| - 1];
      var offset := TotalVertices(init);
      assert IndicesInRange(init) by {
        forall m, f, i | 0 <= m < |init| && 0 <= f < |init[m].faces| && 0 <= i < |init[m].faces[f]|
          ensures init[m].faces[f][i] < |init[m].positions|
        {
          assert init[m] == ms[m];
        }
      }
      FlatFacesInRange(init);
      forall s | 0 <= s < |FlatFaces(ms)|
        ensures FaceBelow(FlatFaces(ms)[s], TotalVertices(ms)) || FlatFaces(ms)[s] == NO_FACE
      {
        if s >= |FlatFaces(init)| {
          var f := s - |FlatFaces(init)|;
          var face := last.faces[f];
          if |face| >= 3 {
            assert face[0] < |last.positions| && face[|face| - 2] < |last.positions| && face[|face| - 1] < |last.positions|;
          }
        }
      }
    }
  }

  /** When the scene has at least one vertex the default face indexes vertex 0,
      so then every stored face indexes existing vertices. */
  lemma FlatFacesInRangeNonEmpty(ms: seq<ImportedMesh>)
    requires IndicesInRange(ms) && TotalVertices(ms) > 0
    ensures forall s :: 0 <= s < |FlatFaces(ms)| ==> FaceBelow(FlatFaces(ms)[s], TotalVertices(ms))
  {
    FlatFacesInRange(ms);
  }
}
