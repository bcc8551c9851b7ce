/** The flat-shaded scene built from an STL surface (scene.hpp): every
    triangle becomes three vertices of its own, each carrying the triangle's
    normal, in triangle order. */
module Scene {

  /** `vec3`; its components are only copied, never computed with. */
  datatype Vec3 = Vec3(x: real, y: real, z: real)

  /** `scene::vertex`. */
  datatype Vertex = Vertex(position: Vec3, normal: Vec3)

  /** `scene`: the vertex list. */
  datatype Scene = Scene(vertices: seq<Vertex>)

  /** A triangle of an `stl_surface`: its facet normal and its three corners. */
  datatype StlTriangle = StlTriangle(normal: Vec3, v0: Vec3, v1: Vec3, v2: Vec3) {
    /** `vertex[j]`. */
    function Corner(j: nat): Vec3
      requires j < 3
    {
      if j == 0 then v0 else if j == 1 then v1 else v2
    }
  }

  /** The three vertices triangle `t` contributes: its corners in order, each with the facet normal. */
  function TriangleVertices(t: StlTriangle): (vs: seq<Vertex>)
    ensures |vs| == 3
    ensures forall j :: 0 <= j < 3 ==> vs[j] == Vertex(t.Corner(j), t.normal)
  {
    [Vertex(t.v0, t.normal), Vertex(t.v1, t.normal), Vertex(t.v2, t.normal)]
  }

  /** The vertices of the flat-shaded scene of `tris`, triangle after triangle. */
  function FlatShaded(tris: seq<StlTriangle>): seq<Vertex> {
    if tris == [] then []
    else FlatShaded(tris[..|tris| - 1]) + TriangleVertices(tris[|tris| - 1])
  }

  /** `scene_from(stl)`: one loop over the triangles, emplacing three vertices per triangle. */
  method SceneFromStl(triangles: seq<StlTriangle>) returns (s: Scene)
    ensures s.vertices == FlatShaded(triangles)
  {
    var vertices: seq<Vertex> := [];
    for i := 0 to |triangles|
      invariant vertices == FlatShaded(triangles[..i])
    {
      var t := triangles[i];
      assert triangles[..i + 1][..i] == triangles[..i];
      vertices := vertices + [Vertex(t.v0, t.normal)];
      vertices := vertices + [Vertex(t.v1, t.normal)];
      vertices := vertices + [Vertex(t.v2, t.normal)];
    }
    assert triangles[..|triangles|] == triangles;
    s := Scene(vertices);
  }

  /** Three vertices per triangle, and vertex `3i + j` is corner `j` of
      triangle `i`, carrying triangle `i`'s normal. */
  lemma {:induction false} FlatShadedAt(tris: seq<StlTriangle>)
    ensures |FlatShaded(tris)| == 3 * |tris|
    ensures forall i, j :: 0 <= i < |tris| && 0 <= j < 3 ==>
      FlatShaded(tris)[3 * i + j] == Vertex(tris[i].Corner(j), tris[i].normal)
  {
    if tris != [] {
      var init := tris[..|tris| - 1];
      FlatShadedAt(init);
      forall i, j | 0 <= i < |tris| && 0 <= j < 3
        ensures FlatShaded(tris)[3 * i + j] == Vertex(tris[i].Corner(j), tris[i].normal)
      {
        if i < |tris| - 1 {
          assert tris[i] == init[i];
        }
      }
    }
  }

  /** Triangle order is kept: the scene of `a + b` is the scene of `a` followed by that of `b`. */
  lemma {:induction false} FlatShadedAppend(a: seq<StlTriangle>, b: seq<StlTriangle>)
    ensures FlatShaded(a + b) == FlatShaded(a) + FlatShaded(b)
    decreases |b|
  {
    if b == [] {
      assert a + b == a;
    } else {
      var init := b[..|b| - 1];
      assert (a + b)[..|a + b| - 1] == a + init;
      assert (a + b)[|a + b| - 1] == b[|b| - 1];
      FlatShadedAppend(a, init);
    }
  }
}
