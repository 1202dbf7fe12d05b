/** The CPU-side geometry a model is made of (DrawGeometry.hpp): vertices,
    triangles, surfaces with a material and an index list, and the mesh
    that collects them by appending. */
module Geometry {
  import opened RenderTypes
  import opened Materials

  /** The packed 8- and 16-bit vectors of a vertex, kept as reals; the
      quantisation to integers is not modelled. */
  datatype Vec4 = Vec4(x: real, y: real, z: real, w: real)

  /** The value the model gives to components the source never writes. */
  const Unset: Vec4 := Vec4(0.0, 0.0, 0.0, 0.0)

  datatype DrawVertex = DrawVertex(
    position: Vec3,
    normal: Vec4,
    tangent: Vec4,
    texCoords: Vec2,
    color: Vec4,
    weights: Vec4)

  /** DrawVertex::operator==: only position, normal and texture coordinates
      take part in the comparison. */
  predicate SameVertex(a: DrawVertex, b: DrawVertex)
  {
    a.position == b.position && a.normal == b.normal && a.texCoords == b.texCoords
  }

  /** Two vertices compare equal exactly when they differ at most in
      tangent, colour and bone weights. */
  lemma SameVertexIgnoresTangentColorWeights(a: DrawVertex, b: DrawVertex)
    ensures SameVertex(a, b) <==> a.(tangent := b.tangent, color := b.color, weights := b.weights) == b
  {
  }

  /** The comparison is an equivalence relation. */
  lemma SameVertexIsEquivalence(a: DrawVertex, b: DrawVertex, c: DrawVertex)
    ensures SameVertex(a, a)
    ensures SameVertex(a, b) ==> SameVertex(b, a)
    ensures SameVertex(a, b) && SameVertex(b, c) ==> SameVertex(a, c)
  {
  }

  /** `vertexid_t`: vertex indices are 32 bits wide. */
  type VertexId = u32

  /** Three indices into the mesh's vertices. */
  datatype DrawTriangle = DrawTriangle(vertexIndices: seq<VertexId>)

  /** DrawTriangle(): all three indices 0. */
  function DefaultTriangle(): DrawTriangle
  {
    DrawTriangle([0, 0, 0])
  }

  /** DrawTriangle(int a, int b, int c): the three ints converted to
      `vertexid_t`, in order. */
  function TriangleOf(a: int, b: int, c: int): (t: DrawTriangle)
    ensures |t.vertexIndices| == 3
    ensures (t.vertexIndices[0] as int - a) % 0x1_0000_0000 == 0
    ensures (t.vertexIndices[1] as int - b) % 0x1_0000_0000 == 0
    ensures (t.vertexIndices[2] as int - c) % 0x1_0000_0000 == 0
    ensures 0 <= a < 0x1_0000_0000 && 0 <= b < 0x1_0000_0000 && 0 <= c < 0x1_0000_0000 ==>
      t.vertexIndices == [a as VertexId, b as VertexId, c as VertexId]
  {
    DrawTriangle([ToU32(a), ToU32(b), ToU32(c)])
  }

  /** A material name, the material (null when none) and indices into the
      mesh's vertices. */
  datatype DrawSurface = DrawSurface(materialName: string, material: Material?, vertexIndices: seq<VertexId>)

  /** DrawSurface(): null material, the member initialiser's name "default",
      no indices. */
  function DefaultSurface(): DrawSurface
  {
    DrawSurface("default", null, [])
  }

  /** DrawSurface(IMaterial*): named after the material. */
  function SurfaceFor(m: Material): DrawSurface
    reads m
  {
    DrawSurface(m.GetName(), m, [])
  }

  /** DrawSurface(const char*): the source leaves the material pointer
      uninitialised; the model gives it null. */
  function NamedSurface(name: string): DrawSurface
  {
    DrawSurface(name, null, [])
  }

  /** 0, 1, ..., n - 1 as vertex ids, as the `int` loop counter converts them. */
  function IndexRange(n: nat): (r: seq<VertexId>)
    ensures |r| == n
    ensures forall i :: 0 <= i < n ==> r[i] == ToU32(i)
  {
    if n == 0 then [] else IndexRange(n - 1) + [ToU32(n - 1)]
  }

  /** The loop in DrawMesh::AddSurface that pushes the counter values. */
  method AutoIndices(count: nat) returns (indices: seq<VertexId>)
    ensures indices == IndexRange(count)
  {
    indices := [];
    var i := 0;
    while i < count
      invariant i <= count
      invariant indices == IndexRange(i)
    {
      indices := indices + [ToU32(i)];
      i := i + 1;
    }
  }

  /** The surface DrawMesh::AddSurface stores: a surface without indices
      added to a mesh without surfaces gets one index per triangle,
      0 .. triangles.size() - 1; any other surface is stored as it is. */
  function SurfaceAdded(surfaces: seq<DrawSurface>, triangleCount: nat, s: DrawSurface): DrawSurface
  {
    if surfaces == [] && s.vertexIndices == [] then s.(vertexIndices := IndexRange(triangleCount)) else s
  }

  /** The auto-index rule: only the first surface, and only when it has no
      indices of its own, is filled; name and material are always kept. */
  lemma AutoIndexRule(surfaces: seq<DrawSurface>, triangleCount: nat, s: DrawSurface)
    ensures SurfaceAdded(surfaces, triangleCount, s).materialName == s.materialName
    ensures SurfaceAdded(surfaces, triangleCount, s).material == s.material
    ensures surfaces == [] && s.vertexIndices == [] ==>
      |SurfaceAdded(surfaces, triangleCount, s).vertexIndices| == triangleCount &&
      forall i :: 0 <= i < triangleCount ==> SurfaceAdded(surfaces, triangleCount, s).vertexIndices[i] == ToU32(i)
    ensures !(surfaces == [] && s.vertexIndices == []) ==> SurfaceAdded(surfaces, triangleCount, s) == s
  {
  }

  /** Indices are all valid positions in a vertex list of that length. */
  predicate IndicesWithin(indices: seq<VertexId>, vertexCount: nat)
  {
    forall i :: 0 <= i < |indices| ==> (indices[i] as int) < vertexCount
  }

  /** The fill as the reservation of `vertices.size()` and the indices'
      role (positions in `vertices`) call for is SurfaceAdded counting
      vertices instead of triangles: one index per vertex. With fewer than
      2^32 vertices it references every vertex once, in order, and never a
      vertex that does not exist. */
  lemma VertexFillInRange(surfaces: seq<DrawSurface>, vertexCount: nat, s: DrawSurface)
    requires vertexCount <= 0x1_0000_0000
    requires surfaces == [] && s.vertexIndices == []
    ensures IndicesWithin(SurfaceAdded(surfaces, vertexCount, s).vertexIndices, vertexCount)
    ensures |SurfaceAdded(surfaces, vertexCount, s).vertexIndices| == vertexCount
    ensures forall i :: 0 <= i < vertexCount ==> SurfaceAdded(surfaces, vertexCount, s).vertexIndices[i] as int == i
  {
  }

  /** As written, a mesh with one vertex and three triangles gets indices
      0, 1, 2, of which 1 and 2 name no vertex; and a mesh of three vertices
      and one triangle gets the single index 0. */
  lemma AutoIndexCountsTriangles()
    ensures SurfaceAdded([], 3, DefaultSurface()).vertexIndices == [0, 1, 2]
    ensures !IndicesWithin(SurfaceAdded([], 3, DefaultSurface()).vertexIndices, 1)
    ensures SurfaceAdded([], 1, DefaultSurface()).vertexIndices == [0]
  {
    assert IndexRange(3) == [0, 1, 2];
    assert SurfaceAdded([], 3, DefaultSurface()).vertexIndices[1] == 1;
    assert IndexRange(1) == [0];
  }

  /** DrawMesh: three append-only lists. */
  class DrawMesh {
    var surfaces: seq<DrawSurface>
    var triangles: seq<DrawTriangle>
    var vertices: seq<DrawVertex>

    constructor ()
      ensures surfaces == [] && triangles == [] && vertices == []
    {
      surfaces := [];
      triangles := [];
      vertices := [];
    }

    method AddVertex(vertex: DrawVertex)
      modifies this
      ensures vertices == old(vertices) + [vertex]
      ensures surfaces == old(surfaces) && triangles == old(triangles)
    {
      vertices := vertices + [vertex];
    }

    method AddTriangles(triangle: DrawTriangle)
      modifies this
      ensures triangles == old(triangles) + [triangle]
      ensures surfaces == old(surfaces) && vertices == old(vertices)
    {
      triangles := triangles + [triangle];
    }

    /** DrawMesh::AddSurface as written. The surface is taken by reference,
        so the caller's surface receives the filled indices too: `stored`. */
    method AddSurface(surface: DrawSurface) returns (stored: DrawSurface)
      modifies this
      ensures stored == SurfaceAdded(old(surfaces), |old(triangles)|, surface)
      ensures surfaces == old(surfaces) + [stored]
      ensures triangles == old(triangles) && vertices == old(vertices)
    {
      stored := surface;
      if surfaces == [] && surface.vertexIndices == [] {
        var filled := AutoIndices(|triangles|);
        stored := surface.(vertexIndices := filled);
      }
      surfaces := surfaces + [stored];
    }

    /** AddSurface with the fill counting vertices (see VertexFillInRange). */
    method AddSurfaceByVertices(surface: DrawSurface) returns (stored: DrawSurface)
      modifies this
      ensures stored == SurfaceAdded(old(surfaces), |old(vertices)|, surface)
      ensures surfaces == old(surfaces) + [stored]
      ensures triangles == old(triangles) && vertices == old(vertices)
    {
      stored := surface;
      if surfaces == [] && surface.vertexIndices == [] {
        var filled := AutoIndices(|vertices|);
        stored := surface.(vertexIndices := filled);
      }
      surfaces := surfaces + [stored];
    }
  }
}
