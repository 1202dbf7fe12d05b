/** The OpenGL 4.5 backend's vertex storage (VertexBuffer.hpp/.cpp): every
    mesh vertex flattened to eight floats, the three attribute pointers the
    vertex arrays declare over those floats, and one vertex array per
    surface holding its own copy of the surface's index list. GL object
    names and the binding calls are not modelled. */
module VertexBuffers {
  import opened Options
  import opened RenderTypes
  import opened Geometry
  import opened Materials
  import ObjModel

  /** VertexAttributes: the attribute locations. */
  const PositionsLocation: nat := 0
  const NormalsLocation: nat := 1
  const TexCoordsLocation: nat := 2

  /** VertexAttribOffsets: byte offsets inside one vertex record. */
  const FloatSize: nat := 4
  const PositionsOffset: nat := 0
  const NormalsOffset: nat := PositionsOffset + 3 * FloatSize
  const TexCoordsOffset: nat := NormalsOffset + 3 * FloatSize

  /** VertexArray::Stride: eight floats per vertex. */
  const Stride: nat := 8 * FloatSize

  /** One glVertexAttribPointer declaration: location, component count,
      byte offset of the first component and byte stride between vertices. */
  datatype AttribPointer = AttribPointer(location: nat, size: nat, offset: nat, stride: nat)

  /** SetupVertexAttributes: positions, normals and texture coordinates, in
      that order, all with the vertex stride. */
  function VertexAttributes(): seq<AttribPointer>
  {
    [AttribPointer(PositionsLocation, 3, PositionsOffset, Stride),
     AttribPointer(NormalsLocation, 3, NormalsOffset, Stride),
     AttribPointer(TexCoordsLocation, 2, TexCoordsOffset, Stride)]
  }

  /** The attributes sit at locations 0, 1, 2, at offsets 0, 12 and 24, and
      tile the 32-byte stride exactly: each starts where the previous one
      ends, the first at 0 and the last ending at the stride. */
  lemma AttributesTileStride()
    ensures |VertexAttributes()| == 3
    ensures forall k :: 0 <= k < 3 ==> VertexAttributes()[k].location == k && VertexAttributes()[k].stride == Stride
    ensures VertexAttributes()[0].offset == 0 && VertexAttributes()[1].offset == 12 && VertexAttributes()[2].offset == 24
    ensures forall k :: 0 <= k < 2 ==>
      VertexAttributes()[k].offset + VertexAttributes()[k].size * FloatSize == VertexAttributes()[k + 1].offset
    ensures VertexAttributes()[2].offset + VertexAttributes()[2].size * FloatSize == Stride == 32
  {
  }

  /** The eight floats VertexBuffer::Init(mesh) pushes for one vertex: the
      position, the packed normal divided by 127 and the packed texture
      coordinates divided by 32767. */
  function Record(v: DrawVertex): seq<real>
  {
    [v.position.x, v.position.y, v.position.z,
     v.normal.x / 127.0, v.normal.y / 127.0, v.normal.z / 127.0,
     v.texCoords.x / 32767.0, v.texCoords.y / 32767.0]
  }

  /** The buffer's data for a vertex list: the records one after the other. */
  function Flatten(vs: seq<DrawVertex>): seq<real>
  {
    if vs == [] then [] else Flatten(vs[..|vs| - 1]) + Record(vs[|vs| - 1])
  }

  /** Eight floats per vertex, and vertex i's record at floats 8i .. 8i + 7. */
  lemma {:induction false} FlattenLayout(vs: seq<DrawVertex>)
    ensures |Flatten(vs)| == 8 * |vs|
    ensures forall i :: 0 <= i < |vs| ==> Flatten(vs)[8 * i .. 8 * i + 8] == Record(vs[i])
  {
    if vs != [] {
      var n := |vs| - 1;
      var prefix := Flatten(vs[..n]);
      FlattenLayout(vs[..n]);
      assert Flatten(vs) == prefix + Record(vs[n]);
      forall i | 0 <= i < |vs|
        ensures Flatten(vs)[8 * i .. 8 * i + 8] == Record(vs[i])
      {
        if i < n {
          assert 8 * i + 8 <= |prefix|;
          assert Flatten(vs)[8 * i .. 8 * i + 8] == prefix[8 * i .. 8 * i + 8];
          assert vs[..n][i] == vs[i];
        } else {
          assert 8 * i == |prefix|;
        }
      }
    }
  }

  /** What the vertex shader receives at an attribute location, component
      `c`, for vertex `v`, read off the vertex's fields. */
  function AttributeValue(v: DrawVertex, location: nat, c: nat): real
    requires location < 3 && c < 3
  {
    if location == PositionsLocation then [v.position.x, v.position.y, v.position.z][c]
    else if location == NormalsLocation then [v.normal.x / 127.0, v.normal.y / 127.0, v.normal.z / 127.0][c]
    else [v.texCoords.x / 32767.0, v.texCoords.y / 32767.0, 0.0][c]
  }

  /** Reading the flattened data the way each attribute pointer addresses
      it (byte `i * stride + offset + c * 4`) gives exactly that attribute's
      component of vertex `i`: the layout constants and the flattening agree. */
  lemma AttributesAddressVertexFields(vs: seq<DrawVertex>, i: nat, k: nat, c: nat)
    requires i < |vs| && k < 3 && c < VertexAttributes()[k].size
    ensures var a := VertexAttributes()[k];
      var byte := i * a.stride + a.offset + c * FloatSize;
      byte % FloatSize == 0 && byte / FloatSize < |Flatten(vs)| &&
      Flatten(vs)[byte / FloatSize] == AttributeValue(vs[i], a.location, c)
  {
    FlattenLayout(vs);
    var a := VertexAttributes()[k];
    var slot := RecordSlot(vs[i], k, c);
    var byte := i * a.stride + a.offset + c * FloatSize;
    assert a.stride == 32;
    assert a.offset + c * FloatSize == 4 * slot;
    assert byte == 4 * (8 * i + slot);
    assert byte / FloatSize == 8 * i + slot;
    var record := Flatten(vs)[8 * i .. 8 * i + 8];
    assert Flatten(vs)[8 * i + slot] == record[slot];
  }

  /** Inside one record, attribute `k`'s component `c` is float number
      `offset / 4 + c`. */
  lemma RecordSlot(v: DrawVertex, k: nat, c: nat) returns (slot: nat)
    requires k < 3 && c < VertexAttributes()[k].size
    ensures slot == VertexAttributes()[k].offset / FloatSize + c < 8
    ensures VertexAttributes()[k].offset == FloatSize * (VertexAttributes()[k].offset / FloatSize)
    ensures Record(v)[slot] == AttributeValue(v, VertexAttributes()[k].location, c)
  {
    slot := VertexAttributes()[k].offset / FloatSize + c;
  }

  /** A vertex built by the OBJ parser (normal scaled by 127, texture
      coordinates by 32767) is read back by the attributes as the values
      the parser stored for its corner: the position, the normal and the
      texture coordinates, whose v the parser has already flipped to
      1 - v. The scalings cancel exactly only because the int8 and int16
      fields that truncate them are not part of this model. */
  lemma ObjVertexRecordRoundTrip(lists: ObjModel.ObjLists, corner: (int, int, int))
    requires ObjModel.CornerVertex(lists, corner).Some?
    ensures var v := ObjModel.CornerVertex(lists, corner).value;
      var pos := lists.positions[corner.0 - 1];
      var nrm := lists.normals[corner.2 - 1];
      var tc := lists.texCoords[corner.1 - 1];
      Record(v) == [pos.x, pos.y, pos.z, nrm.x, nrm.y, nrm.z, tc.x, tc.y]
  {
  }

  /** The loop of VertexBuffer::Init(mesh): eight pushes per vertex. */
  method FlattenVertices(vs: seq<DrawVertex>) returns (data: seq<real>)
    ensures data == Flatten(vs)
  {
    data := [];
    var i := 0;
    while i < |vs|
      invariant i <= |vs|
      invariant data == Flatten(vs[..i])
    {
      var vert := vs[i];
      assert vs[..i + 1][..i] == vs[..i];
      data := data + [vert.position.x, vert.position.y, vert.position.z];
      data := data + [vert.normal.x / 127.0, vert.normal.y / 127.0, vert.normal.z / 127.0];
      data := data + [vert.texCoords.x / 32767.0, vert.texCoords.y / 32767.0];
      i := i + 1;
    }
    assert vs[..i] == vs;
  }

  /** The vertex count BufferData derives from a byte size. */
  function VertexCount(size: nat): nat
  {
    size / Stride
  }

  /** A buffer of whole records holds exactly as many vertices as records,
      and a partial record at the end is not counted. */
  lemma VertexCountOfRecords(n: nat, extra: nat)
    requires extra < Stride
    ensures VertexCount(n * Stride + extra) == n
  {
  }

  /** VertexBuffer: the flattened vertex data kept on the CPU side and the
      vertex count of the last upload. */
  class VertexBuffer {
    var data: seq<real>
    var numVertices: nat

    /** VertexBuffer(): no data, no vertices. */
    constructor ()
      ensures data == [] && numVertices == 0
    {
      data := [];
      numVertices := 0;
    }

    function GetNumVertices(): nat
      reads this
    {
      numVertices
    }

    /** VertexBuffer::Init(mesh): the data is replaced by the mesh's
        flattened vertices and uploaded, so the count is the mesh's. */
    method InitFromMesh(mesh: DrawMesh)
      modifies this
      ensures data == Flatten(mesh.vertices)
      ensures GetNumVertices() == |mesh.vertices|
    {
      data := FlattenVertices(mesh.vertices);
      FlattenLayout(mesh.vertices);
      BufferData(None, |data| * FloatSize);
      VertexCountOfRecords(|mesh.vertices|, 0);
    }

    /** VertexBuffer::BufferData: a null pointer uploads the buffer's own
        data with its size in bytes; the vertex count is the size divided
        by the stride. `vertexData` stands for the pointer (None for null). */
    method BufferData(vertexData: Option<seq<real>>, size: nat)
      modifies this
      ensures vertexData.None? ==> numVertices == VertexCount(|data| * FloatSize)
      ensures vertexData.Some? ==> numVertices == VertexCount(size)
      ensures data == old(data)
    {
      var bytes := size;
      if vertexData.None? {
        bytes := |data| * FloatSize;
      }
      numVertices := bytes / Stride;
    }
  }

  /** VertexArray: one surface's index list over a vertex buffer, the
      surface's material, and the state the GL vertex array object holds
      (the element buffer's contents and the attribute pointers). */
  class VertexArray {
    var indices: seq<VertexId>
    var buffer: VertexBuffer
    var material: Material?
    /** The indices uploaded to the element buffer. */
    var elementData: seq<VertexId>
    /** The attribute pointers declared on the vertex array object. */
    var attributes: seq<AttribPointer>

    /** VertexArray(buffer): no indices, no material, nothing uploaded. */
    constructor ForBuffer(vb: VertexBuffer)
      ensures buffer == vb && indices == [] && material == null
      ensures elementData == [] && attributes == []
    {
      buffer := vb;
      indices := [];
      material := null;
      elementData := [];
      attributes := [];
    }

    /** VertexArray(buffer, surf): the surface's material and a copy of its
        indices, uploaded to the element buffer, with the three vertex
        attributes declared. */
    constructor (vb: VertexBuffer, surf: DrawSurface)
      ensures buffer == vb && material == surf.material
      ensures indices == surf.vertexIndices && elementData == surf.vertexIndices
      ensures attributes == VertexAttributes()
    {
      buffer := vb;
      material := surf.material;
      indices := [];
      elementData := [];
      attributes := [];
      new;
      SetupIndices(surf);
      BufferData();
      SetupVertexAttributes();
    }

    /** VertexArray::SetupIndices: the surface's index list is copied. */
    method SetupIndices(surf: DrawSurface)
      modifies this
      ensures indices == surf.vertexIndices
      ensures buffer == old(buffer) && material == old(material)
      ensures elementData == old(elementData) && attributes == old(attributes)
    {
      indices := surf.vertexIndices;
    }

    /** VertexArray::BufferData: the indices go to the element buffer. */
    method BufferData()
      modifies this
      ensures elementData == indices
      ensures indices == old(indices) && buffer == old(buffer) && material == old(material)
      ensures attributes == old(attributes)
    {
      elementData := indices;
    }

    /** VertexArray::SetupVertexAttributes: one pointer per attribute. */
    method SetupVertexAttributes()
      modifies this
      ensures attributes == VertexAttributes()
      ensures indices == old(indices) && buffer == old(buffer) && material == old(material)
      ensures elementData == old(elementData)
    {
      attributes := [];
      attributes := attributes + [AttribPointer(PositionsLocation, 3, PositionsOffset, Stride)];
      attributes := attributes + [AttribPointer(NormalsLocation, 3, NormalsOffset, Stride)];
      attributes := attributes + [AttribPointer(TexCoordsLocation, 2, TexCoordsOffset, Stride)];
    }

    function GetNumIndices(): nat
      reads this
    {
      |indices|
    }

    function GetMaterial(): Material?
      reads this
    {
      material
    }
  }
}
