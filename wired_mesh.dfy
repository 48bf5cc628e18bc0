/**
 * `Qgs3DWiredMesh`: a line-list geometry whose vertex buffer holds the x, y, z of each vertex as
 * consecutive floats. The floats are modelled as reals.
 */
module WiredMesh {
  import opened Vectors

  datatype PrimitiveType = Points | Lines | LineStrip | Triangles
  datatype AttributeType = VertexAttribute | IndexAttribute
  datatype BaseType = Float | UnsignedInt

  /** `sizeof( float )`. */
  const FloatSize: nat := 4

  /** The buffer `setVertices` fills: x, y, z of each vertex in list order. */
  function Flattened(vs: seq<Vec3>): (data: seq<real>)
    ensures |data| == 3 * |vs|
  {
    if vs == [] then []
    else Flattened(vs[..|vs| - 1]) + [vs[|vs| - 1].x, vs[|vs| - 1].y, vs[|vs| - 1].z]
  }

  /** Entry `3i + c` of the buffer is coordinate `c` of vertex `i`. */
  lemma {:induction false} FlattenedEntries(vs: seq<Vec3>, i: int)
    requires 0 <= i < |vs|
    ensures Flattened(vs)[3 * i] == vs[i].x
    ensures Flattened(vs)[3 * i + 1] == vs[i].y
    ensures Flattened(vs)[3 * i + 2] == vs[i].z
    decreases |vs|
  {
    if i < |vs| - 1 {
      FlattenedEntries(vs[..|vs| - 1], i);
    }
  }

  /** Reading the buffer back three floats at a time gives the vertices again. */
  function Unflattened(data: seq<real>): (vs: seq<Vec3>)
    requires |data| % 3 == 0
    ensures |vs| == |data| / 3
  {
    if data == [] then []
    else [Vec3(data[0], data[1], data[2])] + Unflattened(data[3..])
  }

  lemma {:induction false} UnflattenFlattened(vs: seq<Vec3>)
    ensures Unflattened(Flattened(vs)) == vs
  {
    var data := Flattened(vs);
    var back := Unflattened(data);
    forall i | 0 <= i < |vs|
      ensures back[i] == vs[i]
    {
      FlattenedEntries(vs, i);
      UnflattenedEntry(data, i);
    }
  }

  lemma {:induction false} UnflattenedEntry(data: seq<real>, i: int)
    requires |data| % 3 == 0 && 0 <= i < |data| / 3
    ensures Unflattened(data)[i] == Vec3(data[3 * i], data[3 * i + 1], data[3 * i + 2])
    decreases |data|
  {
    if i > 0 {
      UnflattenedEntry(data[3..], i - 1);
    }
  }

  class Qgs3DWiredMesh {
    const attributeType: AttributeType
    const vertexBaseType: BaseType
    const vertexSize: nat
    const instanceCount: nat
    const indexOffset: nat
    const firstInstance: nat
    const primitiveType: PrimitiveType
    /** The contents of `mVertexBuffer`, one real per float. */
    var vertexData: seq<real>
    /** The byte size of the buffer, `vertices.size() * 3 * sizeof( float )`. */
    var byteLength: nat
    var vertexCount: nat

    /** The constructor: a Float position attribute of size 3 on a Lines renderer, no vertices. */
    constructor ()
      ensures attributeType == VertexAttribute && vertexBaseType == Float && vertexSize == 3
      ensures instanceCount == 1 && indexOffset == 0 && firstInstance == 0
      ensures primitiveType == Lines
      ensures vertexData == [] && byteLength == 0 && vertexCount == 0
    {
      attributeType := VertexAttribute;
      vertexBaseType := Float;
      vertexSize := 3;
      instanceCount := 1;
      indexOffset := 0;
      firstInstance := 0;
      primitiveType := Lines;
      vertexData := [];
      byteLength := 0;
      vertexCount := 0;
    }

    /** `setVertices`: fills a fresh buffer of `3 * |vertices|` floats with `idx++` writes. */
    method SetVertices(vertices: seq<Vec3>)
      modifies this
      ensures vertexData == Flattened(vertices)
      ensures |vertexData| == 3 * |vertices| && byteLength == FloatSize * |vertexData|
      ensures vertexCount == |vertices|
    {
      var raw := new real[|vertices| * 3];
      var idx := 0;
      for i := 0 to |vertices|
        invariant idx == 3 * i
        invariant raw[..idx] == Flattened(vertices[..i])
      {
        var v := vertices[i];
        raw[idx] := v.x;
        idx := idx + 1;
        raw[idx] := v.y;
        idx := idx + 1;
        raw[idx] := v.z;
        idx := idx + 1;
        assert vertices[..i + 1][..i] == vertices[..i];
        assert raw[..idx] == raw[..idx - 3] + [v.x, v.y, v.z];
      }
      assert vertices[..|vertices|] == vertices;
      vertexData := raw[..];
      byteLength := |vertices| * 3 * FloatSize;
      vertexCount := |vertices|;
    }
  }
}
