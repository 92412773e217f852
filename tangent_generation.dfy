/** The adapter through which the mikktspace tangent generator sees an indexed triangle list:
    faces are consecutive triples of indices, attribute reads go through the index buffer,
    and each generated tangent is written into the vertex the corner refers to. */
module TangentGeneration {
  import opened Wrappers
  import opened Math

  /** One interleaved vertex of the renderer. */
  datatype VertexAttributes = VertexAttributes(position: Vec3, normal: Vec3, uv: Vec2, tangent: Vec3)

  /** Which vertex corner `vert` of face `face` refers to, or the panic of an out-of-range
      index into either buffer. */
  function Corner(vertices: seq<VertexAttributes>, indices: seq<nat>, face: nat, vert: nat): (r: Fallible<nat>)
    ensures r.Done? <==> 3 * face + vert < |indices| && indices[3 * face + vert] < |vertices|
    ensures r.Done? ==> r.value == indices[3 * face + vert]
  {
    var k := 3 * face + vert;
    if k >= |indices| then Panic("index out of bounds: indices")
    else if indices[k] >= |vertices| then Panic("index out of bounds: vertices")
    else Done(indices[k])
  }

  /** The vertices after `set_tangent_encoded`: the corner's vertex takes the first three
      components of the tangent (the handedness sign is dropped). */
  function WithTangent(vertices: seq<VertexAttributes>, indices: seq<nat>, tangent: Vec4, face: nat, vert: nat)
    : (r: Fallible<seq<VertexAttributes>>)
    ensures r.Done? <==> Corner(vertices, indices, face, vert).Done?
    ensures r.Done? ==> |r.value| == |vertices|
  {
    match Corner(vertices, indices, face, vert)
    case Panic(m) => Panic(m)
    case Done(i) => Done(vertices[i := vertices[i].(tangent := Vec3(tangent.x, tangent.y, tangent.z))])
  }

  /** Writing a tangent changes only the tangent of the one vertex the corner refers to, and
      sets it to the tangent's first three components. */
  lemma WithTangentChangesOneTangent(vertices: seq<VertexAttributes>, indices: seq<nat>, tangent: Vec4, face: nat, vert: nat)
    requires WithTangent(vertices, indices, tangent, face, vert).Done?
    ensures var vs, i := WithTangent(vertices, indices, tangent, face, vert).value, indices[3 * face + vert];
      && vs[i].tangent == Vec3(tangent.x, tangent.y, tangent.z)
      && vs[i].(tangent := vertices[i].tangent) == vertices[i]
      && (forall j | 0 <= j < |vs| && j != i :: vs[j] == vertices[j])
  {
  }

  class TangentGenerator {
    var vertices: seq<VertexAttributes>
    var indices: seq<nat>

    constructor(vertices: seq<VertexAttributes>, indices: seq<nat>)
      ensures this.vertices == vertices && this.indices == indices
    {
      this.vertices := vertices;
      this.indices := indices;
    }

    /** `num_faces`: the complete triples of the index buffer; a trailing partial triple is
        not a face. */
    function NumFaces(): (n: nat)
      reads this
      ensures 3 * n <= |indices| < 3 * n + 3
    {
      |indices| / 3
    }

    /** `num_vertices_of_face`: every face is a triangle. */
    function NumVerticesOfFace(face: nat): (n: nat)
      ensures n == 3
    {
      3
    }

    function Position(face: nat, vert: nat): (r: Fallible<Vec3>)
      reads this
      ensures r.Done? <==> Corner(vertices, indices, face, vert).Done?
      ensures r.Done? ==> r.value == vertices[indices[3 * face + vert]].position
    {
      match Corner(vertices, indices, face, vert)
      case Panic(m) => Panic(m)
      case Done(i) => Done(vertices[i].position)
    }

    function Normal(face: nat, vert: nat): (r: Fallible<Vec3>)
      reads this
      ensures r.Done? <==> Corner(vertices, indices, face, vert).Done?
      ensures r.Done? ==> r.value == vertices[indices[3 * face + vert]].normal
    {
      match Corner(vertices, indices, face, vert)
      case Panic(m) => Panic(m)
      case Done(i) => Done(vertices[i].normal)
    }

    function TexCoord(face: nat, vert: nat): (r: Fallible<Vec2>)
      reads this
      ensures r.Done? <==> Corner(vertices, indices, face, vert).Done?
      ensures r.Done? ==> r.value == vertices[indices[3 * face + vert]].uv
    {
      match Corner(vertices, indices, face, vert)
      case Panic(m) => Panic(m)
      case Done(i) => Done(vertices[i].uv)
    }

    /** `set_tangent_encoded`: writes into the vertex array in place; the index buffer is
        untouched, and an out-of-range corner panics with nothing written. */
    method SetTangentEncoded(tangent: Vec4, face: nat, vert: nat) returns (r: Fallible<()>)
      modifies this`vertices
      ensures r.Done? <==> WithTangent(old(vertices), indices, tangent, face, vert).Done?
      ensures r.Done? ==> vertices == WithTangent(old(vertices), indices, tangent, face, vert).value
      ensures r.Panic? ==> vertices == old(vertices) && WithTangent(old(vertices), indices, tangent, face, vert) == Panic(r.message)
    {
      var k := 3 * face + vert;
      if k >= |indices| {
        return Panic("index out of bounds: indices");
      }
      var index := indices[k];
      if index >= |vertices| {
        return Panic("index out of bounds: vertices");
      }
      vertices := vertices[index := vertices[index].(tangent := Vec3(tangent.x, tangent.y, tangent.z))];
      r := Done(());
    }
  }

  /** Every corner of every face the generator is told about lies inside the index buffer, so
      within `num_faces` only an index past the vertex buffer can panic. */
  lemma {:induction false} FaceCornersInIndexBuffer(g: TangentGenerator, face: nat, vert: nat)
    requires face < g.NumFaces() && vert < g.NumVerticesOfFace(face)
    ensures 3 * face + vert < |g.indices|
  {
    assert 3 * face + 3 <= 3 * g.NumFaces();
  }

  /** Tangent writes do not disturb what the generator reads: positions, normals and texture
      coordinates of every corner stay as they were. */
  lemma {:induction false} WithTangentKeepsReadAttributes(vertices: seq<VertexAttributes>, indices: seq<nat>, tangent: Vec4,
                                       face: nat, vert: nat, f: nat, v: nat)
    requires WithTangent(vertices, indices, tangent, face, vert).Done?
    ensures var vs := WithTangent(vertices, indices, tangent, face, vert).value;
      && (Corner(vs, indices, f, v).Done? <==> Corner(vertices, indices, f, v).Done?)
      && (Corner(vs, indices, f, v).Done? ==>
            var j := indices[3 * f + v];
            vs[j].position == vertices[j].position && vs[j].normal == vertices[j].normal && vs[j].uv == vertices[j].uv)
  {
    WithTangentChangesOneTangent(vertices, indices, tangent, face, vert);
  }
}
