/** Loading a glTF scene: the node tree is walked in pre-order, each node's transform is its
    parent's times its own (after converting glTF's right-handed frame to the renderer's
    left-handed one by negating z), every primitive of a node's mesh becomes one mesh, and
    every document material becomes one material with three textures, a 1x1 texel standing
    in for each texture the material lacks. A primitive without indices, positions, normals
    or texture coordinates makes the whole load fail. */
module Loader {
  import opened Wrappers
  import opened Math
  import opened Gpu
  import opened Resources
  import opened TangentGeneration

  /** The outcome of a load: the value, a `SceneLoadError` (returned with `?`), or a panic. */
  datatype Load<+T> = Loaded(value: T) | Failed(message: string) | Panicked(message: string)

  /** One primitive as the glTF reader delivers it: each attribute stream present or not. */
  datatype Primitive = Primitive(
    material: Option<nat>, indices: Option<seq<nat>>, positions: Option<seq<Vec3>>,
    normals: Option<seq<Vec3>>, uvs: Option<seq<Vec2>>, tangents: Option<seq<Vec4>>)

  datatype GltfMesh = GltfMesh(name: Option<string>, primitives: seq<Primitive>)

  /** A node with its decomposed local transform, its mesh, and its children. */
  datatype Node = Node(translation: Vec3, rotation: Quat, scale: Vec3, mesh: Option<GltfMesh>, children: seq<Node>)

  /** One `set_tangent_encoded` call made by the tangent generator. */
  datatype TangentCall = TangentCall(tangent: Vec4, face: nat, vert: nat)

  /** The tangent generator, taken as given: the calls it makes for a vertex and index
      buffer. */
  type TangentGen = (seq<VertexAttributes>, seq<nat>) -> seq<TangentCall>

  /** A mesh as `load_mesh` creates it: the vertex and index buffer contents, their counts,
      the mesh uniform, the material index and the name. */
  datatype LoadedMesh = LoadedMesh(
    vertices: seq<VertexAttributes>, indices: seq<nat>, vertexCount: nat, indexCount: nat,
    uniform: MeshUniformData, material: nat, name: string)

  /* ---------------------------------------------------------------------------------------
     Handedness conversion and node transforms
     --------------------------------------------------------------------------------------- */

  /** The rotation with z and w negated: the mirror image in z of the rotation, up to the
      overall sign that does not change a unit quaternion's rotation. */
  function FixRotation(q: Quat): (r: Quat)
    ensures r.x == q.x && r.y == q.y && r.z == -q.z && r.w == -q.w
  {
    Quat(q.x, q.y, -q.z, -q.w)
  }

  /** Fixing twice gives the rotation back: the conversion between the two frames is its own
      inverse. */
  lemma FixRotationInvolution(q: Quat)
    ensures FixRotation(FixRotation(q)) == q
  {
  }

  /** A node's own transform in the renderer's frame. */
  function LocalTransform(n: Node): Mat4
  {
    FromScaleRotationTranslation(n.scale, FixRotation(n.rotation), FlipZ(n.translation))
  }

  /** The transform a node's meshes get and its children inherit: parent times local. */
  function NodeTransform(parent: Mat4, n: Node): Mat4
  {
    Mul(parent, LocalTransform(n))
  }

  /** A glTF tangent in the renderer's frame: z negated, the handedness sign `w` dropped. */
  function FlipTangent(t: Vec4): (r: Vec3)
    ensures r == FlipZ(Vec3(t.x, t.y, t.z))
  {
    Vec3(t.x, t.y, -t.z)
  }

  /* ---------------------------------------------------------------------------------------
     One primitive
     --------------------------------------------------------------------------------------- */

  function Min(a: nat, b: nat): nat
  {
    if a <= b then a else b
  }

  /** All four required streams are present. */
  predicate Complete(p: Primitive)
  {
    p.indices.Some? && p.positions.Some? && p.normals.Some? && p.uvs.Some?
  }

  /** The length of the shortest zipped stream: positions, normals, texture coordinates and,
      when present, tangents. */
  function Shortest(p: Primitive): nat
    requires Complete(p)
  {
    var n := Min(|p.positions.value|, Min(|p.normals.value|, |p.uvs.value|));
    if p.tangents.Some? then Min(n, |p.tangents.value|) else n
  }

  /** The zipped vertex streams: positions and normals mirrored in z, texture coordinates as
      read, and either the mirrored source tangent or a zero tangent for the generator to
      fill. The zip stops at the shortest stream. */
  function ZipVertices(p: Primitive): (vs: seq<VertexAttributes>)
    requires Complete(p)
    ensures |vs| == Shortest(p)
    ensures forall i | 0 <= i < |vs| ::
      && vs[i].position == FlipZ(p.positions.value[i]) && vs[i].normal == FlipZ(p.normals.value[i])
      && vs[i].uv == p.uvs.value[i]
      && vs[i].tangent == if p.tangents.Some? then FlipTangent(p.tangents.value[i]) else Vec3(0.0, 0.0, 0.0)
  {
    seq(Shortest(p), i requires 0 <= i < Shortest(p) =>
      VertexAttributes(FlipZ(p.positions.value[i]), FlipZ(p.normals.value[i]), p.uvs.value[i],
                       if p.tangents.Some? then FlipTangent(p.tangents.value[i]) else Vec3(0.0, 0.0, 0.0)))
  }

  /** The vertices after the generator's calls, applied one after the other; the first call
      whose corner is out of range panics. */
  function ApplyTangents(vs: seq<VertexAttributes>, indices: seq<nat>, calls: seq<TangentCall>): Fallible<seq<VertexAttributes>>
    decreases |calls|
  {
    if calls == [] then Done(vs)
    else match WithTangent(vs, indices, calls[0].tangent, calls[0].face, calls[0].vert)
      case Panic(m) => Panic(m)
      case Done(next) => ApplyTangents(next, indices, calls[1..])
  }

  /** The same vertex count, and the same position, normal and texture coordinate at every
      vertex. */
  predicate SameGeometry(a: seq<VertexAttributes>, b: seq<VertexAttributes>)
  {
    |a| == |b| && forall i | 0 <= i < |a| ::
      a[i].position == b[i].position && a[i].normal == b[i].normal && a[i].uv == b[i].uv
  }

  /** Generated tangents change tangents only: the count and the geometry the generator read
      are as before. */
  lemma {:induction false} ApplyTangentsKeepsGeometry(vs: seq<VertexAttributes>, indices: seq<nat>, calls: seq<TangentCall>)
    requires ApplyTangents(vs, indices, calls).Done?
    ensures SameGeometry(ApplyTangents(vs, indices, calls).value, vs)
    decreases |calls|
  {
    if calls != [] {
      var c := calls[0];
      var next := WithTangent(vs, indices, c.tangent, c.face, c.vert).value;
      WithTangentChangesOneTangent(vs, indices, c.tangent, c.face, c.vert);
      ApplyTangentsKeepsGeometry(next, indices, calls[1..]);
    }
  }

  /** The vertices of a complete primitive: the zipped streams, with the generator's tangents
      when the file has none. */
  function PrimitiveVertices(p: Primitive, gen: TangentGen): Fallible<seq<VertexAttributes>>
    requires Complete(p)
  {
    var vs := ZipVertices(p);
    if p.tangents.Some? then Done(vs) else ApplyTangents(vs, p.indices.value, gen(vs, p.indices.value))
  }

  /** One primitive of `load_mesh`: the four required streams are checked in the order
      indices, positions, normals, texture coordinates, and the first one missing fails the
      load with its own message. */
  function PrimitiveMesh(p: Primitive, transform: Mat4, name: string, gen: TangentGen): (r: Load<LoadedMesh>)
    ensures r.Failed? <==> !Complete(p)
    ensures p.indices.None? ==> r == Failed("Couldn't load indices")
    ensures p.indices.Some? && p.positions.None? ==> r == Failed("Couldn't load positions")
    ensures p.indices.Some? && p.positions.Some? && p.normals.None? ==> r == Failed("Couldn't load normals.")
    ensures p.indices.Some? && p.positions.Some? && p.normals.Some? && p.uvs.None? ==> r == Failed("Couldn't load uvs.")
    ensures r.Loaded? ==>
      && r.value.vertexCount == |r.value.vertices| == Shortest(p)
      && SameGeometry(r.value.vertices, ZipVertices(p))
      && r.value.indices == p.indices.value && r.value.indexCount == |p.indices.value|
      && r.value.uniform == NewMeshUniformData(transform)
      && r.value.material == p.material.GetOr(0) && r.value.name == name
  {
    if p.indices.None? then Failed("Couldn't load indices")
    else if p.positions.None? then Failed("Couldn't load positions")
    else if p.normals.None? then Failed("Couldn't load normals.")
    else if p.uvs.None? then Failed("Couldn't load uvs.")
    else
      match PrimitiveVertices(p, gen)
      case Panic(m) => Panicked(m)
      case Done(vs) =>
        assert SameGeometry(vs, ZipVertices(p)) by {
          if p.tangents.None? {
            ApplyTangentsKeepsGeometry(ZipVertices(p), p.indices.value, gen(ZipVertices(p), p.indices.value));
          }
        }
        Loaded(LoadedMesh(vs, p.indices.value, |vs|, |p.indices.value|, NewMeshUniformData(transform),
                          p.material.GetOr(0), name))
  }

  /** The mesh of the primitive, computed as `load_mesh` does: the tangent generator works on
      a `TangentGenerator` holding copies of the two buffers and writes into its vertices in
      place. */
  method LoadPrimitive(p: Primitive, transform: Mat4, name: string, gen: TangentGen) returns (r: Load<LoadedMesh>)
    ensures r == PrimitiveMesh(p, transform, name, gen)
  {
    if p.indices.None? {
      return Failed("Couldn't load indices");
    }
    if p.positions.None? {
      return Failed("Couldn't load positions");
    }
    if p.normals.None? {
      return Failed("Couldn't load normals.");
    }
    if p.uvs.None? {
      return Failed("Couldn't load uvs.");
    }
    var indices := p.indices.value;
    var vertices := ZipVertices(p);
    if p.tangents.None? {
      var generator := new TangentGenerator(vertices, indices);
      var calls := gen(vertices, indices);
      for i := 0 to |calls|
        invariant generator.indices == indices
        invariant ApplyTangents(vertices, indices, calls) == ApplyTangents(generator.vertices, indices, calls[i..])
      {
        assert calls[i..][1..] == calls[i + 1..];
        var written := generator.SetTangentEncoded(calls[i].tangent, calls[i].face, calls[i].vert);
        if written.Panic? {
          return Panicked(written.message);
        }
      }
      vertices := generator.vertices;
    }
    r := Loaded(LoadedMesh(vertices, indices, |vertices|, |indices|, NewMeshUniformData(transform),
                           p.material.GetOr(0), name));
  }

  /* ---------------------------------------------------------------------------------------
     The node tree
     --------------------------------------------------------------------------------------- */

  /** Sequencing of two loads: the first failure wins, otherwise the meshes are concatenated. */
  function Then(a: Load<seq<LoadedMesh>>, b: Load<seq<LoadedMesh>>): Load<seq<LoadedMesh>>
  {
    match a
    case Failed(m) => Failed(m)
    case Panicked(m) => Panicked(m)
    case Loaded(x) =>
      match b
      case Failed(m) => Failed(m)
      case Panicked(m) => Panicked(m)
      case Loaded(y) => Loaded(x + y)
  }

  function One(a: Load<LoadedMesh>): Load<seq<LoadedMesh>>
  {
    match a
    case Failed(m) => Failed(m)
    case Panicked(m) => Panicked(m)
    case Loaded(x) => Loaded([x])
  }

  /** The meshes of a node's own primitives, in order. */
  function PrimitiveMeshes(ps: seq<Primitive>, transform: Mat4, name: string, gen: TangentGen): Load<seq<LoadedMesh>>
  {
    if ps == [] then Loaded([])
    else Then(PrimitiveMeshes(ps[..|ps| - 1], transform, name, gen), One(PrimitiveMesh(ps[|ps| - 1], transform, name, gen)))
  }

  /** The name a node's meshes carry: the glTF mesh name, or "Mesh". */
  function MeshName(m: GltfMesh): string
  {
    m.name.GetOr("Mesh")
  }

  /** `load_mesh` as a function: the node's own meshes, then each child's, in child order,
      every child inheriting the node's transform. */
  function MeshesOf(n: Node, parent: Mat4, gen: TangentGen): Load<seq<LoadedMesh>>
    decreases n
  {
    var transform := NodeTransform(parent, n);
    var own := match n.mesh
      case None => Loaded([])
      case Some(m) => PrimitiveMeshes(m.primitives, transform, MeshName(m), gen);
    Then(own, ChildMeshes(n.children, transform, gen))
  }

  function ChildMeshes(cs: seq<Node>, transform: Mat4, gen: TangentGen): Load<seq<LoadedMesh>>
    decreases cs
  {
    if cs == [] then Loaded([])
    else Then(ChildMeshes(cs[..|cs| - 1], transform, gen), MeshesOf(cs[|cs| - 1], transform, gen))
  }

  /** `Scene::load_mesh`: the node's own primitives, then recursion over the children, each
      appending to a growing list of meshes; the first error or panic ends the walk. */
  method LoadMesh(n: Node, parent: Mat4, gen: TangentGen) returns (r: Load<seq<LoadedMesh>>)
    ensures r == MeshesOf(n, parent, gen)
    decreases n, 1
  {
    var transform := NodeTransform(parent, n);
    var own: Load<seq<LoadedMesh>> := Loaded([]);
    if n.mesh.Some? {
      own := LoadPrimitives(n.mesh.value.primitives, transform, MeshName(n.mesh.value), gen);
      if !own.Loaded? {
        return own;
      }
    }
    var children := LoadChildren(n.children, transform, gen);
    if !children.Loaded? {
      return children;
    }
    r := Loaded(own.value + children.value);
  }

  /** The loop of `load_mesh` over the node's primitives. */
  method LoadPrimitives(ps: seq<Primitive>, transform: Mat4, name: string, gen: TangentGen) returns (r: Load<seq<LoadedMesh>>)
    ensures r == PrimitiveMeshes(ps, transform, name, gen)
  {
    var meshes: seq<LoadedMesh> := [];
    for i := 0 to |ps|
      invariant PrimitiveMeshes(ps[..i], transform, name, gen) == Loaded(meshes)
    {
      assert ps[..i + 1][..i] == ps[..i];
      var m := LoadPrimitive(ps[i], transform, name, gen);
      if !m.Loaded? {
        PrimitiveFailurePersists(ps, i + 1, transform, name, gen);
        return if m.Failed? then Failed(m.message) else Panicked(m.message);
      }
      meshes := meshes + [m.value];
    }
    assert ps[..|ps|] == ps;
    r := Loaded(meshes);
  }

  /** The loop of `load_mesh` over the node's children, each appending its own meshes. */
  method LoadChildren(cs: seq<Node>, transform: Mat4, gen: TangentGen) returns (r: Load<seq<LoadedMesh>>)
    ensures r == ChildMeshes(cs, transform, gen)
    decreases cs, 0
  {
    var meshes: seq<LoadedMesh> := [];
    for i := 0 to |cs|
      invariant ChildMeshes(cs[..i], transform, gen) == Loaded(meshes)
    {
      assert cs[..i + 1][..i] == cs[..i];
      var sub := LoadMesh(cs[i], transform, gen);
      if !sub.Loaded? {
        ChildFailurePersists(cs, i + 1, transform, gen);
        return sub;
      }
      meshes := meshes + sub.value;
    }
    assert cs[..|cs|] == cs;
    r := Loaded(meshes);
  }

  /** Once a prefix of the primitives fails, the whole list fails the same way. */
  lemma {:induction false} PrimitiveFailurePersists(ps: seq<Primitive>, k: nat, transform: Mat4, name: string, gen: TangentGen)
    requires k <= |ps| && !PrimitiveMeshes(ps[..k], transform, name, gen).Loaded?
    ensures PrimitiveMeshes(ps, transform, name, gen) == PrimitiveMeshes(ps[..k], transform, name, gen)
    decreases |ps| - k
  {
    if k < |ps| {
      assert ps[..k + 1][..k] == ps[..k];
      PrimitiveFailurePersists(ps, k + 1, transform, name, gen);
    } else {
      assert ps[..k] == ps;
    }
  }

  /** Once a prefix of the children fails, all of them fail the same way. */
  lemma {:induction false} ChildFailurePersists(cs: seq<Node>, k: nat, transform: Mat4, gen: TangentGen)
    requires k <= |cs| && !ChildMeshes(cs[..k], transform, gen).Loaded?
    ensures ChildMeshes(cs, transform, gen) == ChildMeshes(cs[..k], transform, gen)
    decreases |cs| - k
  {
    if k < |cs| {
      assert cs[..k + 1][..k] == cs[..k];
      ChildFailurePersists(cs, k + 1, transform, gen);
    } else {
      assert cs[..k] == cs;
    }
  }

  /* ---------------------------------------------------------------------------------------
     The walk as a pre-order list of placed primitives
     --------------------------------------------------------------------------------------- */

  /** A primitive together with the transform and the name its mesh gets. */
  datatype Placement = Placement(primitive: Primitive, transform: Mat4, name: string)

  function Placed(ps: seq<Primitive>, transform: Mat4, name: string): (r: seq<Placement>)
    ensures |r| == |ps|
    ensures forall k | 0 <= k < |ps| :: r[k] == Placement(ps[k], transform, name)
  {
    seq(|ps|, k requires 0 <= k < |ps| => Placement(ps[k], transform, name))
  }

  /** The primitives of a subtree in pre-order: the node's own, in order, under the node's
      composed transform, then each child's subtree in child order under that same transform
      as the child's parent. */
  function PlacedTree(n: Node, parent: Mat4): seq<Placement>
    decreases n
  {
    var transform := NodeTransform(parent, n);
    var own := match n.mesh
      case None => []
      case Some(m) => Placed(m.primitives, transform, MeshName(m));
    own + PlacedChildren(n.children, transform)
  }

  function PlacedChildren(cs: seq<Node>, transform: Mat4): seq<Placement>
    decreases cs
  {
    if cs == [] then []
    else PlacedChildren(cs[..|cs| - 1], transform) + PlacedTree(cs[|cs| - 1], transform)
  }

  /** Loading a flat list of placed primitives, one mesh each, stopping at the first that
      does not load. */
  function LoadAll(ps: seq<Placement>, gen: TangentGen): Load<seq<LoadedMesh>>
  {
    if ps == [] then Loaded([])
    else
      var last := ps[|ps| - 1];
      Then(LoadAll(ps[..|ps| - 1], gen), One(PrimitiveMesh(last.primitive, last.transform, last.name, gen)))
  }

  /** Loading a concatenation is loading the two halves in sequence. */
  lemma {:induction false} LoadAllAppend(a: seq<Placement>, b: seq<Placement>, gen: TangentGen)
    ensures LoadAll(a + b, gen) == Then(LoadAll(a, gen), LoadAll(b, gen))
    decreases |b|
  {
    if b == [] {
      assert a + b == a;
      var x := LoadAll(a, gen);
      assert x.Loaded? ==> x.value + [] == x.value;
    } else {
      var init, last := b[..|b| - 1], b[|b| - 1];
      assert (a + b)[..|a + b| - 1] == a + init && (a + b)[|a + b| - 1] == last;
      LoadAllAppend(a, init, gen);
      var x, y, z := LoadAll(a, gen), LoadAll(init, gen), One(PrimitiveMesh(last.primitive, last.transform, last.name, gen));
      assert Then(Then(x, y), z) == Then(x, Then(y, z)) by {
        if x.Loaded? && y.Loaded? && z.Loaded? {
          assert x.value + y.value + z.value == x.value + (y.value + z.value);
        }
      }
    }
  }

  /** A node's own primitives are its placements, in order. */
  lemma {:induction false} PrimitiveMeshesArePlaced(ps: seq<Primitive>, transform: Mat4, name: string, gen: TangentGen)
    ensures PrimitiveMeshes(ps, transform, name, gen) == LoadAll(Placed(ps, transform, name), gen)
    decreases |ps|
  {
    if ps != [] {
      assert Placed(ps, transform, name)[..|ps| - 1] == Placed(ps[..|ps| - 1], transform, name);
      PrimitiveMeshesArePlaced(ps[..|ps| - 1], transform, name, gen);
    }
  }

  /** `load_mesh` loads exactly the subtree's pre-order list of placed primitives. */
  lemma {:induction false} WalkIsPreOrder(n: Node, parent: Mat4, gen: TangentGen)
    ensures MeshesOf(n, parent, gen) == LoadAll(PlacedTree(n, parent), gen)
    decreases n, 1
  {
    var transform := NodeTransform(parent, n);
    var own := match n.mesh
      case None => []
      case Some(m) => Placed(m.primitives, transform, MeshName(m));
    if n.mesh.Some? {
      PrimitiveMeshesArePlaced(n.mesh.value.primitives, transform, MeshName(n.mesh.value), gen);
    }
    ChildrenArePlaced(n.children, transform, gen);
    LoadAllAppend(own, PlacedChildren(n.children, transform), gen);
  }

  lemma {:induction false} ChildrenArePlaced(cs: seq<Node>, transform: Mat4, gen: TangentGen)
    ensures ChildMeshes(cs, transform, gen) == LoadAll(PlacedChildren(cs, transform), gen)
    decreases cs, 0
  {
    if cs != [] {
      ChildrenArePlaced(cs[..|cs| - 1], transform, gen);
      WalkIsPreOrder(cs[|cs| - 1], transform, gen);
      LoadAllAppend(PlacedChildren(cs[..|cs| - 1], transform), PlacedTree(cs[|cs| - 1], transform), gen);
    }
  }

  /** A list loads exactly when every placed primitive loads, and then it yields one mesh
      per placement, in order, each the mesh of its own placement. */
  lemma {:induction false} LoadAllShape(ps: seq<Placement>, gen: TangentGen)
    ensures LoadAll(ps, gen).Loaded? <==>
      forall k | 0 <= k < |ps| :: PrimitiveMesh(ps[k].primitive, ps[k].transform, ps[k].name, gen).Loaded?
    ensures LoadAll(ps, gen).Loaded? ==>
      && |LoadAll(ps, gen).value| == |ps|
      && forall k | 0 <= k < |ps| ::
           LoadAll(ps, gen).value[k] == PrimitiveMesh(ps[k].primitive, ps[k].transform, ps[k].name, gen).value
    decreases |ps|
  {
    if ps != [] {
      var n := |ps| - 1;
      var init, last := ps[..n], ps[n];
      LoadAllShape(init, gen);
      assert forall k | 0 <= k < n :: init[k] == ps[k];
      var head, pm := LoadAll(init, gen), PrimitiveMesh(last.primitive, last.transform, last.name, gen);
      assert LoadAll(ps, gen) == Then(head, One(pm));
      if head.Loaded? && pm.Loaded? {
        var v := LoadAll(ps, gen).value;
        assert v == head.value + [pm.value];
        forall k | 0 <= k < |ps|
          ensures v[k] == PrimitiveMesh(ps[k].primitive, ps[k].transform, ps[k].name, gen).value
        {
          if k < n {
            assert v[k] == head.value[k];
          }
        }
      } else if !head.Loaded? {
        var k :| 0 <= k < n && !PrimitiveMesh(init[k].primitive, init[k].transform, init[k].name, gen).Loaded?;
        assert !PrimitiveMesh(ps[k].primitive, ps[k].transform, ps[k].name, gen).Loaded?;
      }
    }
  }

  /** A list that does not load fails with the outcome of its first primitive that does not
      load, every primitive before it having loaded. */
  lemma {:induction false} LoadAllFirstFailure(ps: seq<Placement>, gen: TangentGen)
    requires !LoadAll(ps, gen).Loaded?
    ensures exists k | 0 <= k < |ps| ::
      && (forall j | 0 <= j < k :: PrimitiveMesh(ps[j].primitive, ps[j].transform, ps[j].name, gen).Loaded?)
      && !PrimitiveMesh(ps[k].primitive, ps[k].transform, ps[k].name, gen).Loaded?
      && LoadAll(ps, gen) == One(PrimitiveMesh(ps[k].primitive, ps[k].transform, ps[k].name, gen))
    decreases |ps|
  {
    var n := |ps| - 1;
    var init, last := ps[..n], ps[n];
    assert forall j | 0 <= j < n :: init[j] == ps[j];
    var head, pm := LoadAll(init, gen), PrimitiveMesh(last.primitive, last.transform, last.name, gen);
    assert LoadAll(ps, gen) == Then(head, One(pm));
    if head.Loaded? {
      LoadAllShape(init, gen);
      assert LoadAll(ps, gen) == One(pm);
    } else {
      LoadAllFirstFailure(init, gen);
      var k :| 0 <= k < n
        && (forall j | 0 <= j < k :: PrimitiveMesh(init[j].primitive, init[j].transform, init[j].name, gen).Loaded?)
        && !PrimitiveMesh(init[k].primitive, init[k].transform, init[k].name, gen).Loaded?
        && head == One(PrimitiveMesh(init[k].primitive, init[k].transform, init[k].name, gen));
      assert init[k] == ps[k];
    }
  }

  /** Every mesh a successful walk yields is the mesh of the pre-order placement at its
      position: the composed transform of its node goes into its uniform, and the node's
      mesh name becomes its name. */
  lemma {:induction false} WalkMeshesFollowPlacements(n: Node, parent: Mat4, gen: TangentGen)
    requires MeshesOf(n, parent, gen).Loaded?
    ensures var ms, ps := MeshesOf(n, parent, gen).value, PlacedTree(n, parent);
      && |ms| == |ps|
      && forall k | 0 <= k < |ms| ::
           && ms[k].uniform == NewMeshUniformData(ps[k].transform)
           && ms[k].name == ps[k].name
           && ps[k].primitive.indices == Some(ms[k].indices)
           && ms[k].material == ps[k].primitive.material.GetOr(0)
  {
    WalkIsPreOrder(n, parent, gen);
    LoadAllShape(PlacedTree(n, parent), gen);
  }

  /* ---------------------------------------------------------------------------------------
     RGB to RGBA expansion
     --------------------------------------------------------------------------------------- */

  /** `pixels.chunks(3)`, each chunk pushed as red, green, blue and 255; a trailing chunk of
      one or two bytes panics when its third byte is indexed. */
  function ExpandRgb(px: seq<byte>): Fallible<seq<byte>>
    decreases |px|
  {
    if px == [] then Done([])
    else if |px| < 3 then Panic("index out of bounds")
    else match ExpandRgb(px[3..])
      case Panic(m) => Panic(m)
      case Done(rest) => Done([px[0], px[1], px[2], 255] + rest)
  }

  /** `data` followed by what the rest of the expansion produces. */
  function Prefixed(data: seq<byte>, r: Fallible<seq<byte>>): Fallible<seq<byte>>
  {
    match r
    case Panic(m) => Panic(m)
    case Done(rest) => Done(data + rest)
  }

  /** The k-th RGBA texel of a byte string. */
  function Rgba(s: seq<byte>, k: nat): seq<byte>
    requires 4 * k + 4 <= |s|
  {
    s[4 * k..4 * k + 4]
  }

  /** The k-th RGB texel of a byte string. */
  function Rgb(s: seq<byte>, k: nat): seq<byte>
    requires 3 * k + 3 <= |s|
  {
    s[3 * k..3 * k + 3]
  }

  /** The expansion succeeds exactly when the length is a multiple of three; it then yields
      one RGBA texel per RGB texel, in order, the same colour with alpha 255. */
  lemma {:induction false} ExpandRgbTexels(px: seq<byte>)
    ensures ExpandRgb(px).Done? <==> |px| % 3 == 0
    ensures ExpandRgb(px).Done? ==>
      var r := ExpandRgb(px).value;
      && |r| == 4 * (|px| / 3)
      && forall k | 0 <= k < |px| / 3 :: Rgba(r, k) == Rgb(px, k) + [255]
    decreases |px|
  {
    if |px| >= 3 {
      var tail := px[3..];
      ExpandRgbTexels(tail);
      if ExpandRgb(tail).Done? {
        var rest := ExpandRgb(tail).value;
        var r := ExpandRgb(px).value;
        assert r == [px[0], px[1], px[2], 255] + rest;
        forall k | 0 <= k < |px| / 3
          ensures Rgba(r, k) == Rgb(px, k) + [255]
        {
          if k == 0 {
            assert Rgba(r, 0) == r[0..4] && Rgb(px, 0) == px[0..3];
          } else {
            assert Rgba(r, k) == Rgba(rest, k - 1);
            assert Rgb(px, k) == Rgb(tail, k - 1);
          }
        }
      }
    }
  }

  /** The expansion loop of `from_gltf`: it walks the chunks front to back, pushing four
      bytes per chunk. */
  method ExpandRgbPixels(px: seq<byte>) returns (r: Fallible<seq<byte>>)
    ensures r == ExpandRgb(px)
  {
    var data: seq<byte> := [];
    var pos := 0;
    assert px[pos..] == px;
    assert ExpandRgb(px).Done? ==> [] + ExpandRgb(px).value == ExpandRgb(px).value;
    while pos < |px|
      invariant pos <= |px|
      invariant ExpandRgb(px) == Prefixed(data, ExpandRgb(px[pos..]))
      decreases |px| - pos
    {
      var chunk := px[pos..Min(pos + 3, |px|)];
      if |chunk| < 3 {
        return Panic("index out of bounds");
      }
      var texel := [chunk[0], chunk[1], chunk[2], 255];
      assert px[pos..][3..] == px[pos + 3..];
      assert ExpandRgb(px[pos..]) == Prefixed(texel, ExpandRgb(px[pos + 3..]));
      assert ExpandRgb(px[pos + 3..]).Done? ==>
        data + (texel + ExpandRgb(px[pos + 3..]).value) == (data + texel) + ExpandRgb(px[pos + 3..]).value;
      data := data + texel;
      pos := pos + 3;
    }
    assert px[pos..] == [] && data + [] == data;
    r := Done(data);
  }

  /* ---------------------------------------------------------------------------------------
     Materials
     --------------------------------------------------------------------------------------- */

  datatype ImageFormat = R8G8B8A8 | R8G8B8 | OtherImageFormat

  /** A decoded image of the document: its pixel format, size and pixel bytes. */
  datatype Image = Image(format: ImageFormat, width: nat, height: nat, pixels: seq<byte>)

  /** The parts of a glTF material the loader reads; a texture is named by the index of its
      source image. */
  datatype GltfMaterial = GltfMaterial(
    baseColorFactor: Vec4, roughness: real, metallic: real,
    baseColorTexture: Option<nat>, normalTexture: Option<nat>, metallicRoughnessTexture: Option<nat>)

  datatype MaterialUniformData = MaterialUniformData(ambient: Vec4, diffuse: Vec4, specular: Vec4)

  /** `Vec4::splat` */
  function Splat(x: real): Vec4
  {
    Vec4(x, x, x, x)
  }

  /** What a material texture is created from: RGBA8 bytes, a size, a format and a usage. */
  datatype MaterialTexture = MaterialTexture(
    bytes: seq<byte>, width: nat, height: nat, format: TextureFormat, usage: set<TextureUsage>)

  datatype Material = Material(
    data: MaterialUniformData, albedo: MaterialTexture, normal: MaterialTexture, metalRoughness: MaterialTexture)

  /** Every material texture can be sampled and copied into. */
  const MaterialTextureUsage: set<TextureUsage> := {TextureBinding, CopyDst}

  /** The texels standing in for absent textures: opaque white, the unperturbed normal
      (0.5, 0.5, 1) and full occlusion with mid roughness and metalness. */
  const WhiteTexel: seq<byte> := [255, 255, 255, 255]
  const FlatNormalTexel: seq<byte> := [128, 128, 255, 255]
  const MetalRoughnessTexel: seq<byte> := [255, 128, 128, 255]

  /** An image's pixels as RGBA bytes: RGBA passes through, RGB is expanded, and any other
      format is `todo!()`. */
  function ImageBytes(img: Image): (r: Fallible<seq<byte>>)
    ensures r.Done? <==> img.format == R8G8B8A8 || (img.format == R8G8B8 && |img.pixels| % 3 == 0)
    ensures img.format == R8G8B8A8 ==> r == Done(img.pixels)
    ensures img.format == OtherImageFormat ==> r == Panic("not yet implemented")
  {
    match img.format
    case R8G8B8A8 => Done(img.pixels)
    case R8G8B8 =>
      ExpandRgbTexels(img.pixels);
      ExpandRgb(img.pixels)
    case OtherImageFormat => Panic("not yet implemented")
  }

  /** The texture for one slot of a material: the referenced image in the slot's format, or
      the 1x1 fallback texel; an image index past the document's images panics. */
  function SlotTexture(images: seq<Image>, index: Option<nat>, fallback: seq<byte>, format: TextureFormat)
    : (r: Fallible<MaterialTexture>)
    ensures index.None? ==> r == Done(MaterialTexture(fallback, 1, 1, format, MaterialTextureUsage))
    ensures index.Some? && index.value >= |images| ==> r.Panic?
    ensures index.Some? && index.value < |images| ==>
      (r.Done? <==> ImageBytes(images[index.value]).Done?)
    ensures r.Done? ==> r.value.format == format && r.value.usage == MaterialTextureUsage
    ensures r.Done? && index.Some? ==>
      var img := images[index.value];
      r.value == MaterialTexture(ImageBytes(img).value, img.width, img.height, format, MaterialTextureUsage)
  {
    match index
    case None => Done(MaterialTexture(fallback, 1, 1, format, MaterialTextureUsage))
    case Some(i) =>
      if i >= |images| then Panic("index out of bounds")
      else match ImageBytes(images[i])
        case Panic(m) => Panic(m)
        case Done(bytes) => Done(MaterialTexture(bytes, images[i].width, images[i].height, format, MaterialTextureUsage))
  }

  /** One document material: the uniform from the PBR factors, then the albedo (sRGB), normal
      and metallic-roughness textures, in that order; the first panic wins. */
  function MaterialOf(m: GltfMaterial, images: seq<Image>): (r: Fallible<Material>)
    ensures r.Done? <==>
      && SlotTexture(images, m.baseColorTexture, WhiteTexel, Rgba8UnormSrgb).Done?
      && SlotTexture(images, m.normalTexture, FlatNormalTexel, Rgba8Unorm).Done?
      && SlotTexture(images, m.metallicRoughnessTexture, MetalRoughnessTexel, Rgba8Unorm).Done?
    ensures r.Done? ==>
      && r.value.data == MaterialUniformData(m.baseColorFactor, Splat(m.roughness), Splat(m.metallic))
      && r.value.albedo == SlotTexture(images, m.baseColorTexture, WhiteTexel, Rgba8UnormSrgb).value
      && r.value.normal == SlotTexture(images, m.normalTexture, FlatNormalTexel, Rgba8Unorm).value
      && r.value.metalRoughness == SlotTexture(images, m.metallicRoughnessTexture, MetalRoughnessTexel, Rgba8Unorm).value
  {
    var data := MaterialUniformData(m.baseColorFactor, Splat(m.roughness), Splat(m.metallic));
    match SlotTexture(images, m.baseColorTexture, WhiteTexel, Rgba8UnormSrgb)
    case Panic(e) => Panic(e)
    case Done(albedo) =>
      match SlotTexture(images, m.normalTexture, FlatNormalTexel, Rgba8Unorm)
      case Panic(e) => Panic(e)
      case Done(normal) =>
        match SlotTexture(images, m.metallicRoughnessTexture, MetalRoughnessTexel, Rgba8Unorm)
        case Panic(e) => Panic(e)
        case Done(metalRoughness) => Done(Material(data, albedo, normal, metalRoughness))
  }

  /** A material without textures never panics, and gets the three fallback texels. */
  lemma UntexturedMaterialFallsBack(m: GltfMaterial, images: seq<Image>)
    requires m.baseColorTexture.None? && m.normalTexture.None? && m.metallicRoughnessTexture.None?
    ensures MaterialOf(m, images).Done?
    ensures var mat := MaterialOf(m, images).value;
      && mat.albedo == MaterialTexture([255, 255, 255, 255], 1, 1, Rgba8UnormSrgb, {TextureBinding, CopyDst})
      && mat.normal == MaterialTexture([128, 128, 255, 255], 1, 1, Rgba8Unorm, {TextureBinding, CopyDst})
      && mat.metalRoughness == MaterialTexture([255, 128, 128, 255], 1, 1, Rgba8Unorm, {TextureBinding, CopyDst})
  {
  }

  /** The document's materials, in order; the first one that panics ends the load. */
  function Materials(ms: seq<GltfMaterial>, images: seq<Image>): Fallible<seq<Material>>
  {
    if ms == [] then Done([])
    else match Materials(ms[..|ms| - 1], images)
      case Panic(e) => Panic(e)
      case Done(init) =>
        match MaterialOf(ms[|ms| - 1], images)
        case Panic(e) => Panic(e)
        case Done(last) => Done(init + [last])
  }

  /** Loading succeeds exactly when every material loads, and then yields one material per
      document material, in order. */
  lemma {:induction false} MaterialsOnePerDocumentMaterial(ms: seq<GltfMaterial>, images: seq<Image>)
    ensures Materials(ms, images).Done? <==> forall k | 0 <= k < |ms| :: MaterialOf(ms[k], images).Done?
    ensures Materials(ms, images).Done? ==>
      && |Materials(ms, images).value| == |ms|
      && forall k | 0 <= k < |ms| :: Materials(ms, images).value[k] == MaterialOf(ms[k], images).value
    decreases |ms|
  {
    if ms != [] {
      var init := ms[..|ms| - 1];
      MaterialsOnePerDocumentMaterial(init, images);
      assert forall k | 0 <= k < |init| :: init[k] == ms[k];
    }
  }

  /* ---------------------------------------------------------------------------------------
     The scene
     --------------------------------------------------------------------------------------- */

  datatype PointLight = PointLight(position: Vec3, color: Vec3)

  /** The four white lights every scene gets, at the corners of a square in the plane
      z = -1. */
  function DefaultLights(): (l: seq<PointLight>)
    ensures |l| == 4
    ensures forall i | 0 <= i < 4 ::
      && l[i].color == Vec3(1.0, 1.0, 1.0) && l[i].position.z == -1.0
      && (l[i].position.x == 4.0 || l[i].position.x == -4.0)
      && (l[i].position.y == 4.0 || l[i].position.y == -4.0)
    ensures forall i, j | 0 <= i < j < 4 :: l[i].position != l[j].position
  {
    [PointLight(Vec3(-4.0, 4.0, -1.0), Vec3(1.0, 1.0, 1.0)), PointLight(Vec3(4.0, 4.0, -1.0), Vec3(1.0, 1.0, 1.0)),
     PointLight(Vec3(-4.0, -4.0, -1.0), Vec3(1.0, 1.0, 1.0)), PointLight(Vec3(4.0, -4.0, -1.0), Vec3(1.0, 1.0, 1.0))]
  }

  /** A loaded scene: its meshes and materials, the scene uniform, the inputs of the shadow
      matrices (light position and direction), and the point lights. */
  datatype SceneData = SceneData(
    meshes: seq<LoadedMesh>, materials: seq<Material>, scene: SceneUniformData,
    shadowEye: Vec3, shadowDirection: Vec3, lights: seq<PointLight>)

  /** The uniforms and lights shared by every scene, around the given meshes and materials. */
  function SceneWith(meshes: seq<LoadedMesh>, materials: seq<Material>): SceneData
  {
    SceneData(meshes, materials, NewSceneUniformData(), Vec3(100.0, 100.0, 100.0), Vec3(1.0, 0.0, 0.0), DefaultLights())
  }

  /** `Scene::new`: no meshes and no materials. */
  function NewScene(): (s: SceneData)
    ensures s.meshes == [] && s.materials == []
    ensures s.scene == NewSceneUniformData() && |s.lights| == 4
  {
    SceneWith([], [])
  }

  /** What `gltf::import` yields: the default scene's root nodes if there is one, the
      materials and the decoded images. */
  datatype Document = Document(defaultScene: Option<seq<Node>>, materials: seq<GltfMaterial>, images: seq<Image>)

  /** `from_gltf` as a function of the import's outcome: an import error or a missing default
      scene panics; then the roots are walked from the identity transform, and a failure
      there is returned before any material is built; then every material is built. */
  function SceneOf(imported: Result<Document>, gen: TangentGen): (r: Load<SceneData>)
    ensures imported.Err? ==> r.Panicked?
    ensures imported.Ok? && imported.value.defaultScene.None? ==> r.Panicked?
    ensures r.Failed? ==> imported.Ok? && imported.value.defaultScene.Some?
    ensures r.Loaded? ==>
      && imported.Ok? && imported.value.defaultScene.Some?
      && ChildMeshes(imported.value.defaultScene.value, Identity, gen) == Loaded(r.value.meshes)
      && Materials(imported.value.materials, imported.value.images) == Done(r.value.materials)
      && r.value == SceneWith(r.value.meshes, r.value.materials)
  {
    match imported
    case Err(_) => Panicked("called `Result::unwrap()` on an `Err` value")
    case Ok(doc) =>
      match doc.defaultScene
      case None => Panicked("called `Option::unwrap()` on a `None` value")
      case Some(roots) =>
        match ChildMeshes(roots, Identity, gen)
        case Failed(m) => Failed(m)
        case Panicked(m) => Panicked(m)
        case Loaded(meshes) =>
          match Materials(doc.materials, doc.images)
          case Panic(m) => Panicked(m)
          case Done(materials) => Loaded(SceneWith(meshes, materials))
  }

  /** `Scene::from_gltf`, with the outcome of `gltf::import` as a parameter. The loop over the
      default scene's roots is the loop `LoadChildren` runs, from the identity transform. */
  method FromGltf(imported: Result<Document>, gen: TangentGen) returns (r: Load<SceneData>)
    ensures r == SceneOf(imported, gen)
  {
    if imported.Err? {
      return Panicked("called `Result::unwrap()` on an `Err` value");
    }
    var doc := imported.value;
    if doc.defaultScene.None? {
      return Panicked("called `Option::unwrap()` on a `None` value");
    }
    var meshes := LoadChildren(doc.defaultScene.value, Identity, gen);
    if !meshes.Loaded? {
      return if meshes.Failed? then Failed(meshes.message) else Panicked(meshes.message);
    }
    var materials: seq<Material> := [];
    for i := 0 to |doc.materials|
      invariant Materials(doc.materials[..i], doc.images) == Done(materials)
    {
      assert doc.materials[..i + 1][..i] == doc.materials[..i];
      var m := MaterialOf(doc.materials[i], doc.images);
      if m.Panic? {
        MaterialFailurePersists(doc.materials, i + 1, doc.images);
        return Panicked(m.message);
      }
      materials := materials + [m.value];
    }
    assert doc.materials[..|doc.materials|] == doc.materials;
    r := Loaded(SceneWith(meshes.value, materials));
  }

  /** Once a prefix of the materials panics, the whole list panics the same way. */
  lemma {:induction false} MaterialFailurePersists(ms: seq<GltfMaterial>, k: nat, images: seq<Image>)
    requires k <= |ms| && Materials(ms[..k], images).Panic?
    ensures Materials(ms, images) == Materials(ms[..k], images)
    decreases |ms| - k
  {
    if k < |ms| {
      assert ms[..k + 1][..k] == ms[..k];
      MaterialFailurePersists(ms, k + 1, images);
    } else {
      assert ms[..k] == ms;
    }
  }

  /** A loaded scene holds the pre-order meshes of the default scene's roots, each root
      starting from the identity transform, and one material per document material. */
  lemma {:induction false} LoadedSceneShape(doc: Document, gen: TangentGen)
    requires SceneOf(Ok(doc), gen).Loaded?
    ensures var s, ps := SceneOf(Ok(doc), gen).value, PlacedChildren(doc.defaultScene.value, Identity);
      && |s.meshes| == |ps|
      && (forall k | 0 <= k < |ps| ::
            && PrimitiveMesh(ps[k].primitive, ps[k].transform, ps[k].name, gen).Loaded?
            && s.meshes[k] == PrimitiveMesh(ps[k].primitive, ps[k].transform, ps[k].name, gen).value)
      && |s.materials| == |doc.materials|
      && (forall k | 0 <= k < |doc.materials| :: 
            MaterialOf(doc.materials[k], doc.images).Done? && s.materials[k] == MaterialOf(doc.materials[k], doc.images).value)
  {
    ChildrenArePlaced(doc.defaultScene.value, Identity, gen);
    LoadAllShape(PlacedChildren(doc.defaultScene.value, Identity), gen);
    MaterialsOnePerDocumentMaterial(doc.materials, doc.images);
  }

  /** A document whose default scene and material list are empty loads to `Scene::new`. */
  lemma EmptyDocumentIsNewScene(images: seq<Image>, gen: TangentGen)
    ensures SceneOf(Ok(Document(Some([]), [], images)), gen) == Loaded(NewScene())
  {
  }
}
