/** The scene as a value: its geometry, material table, uniforms and the two
    lazily built GPU buffers, with one function per operation. The class in
    scene.dfy is proved against these functions; the lemmas here state what
    the operations promise. A GPU buffer is modelled as a snapshot of the
    sequence it was built from. */
module SceneModel {
  import opened SceneValues

  /** The primitive type an index buffer is built for; the scene only ever
      builds triangle lists. */
  datatype PrimitiveType = TrianglesList

  /** A vertex buffer holds a copy of the vertices it was built from. */
  datatype VertexBuffer = VertexBuffer(contents: seq<Vertex>)

  /** An index buffer holds a copy of the indices it was built from. */
  datatype IndexBuffer = IndexBuffer(primitive: PrimitiveType, contents: seq<U32>)

  /** The fatal conditions of the core, each of which aborts the program. */
  datatype Failure =
    | MissingIndices   // draw with no index buffer and no indices
    | MissingUniforms  // draw before any uniforms were set
    | AddWithOverflow  // the material counter passes 255

  /** The message the program aborts with. */
  function Message(f: Failure): (m: string)
    ensures m != []
  {
    match f
    case MissingIndices => "Missing indices"
    case MissingUniforms => "Cannot draw before specifing uniforms"
    case AddWithOverflow => "attempt to add with overflow"
  }

  lemma MessagesDistinct(f: Failure, g: Failure)
    ensures Message(f) == Message(g) <==> f == g
  {
  }

  datatype Result<T> = Ok(value: T) | Err(failure: Failure)

  type Rgba = (F32, F32, F32, F32)

  /** The colour every frame is cleared to: opaque blue. */
  const BLUE: Rgba := (ZERO, ZERO, ONE, ONE)

  /** One presented frame: cleared to `clear`, then one indexed draw call
      over the two buffers with the given uniforms. */
  datatype Frame<U> = Frame(clear: Rgba, vertexBuffer: VertexBuffer, indexBuffer: IndexBuffer, uniforms: U)

  datatype DrawResult<U> = Drawn(frame: Frame<U>) | Failed(failure: Failure)

  /** Every field of a `Scene`. */
  datatype SceneState<U> = SceneState(
    vertices: seq<Vertex>,
    indices: seq<U32>,
    vertexBuffer: Option<VertexBuffer>,
    indexBuffer: Option<IndexBuffer>,
    uniforms: Option<U>,
    materials: map<U8, Material>,
    idCounter: U8)

  /** The cache invariant: a present buffer is a copy of the current
      geometry, and an index buffer exists only for a non-empty triangle
      list. */
  predicate Consistent<U>(s: SceneState<U>) {
    && (s.vertexBuffer.Some? ==> s.vertexBuffer.value.contents == s.vertices)
    && (s.indexBuffer.Some? ==>
          && s.indexBuffer.value.contents == s.indices
          && s.indexBuffer.value.primitive == TrianglesList
          && |s.indices| > 0)
  }

  /** `Scene::new`. */
  function Init<U>(): (s: SceneState<U>)
    ensures s.vertices == [] && s.indices == [] && s.materials == map[]
    ensures s.idCounter == 0
    ensures s.vertexBuffer == None && s.indexBuffer == None && s.uniforms == None
    ensures Consistent(s)
  {
    SceneState([], [], None, None, None, map[], 0)
  }

  /** `set_vertices`: the vertex list is replaced and both buffers are
      dropped; indices, materials, counter and uniforms stay. */
  function SetVertices<U>(s: SceneState<U>, vs: seq<Vertex>): (r: SceneState<U>)
    ensures r.vertices == vs
    ensures r.vertexBuffer == None && r.indexBuffer == None
    ensures r.indices == s.indices && r.materials == s.materials
    ensures r.idCounter == s.idCounter && r.uniforms == s.uniforms
    ensures Consistent(r)
  {
    s.(vertices := vs, vertexBuffer := None, indexBuffer := None)
  }

  /** `set_indices`: the index list is replaced and both buffers are
      dropped; nothing else changes. */
  function SetIndices<U>(s: SceneState<U>, ix: seq<U32>): (r: SceneState<U>)
    ensures r.indices == ix
    ensures r.vertexBuffer == None && r.indexBuffer == None
    ensures r.vertices == s.vertices && r.materials == s.materials
    ensures r.idCounter == s.idCounter && r.uniforms == s.uniforms
    ensures Consistent(r)
  {
    s.(indices := ix, vertexBuffer := None, indexBuffer := None)
  }

  /** `set_materials`: only the table is replaced; the counter and the
      buffers are untouched. */
  function SetMaterials<U>(s: SceneState<U>, ms: map<U8, Material>): (r: SceneState<U>)
    ensures r.materials == ms
    ensures r.(materials := s.materials) == s
    ensures Consistent(r) <==> Consistent(s)
  {
    s.(materials := ms)
  }

  /** `add_material`: the counter is raised by one, with Rust's overflow
      check, and the material is stored under the new counter value. It
      fails exactly when the counter is at 255. Otherwise the new counter
      value maps to the material (replacing any entry already there), every
      other key keeps its entry, and nothing else in the scene changes. */
  function AddMaterial<U>(s: SceneState<U>, m: Material): (r: Result<SceneState<U>>)
    ensures r.Err? <==> s.idCounter == 255
    ensures r.Err? ==> r.failure == AddWithOverflow
    ensures r.Ok? ==>
      && r.value.idCounter == s.idCounter + 1
      && r.value.idCounter in r.value.materials && r.value.materials[r.value.idCounter] == m
      && r.value.materials.Keys == s.materials.Keys + {r.value.idCounter}
      && (forall k :: k in s.materials && k != r.value.idCounter ==> r.value.materials[k] == s.materials[k])
      && r.value.(materials := s.materials, idCounter := s.idCounter) == s
      && (Consistent(r.value) <==> Consistent(s))
  {
    if s.idCounter == 0xFF then Err(AddWithOverflow)
    else
      var key := s.idCounter + 1;
      Ok(s.(idCounter := key, materials := s.materials[key := m]))
  }

  /** `set_uniforms`: the uniforms become present; nothing else changes. */
  function SetUniforms<U>(s: SceneState<U>, u: U): (r: SceneState<U>)
    ensures r.uniforms == Some(u)
    ensures r.(uniforms := s.uniforms) == s
    ensures Consistent(r) <==> Consistent(s)
  {
    s.(uniforms := Some(u))
  }

  /** `get_vertex_buffer`: a buffer built from the current vertices. */
  function GetVertexBuffer<U>(s: SceneState<U>): (b: VertexBuffer)
    ensures b.contents == s.vertices
  {
    VertexBuffer(s.vertices)
  }

  /** `get_index_buffer`: a triangle-list buffer built from the current
      indices, or `MissingIndices` when there are none. */
  function GetIndexBuffer<U>(s: SceneState<U>): (r: Result<IndexBuffer>)
    ensures r.Ok? <==> |s.indices| > 0
    ensures r.Ok? ==> r.value.contents == s.indices && r.value.primitive == TrianglesList
    ensures r.Err? ==> r.failure == MissingIndices
  {
    if |s.indices| > 0 then Ok(IndexBuffer(TrianglesList, s.indices))
    else Err(MissingIndices)
  }

  /** `update_vertex_buffer`: builds the vertex buffer only when it is
      absent; a present one is never replaced. */
  function UpdateVertexBuffer<U>(s: SceneState<U>): (r: SceneState<U>)
    ensures r.vertexBuffer.Some?
    ensures s.vertexBuffer.Some? ==> r == s
    ensures s.vertexBuffer.None? ==> r == s.(vertexBuffer := Some(GetVertexBuffer(s)))
    ensures Consistent(s) ==> Consistent(r)
  {
    if s.vertexBuffer.None? then s.(vertexBuffer := Some(GetVertexBuffer(s))) else s
  }

  /** `update_index_buffer`: builds the index buffer only when it is absent,
      failing when there is nothing to build it from; a present one is never
      replaced. */
  function UpdateIndexBuffer<U>(s: SceneState<U>): (r: Result<SceneState<U>>)
    ensures r.Err? <==> s.indexBuffer.None? && |s.indices| == 0
    ensures r.Err? ==> r.failure == MissingIndices
    ensures r.Ok? ==> r.value.indexBuffer.Some?
    ensures r.Ok? && s.indexBuffer.Some? ==> r.value == s
    ensures r.Ok? && s.indexBuffer.None? ==> r.value.indexBuffer == Some(IndexBuffer(TrianglesList, s.indices))
    ensures r.Ok? ==> r.value.(indexBuffer := s.indexBuffer) == s
    ensures r.Ok? && Consistent(s) ==> Consistent(r.value)
  {
    if s.indexBuffer.None? then
      match GetIndexBuffer(s)
      case Ok(b) => Ok(s.(indexBuffer := Some(b)))
      case Err(f) => Err(f)
    else Ok(s)
  }

  /** `draw`: first the vertex buffer, then the index buffer are made
      present; then the uniforms must be set. Returns the outcome and the
      scene afterwards (on a failure, the cache as far as it got). The
      outcome is `MissingIndices` exactly when the index buffer is absent
      and there are no indices; otherwise `MissingUniforms` exactly when no
      uniforms were set; otherwise a frame. */
  function Draw<U>(s: SceneState<U>): (out: (DrawResult<U>, SceneState<U>))
    ensures out.0 == Failed(MissingIndices) <==> s.indexBuffer.None? && |s.indices| == 0
    ensures out.0 == Failed(MissingUniforms) <==>
              !(s.indexBuffer.None? && |s.indices| == 0) && s.uniforms.None?
    ensures out.0.Drawn? <==>
              !(s.indexBuffer.None? && |s.indices| == 0) && s.uniforms.Some?
  {
    var s1 := UpdateVertexBuffer(s);
    match UpdateIndexBuffer(s1)
    case Err(f) => (Failed(f), s1)
    case Ok(s2) =>
      match s2.uniforms
      case None => (Failed(MissingUniforms), s2)
      case Some(u) => (Drawn(Frame(BLUE, s2.vertexBuffer.value, s2.indexBuffer.value, u)), s2)
  }

  // ---------------------------------------------------------------------
  // Material table

  /** On a fresh scene the first material goes under key 1. */
  lemma FirstMaterialKey<U>(m: Material)
    ensures AddMaterial(Init<U>(), m) == Ok(Init<U>().(idCounter := 1, materials := map[1 := m]))
  {
  }

  /** Replacing the table does not reset the counter: the next material
      still goes under the old counter plus one. */
  lemma SetMaterialsKeepsNextKey<U>(s: SceneState<U>, ms: map<U8, Material>, m: Material)
    requires s.idCounter < 255
    ensures AddMaterial(SetMaterials(s, ms), m).Ok?
    ensures AddMaterial(SetMaterials(s, ms), m).value.idCounter == s.idCounter + 1
    ensures AddMaterial(SetMaterials(s, ms), m).value.materials == ms[s.idCounter + 1 := m]
  {
  }

  // ---------------------------------------------------------------------
  // Drawing

  /** What `draw` leaves in the cache: a present buffer is kept, an absent
      one is rebuilt from the current geometry (the index buffer only when
      there are indices), and geometry, materials, counter and uniforms are
      untouched. On success both buffers are present. */
  lemma DrawCache<U>(s: SceneState<U>)
    ensures Draw(s).1.vertexBuffer ==
              if s.vertexBuffer.Some? then s.vertexBuffer else Some(VertexBuffer(s.vertices))
    ensures Draw(s).1.indexBuffer ==
              if s.indexBuffer.Some? then s.indexBuffer
              else if |s.indices| > 0 then Some(IndexBuffer(TrianglesList, s.indices))
              else None
    ensures Draw(s).1.(vertexBuffer := s.vertexBuffer, indexBuffer := s.indexBuffer) == s
    ensures Draw(s).0.Drawn? ==> Draw(s).1.vertexBuffer.Some? && Draw(s).1.indexBuffer.Some?
  {
  }

  /** In a consistent scene a frame shows exactly the current geometry, as
      a triangle list, with the current uniforms, over a blue background;
      and the scene stays consistent. */
  lemma DrawFrame<U>(s: SceneState<U>)
    requires Consistent(s)
    ensures Consistent(Draw(s).1)
    ensures Draw(s).0.Drawn? ==>
      var f := Draw(s).0.frame;
      && f.clear == BLUE
      && f.vertexBuffer.contents == s.vertices
      && f.indexBuffer.contents == s.indices
      && f.indexBuffer.primitive == TrianglesList
      && Some(f.uniforms) == s.uniforms
  {
  }

  /** Memoisation: after a successful draw, drawing again rebuilds nothing
      and submits the same frame. */
  lemma DrawIdempotent<U>(s: SceneState<U>)
    requires Draw(s).0.Drawn?
    ensures Draw(Draw(s).1) == Draw(s)
  {
  }

  /** Replacing both lists invalidates the cache, so the next draw builds
      both buffers from the new geometry. */
  lemma RedrawAfterReplace<U>(s: SceneState<U>, vs: seq<Vertex>, ix: seq<U32>)
    requires |ix| > 0 && s.uniforms.Some?
    ensures Draw(SetIndices(SetVertices(s, vs), ix)).0 ==
              Drawn(Frame(BLUE, VertexBuffer(vs), IndexBuffer(TrianglesList, ix), s.uniforms.value))
  {
  }

  /** Replacing the vertices makes the next draw rebuild the vertex buffer
      from them, whether or not that draw then fails: the vertex buffer is
      built before either failure can happen. */
  lemma RedrawVerticesAfterReplace<U>(s: SceneState<U>, vs: seq<Vertex>)
    ensures Draw(SetVertices(s, vs)).1.vertexBuffer == Some(VertexBuffer(vs))
  {
  }
}
