/** The scene object: geometry, material table, uniforms and the lazily
    built GPU buffers, updated in place. Each method is proved to take the
    scene from `old(State())` to the state the matching function of
    `SceneModel` computes, and to keep the cache invariant. */
module SceneObject {
  import opened SceneValues
  import opened SceneModel

  datatype Outcome = Pass | Fail(failure: Failure)

  class Scene<U> {
    var vertices: seq<Vertex>
    var indices: seq<U32>
    var vertexBuffer: Option<VertexBuffer>
    var indexBuffer: Option<IndexBuffer>
    var uniforms: Option<U>
    var materials: map<U8, Material>
    var idCounter: U8

    /** The fields, as a value. */
    function State(): SceneState<U>
      reads this
    {
      SceneState(vertices, indices, vertexBuffer, indexBuffer, uniforms, materials, idCounter)
    }

    /** A present buffer is a copy of the current geometry. */
    ghost predicate Valid()
      reads this
    {
      Consistent(State())
    }

    /** `Scene::new`. */
    constructor ()
      ensures State() == Init()
      ensures Valid()
    {
      vertices := [];
      indices := [];
      materials := map[];
      idCounter := 0;
      vertexBuffer := None;
      indexBuffer := None;
      uniforms := None;
    }

    method SetVertices(vs: seq<Vertex>)
      modifies this
      ensures State() == SceneModel.SetVertices(old(State()), vs)
      ensures Valid()
    {
      vertices := vs;
      vertexBuffer := None;
      indexBuffer := None;
    }

    method SetIndices(ix: seq<U32>)
      modifies this
      ensures State() == SceneModel.SetIndices(old(State()), ix)
      ensures Valid()
    {
      indices := ix;
      vertexBuffer := None;
      indexBuffer := None;
    }

    method SetMaterials(ms: map<U8, Material>)
      modifies this
      ensures State() == SceneModel.SetMaterials(old(State()), ms)
      ensures Valid() <==> old(Valid())
    {
      materials := ms;
    }

    /** Fails, changing nothing, when the counter would pass 255. */
    method AddMaterial(m: Material) returns (o: Outcome)
      modifies this
      ensures SceneModel.AddMaterial(old(State()), m).Ok? ==>
                o == Pass && State() == SceneModel.AddMaterial(old(State()), m).value
      ensures SceneModel.AddMaterial(old(State()), m).Err? ==>
                o == Fail(SceneModel.AddMaterial(old(State()), m).failure) && State() == old(State())
      ensures Valid() <==> old(Valid())
    {
      if idCounter == 0xFF {
        return Fail(AddWithOverflow);
      }
      idCounter := idCounter + 1;
      materials := materials[idCounter := m];
      o := Pass;
    }

    method SetUniforms(u: U)
      modifies this
      ensures State() == SceneModel.SetUniforms(old(State()), u)
      ensures Valid() <==> old(Valid())
    {
      uniforms := Some(u);
    }

    method UpdateVertexBuffer()
      modifies this
      ensures State() == SceneModel.UpdateVertexBuffer(old(State()))
      ensures old(Valid()) ==> Valid()
    {
      if vertexBuffer.None? {
        vertexBuffer := Some(GetVertexBuffer(State()));
      }
    }

    method UpdateIndexBuffer() returns (o: Outcome)
      modifies this
      ensures SceneModel.UpdateIndexBuffer(old(State())).Ok? ==>
                o == Pass && State() == SceneModel.UpdateIndexBuffer(old(State())).value
      ensures SceneModel.UpdateIndexBuffer(old(State())).Err? ==>
                o == Fail(SceneModel.UpdateIndexBuffer(old(State())).failure) && State() == old(State())
      ensures old(Valid()) ==> Valid()
    {
      if indexBuffer.None? {
        var b := GetIndexBuffer(State());
        if b.Err? {
          return Fail(b.failure);
        }
        indexBuffer := Some(b.value);
      }
      o := Pass;
    }

    /** Makes both buffers present, then submits one frame with the
        uniforms; the two "Impossible to find any ... buffer" panics of the
        source cannot happen, which the assertion below records. */
    method Draw() returns (r: DrawResult<U>)
      modifies this
      ensures (r, State()) == SceneModel.Draw(old(State()))
      ensures old(Valid()) ==> Valid()
    {
      UpdateVertexBuffer();
      var o := UpdateIndexBuffer();
      if o.Fail? {
        return Failed(o.failure);
      }
      assert vertexBuffer.Some? && indexBuffer.Some?;
      match uniforms
      case None =>
        r := Failed(MissingUniforms);
      case Some(un) =>
        r := Drawn(Frame(BLUE, vertexBuffer.value, indexBuffer.value, un));
    }
  }
}
