/** The scene the documentation example and the demo program build: a quad
    of two triangles drawn with a white `u_color`. */
module SceneDemo {
  import opened SceneValues
  import opened SceneModel
  import opened SceneObject
  import opened SceneTrace

  /** The uniforms of the demo shader: one colour `u_color`. */
  datatype ColorUniforms = ColorUniforms(uColor: Color)

  const WHITE: ColorUniforms := ColorUniforms((ONE, ONE, ONE))

  /** The quad's corners, clockwise from bottom left. */
  function Quad(): (vs: seq<Vertex>)
    ensures |vs| == 4
    ensures forall i :: 0 <= i < |vs| ==> vs[i].uv == (ZERO, ONE) && vs[i].materialId == 0 && vs[i].pos.2 == ZERO
  {
    [ NewVertex(MINUS_HALF, MINUS_HALF, ZERO),
      NewVertex(MINUS_HALF, HALF, ZERO),
      NewVertex(HALF, HALF, ZERO),
      NewVertex(HALF, MINUS_HALF, ZERO) ]
  }

  /** Two triangles sharing the quad's diagonal. */
  const QUAD_INDICES: seq<U32> := [0, 1, 2, 0, 2, 3]

  /** The frame the demo presents. */
  function QuadFrame(): (f: Frame<ColorUniforms>)
    ensures f.clear == BLUE
    ensures |f.vertexBuffer.contents| == 4 && |f.indexBuffer.contents| == 6
    ensures f.indexBuffer.primitive == TrianglesList
  {
    Frame(BLUE, VertexBuffer(Quad()), IndexBuffer(TrianglesList, QUAD_INDICES), WHITE)
  }

  /** The documentation example, on the scene object: after setting the quad,
      its indices and the uniforms, the draw succeeds with one blue-cleared
      triangle-list call of six indices over four vertices. */
  method DocExample() returns (r: DrawResult<ColorUniforms>)
    ensures r == Drawn(QuadFrame())
  {
    var scene := new Scene<ColorUniforms>();
    scene.SetVertices(Quad());
    scene.SetIndices(QUAD_INDICES);
    scene.SetUniforms(WHITE);
    r := scene.Draw();
  }

  /** The demo program's setup followed by redraws: every redraw presents
      the same frame, from the buffers built by the first. */
  lemma DemoRedraws()
    ensures var t := Run(Init<ColorUniforms>(),
                [SetVerticesOp(Quad()), SetIndicesOp(QUAD_INDICES), SetUniformsOp(WHITE), DrawOp, DrawOp]);
            && t.failure == None
            && t.frames == [QuadFrame(), QuadFrame()]
            && t.state.vertexBuffer == Some(VertexBuffer(Quad()))
            && t.state.indexBuffer == Some(IndexBuffer(TrianglesList, QUAD_INDICES))
  {
    var ops := [SetVerticesOp(Quad()), SetIndicesOp(QUAD_INDICES), SetUniformsOp(WHITE), DrawOp, DrawOp];
    var withVertices := SetVertices(Init<ColorUniforms>(), Quad());
    var withIndices := SetIndices(withVertices, QUAD_INDICES);
    var ready := SetUniforms(withIndices, WHITE);
    var drawn := Draw(ready).1;
    assert Draw(ready) == (Drawn(QuadFrame()), drawn);
    assert Draw(drawn) == (Drawn(QuadFrame()), drawn);
    assert Run(drawn, ops[4..]) == Trace(drawn, [QuadFrame()], [], None);
    assert Run(ready, ops[3..]) == Trace(drawn, [QuadFrame(), QuadFrame()], [], None);
    assert ops[1..][1..][1..] == ops[3..];
    assert Run(withIndices, ops[2..]) == Run(ready, ops[3..]);
    assert Run(withVertices, ops[1..]) == Run(withIndices, ops[2..]);
  }

  /** Drawing a fresh scene stops at the missing indices; drawing the quad
      before any uniforms were set stops at the missing uniforms, with the
      vertex and index buffers already built. */
  lemma DemoFailures()
    ensures Run(Init<ColorUniforms>(), [DrawOp, SetUniformsOp(WHITE)]).failure == Some(MissingIndices)
    ensures var t := Run(Init<ColorUniforms>(), [SetVerticesOp(Quad()), SetIndicesOp(QUAD_INDICES), DrawOp]);
            && t.failure == Some(MissingUniforms)
            && t.frames == []
            && t.state.indexBuffer == Some(IndexBuffer(TrianglesList, QUAD_INDICES))
  {
    assert Draw(Init<ColorUniforms>()).0 == Failed(MissingIndices);
    var ops := [SetVerticesOp(Quad()), SetIndicesOp(QUAD_INDICES), DrawOp];
    var loaded := SetIndices(SetVertices(Init<ColorUniforms>(), Quad()), QUAD_INDICES);
    assert Draw(loaded).0 == Failed(MissingUniforms);
    assert Run(loaded, ops[2..]) == Trace(Draw(loaded).1, [], [], Some(MissingUniforms));
    assert ops[1..][1..] == ops[2..];
  }

  /** Materials added to a fresh scene go under keys 1 and 2; replacing the
      table in between does not reset the counter. */
  lemma DemoMaterialKeys(a: Material, b: Material)
    ensures var t := Run(Init<ColorUniforms>(), [AddMaterialOp(a), SetMaterialsOp(map[]), AddMaterialOp(b)]);
            && t.keys == [1, 2]
            && t.state.materials == map[2 := b]
            && t.state.idCounter == 2
  {
    var ops := [AddMaterialOp(a), SetMaterialsOp(map[]), AddMaterialOp(b)];
    var first := AddMaterial(Init<ColorUniforms>(), a).value;
    var cleared := SetMaterials(first, map[]);
    var second := AddMaterial(cleared, b).value;
    assert second.materials == map[2 := b] && second.idCounter == 2;
    assert Run(cleared, ops[2..]) == Trace(second, [], [2], None);
    assert ops[1..][1..] == ops[2..];
  }
}
