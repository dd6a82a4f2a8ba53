# rust3d scene: a verified model

rust3d draws a textured quad with glium. Its one piece of logic is the
`Scene` in `src/scene.rs`. A scene holds several things:

- a vertex list and an index list;
- a material table keyed by a `u8` counter;
- an optional uniform bundle;
- two GPU buffers, a vertex buffer and an index buffer, built lazily from
  the two lists.

`set_vertices` and `set_indices` replace a list and drop both buffers.
`draw` builds only the buffers that are missing and then needs the
uniforms. Drawing with no indices is fatal ("Missing indices"), and so is
drawing without uniforms ("Cannot draw before specifing uniforms").

This project models that core in Dafny 4.11. The files are:

- `scene_values.dfy` (module `SceneValues`) holds the value types:
  - `Vertex` and `NewVertex`;
  - `MaterialField` with its setters, and `NewMaterialField`;
  - `Material` and `NewMaterial`.

  An `f32` is kept as its 32-bit IEEE-754 pattern. The scene does no
  arithmetic on floats.
- `scene_model.dfy` (module `SceneModel`) gives the scene as a value,
  `SceneState`, with one function per operation. It also holds the lemmas
  about the material table and about `draw`.
  - A GPU buffer is a snapshot of the sequence it was built from.
  - A draw call is a `Frame`: the clear colour, both buffers and the
    uniforms.
  - The cache invariant is `Consistent`: a present buffer equals the
    current list, and a present index buffer comes from a non-empty
    triangle list.
- `scene.dfy` (module `SceneObject`) is the `Scene` class. Its fields are
  those of the Rust struct and its methods update them in place. Each
  method is proved to move `State()` exactly as the matching `SceneModel`
  function does, and to keep `Valid()` (the cache invariant).
- `scene_trace.dfy` (module `SceneTrace`) covers sequences of calls.
  - `Run` applies a list of operations and stops at the first fatal
    failure, as the program aborts there.
  - The lemmas about runs are proved by induction: the invariant holds
    along any run, material keys come out 1, 2, 3, … and every frame is
    well formed.
- `scene_demo.dfy` (module `SceneDemo`) holds the documentation example,
  run on the class, and the demo program's setup and redraws, run through
  `Run`.

`add_material` returns nothing, so `Scene.AddMaterial` reports only success
or the overflow failure. The source keeps `id_counter` private, so its
callers cannot learn the assigned key. The Dafny class's `idCounter` field
is readable, but that is a property of the model, not of the source.

## Model

| member | source | states |
|---|---|---|
| SceneValues.NewVertex | src/scene.rs:192-198 | the vertex is at (x, y, z), has texture coordinate (0, 1) and material 0 |
| SceneValues.NewMaterialField | src/scene.rs:158-163 | a new field has the given value and no texture |
| SceneValues.MaterialField.SetValue | src/scene.rs:165-167 | the value becomes the given one; the texture is unchanged |
| SceneValues.MaterialField.SetTexture | src/scene.rs:169-171 | the texture becomes the given one; the value is unchanged |
| SceneValues.MaterialField.ClearTexture | src/scene.rs:173-175 | the texture is removed; the value is unchanged |
| SceneValues.MaterialFieldSettersCommute | src/scene.rs:157-176 | the value setter commutes with both texture setters; clearing undoes setting a texture on a new field; setting the same value twice is the same as once |
| SceneValues.NewMaterial | src/scene.rs:143-150 | a material holds exactly the diffuse and specularity fields given |
| SceneModel.Message | src/scene.rs:89-127 | every fatal condition has a non-empty message: "Missing indices" (line 89), "Cannot draw before specifing uniforms" (line 127), and Rust's overflow panic for the counter |
| SceneModel.MessagesDistinct | src/scene.rs:89-127 | different failures have different messages |
| SceneModel.Init | src/scene.rs:39-49 | a new scene has no vertices, indices or materials, counter 0, no buffers and no uniforms, and is consistent |
| SceneModel.SetVertices | src/scene.rs:51-55 | the vertices are replaced and both buffers are absent; indices, materials, counter and uniforms are unchanged; the result is consistent whatever the scene was before |
| SceneModel.SetIndices | src/scene.rs:57-61 | the indices are replaced and both buffers are absent; nothing else changes; the result is consistent |
| SceneModel.SetMaterials | src/scene.rs:63-65 | only the table changes: counter, buffers and geometry are untouched, and consistency is unaffected |
| SceneModel.SetUniforms | src/scene.rs:72-74 | the uniforms become present; nothing else changes |
| SceneModel.GetVertexBuffer | src/scene.rs:76-78 | the buffer holds the current vertices |
| SceneModel.GetIndexBuffer | src/scene.rs:80-91 | succeeds exactly when indices are non-empty, with a triangle-list buffer of the current indices; otherwise fails with MissingIndices |
| SceneModel.UpdateVertexBuffer | src/scene.rs:93-97 | afterwards the vertex buffer is present; a present one is kept as it is; an absent one is built from the current vertices; consistency is preserved |
| SceneModel.UpdateIndexBuffer | src/scene.rs:99-103 | fails (MissingIndices) exactly when the index buffer is absent and indices are empty; on success the index buffer is present, a present one is kept, an absent one is built as a triangle list of the current indices, only that slot changes, and consistency is preserved |
| SceneModel.AddMaterial | src/scene.rs:67-70 | fails exactly when the counter is 255; otherwise the counter rises by exactly one, the new value maps to the material (overwriting any entry), the key set gains just that key, every other entry is unchanged and nothing else in the scene changes |
| SceneModel.FirstMaterialKey | src/scene.rs:67-70 | on a new scene the first material is stored under key 1 |
| SceneModel.SetMaterialsKeepsNextKey | src/scene.rs:63-70 | replacing the table does not reset the counter: the next key is still the old counter plus one |
| SceneModel.Draw | src/scene.rs:105-135 | draw fails with MissingIndices exactly when the index buffer is absent and indices are empty; otherwise it fails with MissingUniforms exactly when uniforms were never set; otherwise it presents a frame |
| SceneModel.DrawCache | src/scene.rs:93-110 | after draw a present buffer is reused and an absent one is rebuilt from the current lists (the index buffer only from non-empty indices); geometry, materials, counter and uniforms are untouched; on success both buffers are present |
| SceneModel.DrawFrame | src/scene.rs:108-125 | in a consistent scene a frame is cleared to blue (0, 0, 1, 1) and draws exactly the current vertices and indices, as a triangle list, with the current uniforms; the scene stays consistent |
| SceneModel.DrawIdempotent | src/scene.rs:93-103 | after a successful draw, drawing again rebuilds nothing and presents the same frame |
| SceneModel.RedrawAfterReplace | src/scene.rs:51-61 | after both lists are replaced (with non-empty indices and uniforms set), the next draw presents a frame built from the new lists |
| SceneModel.RedrawVerticesAfterReplace | src/scene.rs:51-55 | after a vertex replacement the next draw, whether it then succeeds or fails, rebuilds the vertex buffer from the new vertices |
| SceneObject.Scene.constructor | src/scene.rs:39-49 | the new object's state is `Init()` and it is valid |
| SceneObject.Scene.SetVertices | src/scene.rs:51-55 | the new state is `SetVertices` of the old state; the object is valid |
| SceneObject.Scene.SetIndices | src/scene.rs:57-61 | the new state is `SetIndices` of the old state; the object is valid |
| SceneObject.Scene.SetMaterials | src/scene.rs:63-65 | the new state is `SetMaterials` of the old state; validity is unchanged |
| SceneObject.Scene.AddMaterial | src/scene.rs:67-70 | on success the new state is that of `AddMaterial`; on overflow it reports the failure and changes nothing; validity is unchanged |
| SceneObject.Scene.SetUniforms | src/scene.rs:72-74 | the new state is `SetUniforms` of the old state; validity is unchanged |
| SceneObject.Scene.UpdateVertexBuffer | src/scene.rs:93-97 | the new state is `UpdateVertexBuffer` of the old state; validity is kept |
| SceneObject.Scene.UpdateIndexBuffer | src/scene.rs:99-103 | the new state and outcome are those of `UpdateIndexBuffer`; on failure nothing changes; validity is kept |
| SceneObject.Scene.Draw | src/scene.rs:105-135 | result and new state are those of `Draw` on the old state; the two "Impossible to find any ... buffer" panics are proved unreachable; validity is kept |
| SceneTrace.Run | src/main.rs:18-50 | a sequence of scene calls, stopping at the first panic as the program aborts there; each call presents at most one frame or assigns at most one key, and the counter never decreases |
| SceneTrace.RunConsistent | src/scene.rs:51-103 | any sequence of scene calls from a consistent scene ends in a consistent scene |
| SceneTrace.RunKeys | src/scene.rs:63-70 | the keys assigned during a run are the old counter plus 1, plus 2, … in order, whatever `set_materials` calls come between; the counter ends raised by their number |
| SceneTrace.KeysFromFreshScene | src/scene.rs:39-70 | from a new scene the assigned keys are 1, 2, 3, …: strictly increasing, never reused and never 0 |
| SceneTrace.RunFrames | src/scene.rs:105-125 | every frame of a run from a consistent scene is cleared to blue and draws a non-empty triangle list |
| SceneTrace.CompletedRunSteps | src/scene.rs:67-135 | in a run that ends without a failure, every draw found indices and uniforms and every material addition found the counter below 255 |
| SceneDemo.Quad | src/scene.rs:13-18 | the example's four vertices, each with texture coordinate (0, 1), material 0 and z = 0 |
| SceneDemo.QuadFrame | src/scene.rs:112-123 | the example's frame: blue clear colour, 4 vertices, 6 indices, triangle list |
| SceneDemo.DocExample | src/scene.rs:5-27 | the documentation example, on the class, draws exactly `QuadFrame()` |
| SceneDemo.DemoRedraws | src/main.rs:18-50 | the demo's setup followed by two redraws fails nowhere and presents the same frame twice; the buffers built by the first redraw are kept |
| SceneDemo.DemoFailures | src/scene.rs:89-127 | drawing a new scene stops at MissingIndices; drawing the quad without uniforms stops at MissingUniforms, with the index buffer already built |
| SceneDemo.DemoMaterialKeys | src/scene.rs:63-70 | two materials added to a new scene go under keys 1 and 2, even though the table is emptied between them |

## Left out

- The glium calls are not modelled: `VertexBuffer::new`, `IndexBuffer::new`, `display.draw()`, `clear_color`, `target.draw` and `finish` (src/scene.rs:77, 82-87, 112-125). A buffer is a snapshot of its source list and a draw call is a `Frame` value. A backend rejection of these calls (the `unwrap`/`expect` panics) is not modelled, so building a buffer and presenting a frame always succeed.
- The `display` and `program` arguments of `draw` and of the `get_*` builders are passed only to those foreign calls, so the model leaves them out.
- `src/lib.rs` (window, context and shader set-up) is not part of this model. Nor is the event loop of `src/main.rs`; the demo's set-up and redraws appear only as the `SceneDemo.DemoRedraws` scenario.
- Floats are opaque bit patterns; no floating-point arithmetic is modelled, since the core does none.
- Textures are opaque handles. The uniform bundle is a type parameter `U`, present or absent.
- The shader-attribute binding `implement_vertex!` (src/scene.rs:189) is not modelled.
- Index bounds: like the source, the model does not check that indices stay within the vertex count.
- SceneModel.AddMaterial: the `u8` increment is modelled as Rust's checked arithmetic (the debug-build overflow panic, as failure `AddWithOverflow`). A release build would wrap to 0 instead; that is not modelled.
- SceneValues.MaterialField.SetValue, SetTexture and ClearTexture update an owned value in place through `&mut self`. The model gives them as functions that return the updated field. The field is never shared, so nothing observable is lost.
- SceneModel.Draw: a failure aborts the program. The model still returns the cache as far as `draw` got (on MissingIndices the vertex buffer is already built). No caller can observe that state.
