/** Sequences of scene operations, as the program issues them, and what holds
    along any such sequence: the cache invariant, the order of material keys
    and the shape of every frame. A failure aborts the program, so a run
    stops at the first one. */
module SceneTrace {
  import opened SceneValues
  import opened SceneModel

  /** One call on a scene. */
  datatype Op<U> =
    | SetVerticesOp(vs: seq<Vertex>)
    | SetIndicesOp(ix: seq<U32>)
    | SetMaterialsOp(ms: map<U8, Material>)
    | AddMaterialOp(m: Material)
    | SetUniformsOp(u: U)
    | DrawOp

  /** What a run leaves behind: the final scene, the frames presented, the
      keys that `add_material` assigned, in order, and the failure that
      stopped the run, if any. */
  datatype Trace<U> = Trace(state: SceneState<U>, frames: seq<Frame<U>>, keys: seq<U8>, failure: Option<Failure>)

  /** Applies the calls in order; a call that panics ends the run there,
      as the program aborts. Each call presents at most one frame or
      assigns at most one key, and the counter never goes down. */
  function Run<U>(s: SceneState<U>, ops: seq<Op<U>>): (r: Trace<U>)
    ensures |r.frames| + |r.keys| <= |ops|
    ensures s.idCounter <= r.state.idCounter
    decreases |ops|
  {
    if ops == [] then Trace(s, [], [], None)
    else
      match ops[0]
      case SetVerticesOp(vs) => Run(SetVertices(s, vs), ops[1..])
      case SetIndicesOp(ix) => Run(SetIndices(s, ix), ops[1..])
      case SetMaterialsOp(ms) => Run(SetMaterials(s, ms), ops[1..])
      case SetUniformsOp(u) => Run(SetUniforms(s, u), ops[1..])
      case AddMaterialOp(m) =>
        (match AddMaterial(s, m)
         case Err(f) => Trace(s, [], [], Some(f))
         case Ok(s') =>
           var t := Run(s', ops[1..]);
           t.(keys := [s'.idCounter] + t.keys))
      case DrawOp =>
        var (d, s') := Draw(s);
        match d
        case Failed(f) => Trace(s', [], [], Some(f))
        case Drawn(frame) =>
          var t := Run(s', ops[1..]);
          t.(frames := [frame] + t.frames)
  }

  /** The cache invariant holds after any run that starts from a scene where
      it holds. */
  lemma {:induction false} RunConsistent<U>(s: SceneState<U>, ops: seq<Op<U>>)
    requires Consistent(s)
    ensures Consistent(Run(s, ops).state)
    decreases |ops|
  {
    if ops != [] {
      match ops[0]
      case SetVerticesOp(vs) => RunConsistent(SetVertices(s, vs), ops[1..]);
      case SetIndicesOp(ix) => RunConsistent(SetIndices(s, ix), ops[1..]);
      case SetMaterialsOp(ms) => RunConsistent(SetMaterials(s, ms), ops[1..]);
      case SetUniformsOp(u) => RunConsistent(SetUniforms(s, u), ops[1..]);
      case AddMaterialOp(m) =>
        if AddMaterial(s, m).Ok? {
          RunConsistent(AddMaterial(s, m).value, ops[1..]);
        }
      case DrawOp =>
        DrawFrame(s);
        if Draw(s).0.Drawn? {
          RunConsistent(Draw(s).1, ops[1..]);
        }
    }
  }

  /** The keys a run assigns are the counter's successors, one after the
      other with no gaps and no repeats, whatever `set_materials` does in
      between; the counter ends raised by their number. */
  lemma {:induction false} RunKeys<U>(s: SceneState<U>, ops: seq<Op<U>>)
    ensures s.idCounter + |Run(s, ops).keys| == Run(s, ops).state.idCounter
    ensures forall i :: 0 <= i < |Run(s, ops).keys| ==> Run(s, ops).keys[i] == s.idCounter + 1 + i
    decreases |ops|
  {
    if ops != [] {
      match ops[0]
      case SetVerticesOp(vs) => RunKeys(SetVertices(s, vs), ops[1..]);
      case SetIndicesOp(ix) => RunKeys(SetIndices(s, ix), ops[1..]);
      case SetMaterialsOp(ms) => RunKeys(SetMaterials(s, ms), ops[1..]);
      case SetUniformsOp(u) => RunKeys(SetUniforms(s, u), ops[1..]);
      case AddMaterialOp(m) =>
        if AddMaterial(s, m).Ok? {
          RunKeys(AddMaterial(s, m).value, ops[1..]);
        }
      case DrawOp =>
        DrawCache(s);
        if Draw(s).0.Drawn? {
          RunKeys(Draw(s).1, ops[1..]);
        }
    }
  }

  /** From a fresh scene the keys are 1, 2, 3, ...: strictly increasing,
      never reused, and never 0, the "no material" key. */
  lemma KeysFromFreshScene<U>(ops: seq<Op<U>>)
    ensures forall i :: 0 <= i < |Run(Init<U>(), ops).keys| ==> Run(Init<U>(), ops).keys[i] == i + 1
    ensures forall i, j :: 0 <= i < j < |Run(Init<U>(), ops).keys| ==>
              0 < Run(Init<U>(), ops).keys[i] < Run(Init<U>(), ops).keys[j]
  {
    RunKeys(Init<U>(), ops);
  }

  /** Every frame of a run from a consistent scene is cleared to blue and
      draws a non-empty triangle list. */
  lemma {:induction false} RunFrames<U>(s: SceneState<U>, ops: seq<Op<U>>)
    requires Consistent(s)
    ensures forall i :: 0 <= i < |Run(s, ops).frames| ==>
              && Run(s, ops).frames[i].clear == BLUE
              && Run(s, ops).frames[i].indexBuffer.primitive == TrianglesList
              && |Run(s, ops).frames[i].indexBuffer.contents| > 0
    decreases |ops|
  {
    if ops != [] {
      match ops[0]
      case SetVerticesOp(vs) => RunFrames(SetVertices(s, vs), ops[1..]);
      case SetIndicesOp(ix) => RunFrames(SetIndices(s, ix), ops[1..]);
      case SetMaterialsOp(ms) => RunFrames(SetMaterials(s, ms), ops[1..]);
      case SetUniformsOp(u) => RunFrames(SetUniforms(s, u), ops[1..]);
      case AddMaterialOp(m) =>
        if AddMaterial(s, m).Ok? {
          RunFrames(AddMaterial(s, m).value, ops[1..]);
        }
      case DrawOp =>
        DrawFrame(s);
        if Draw(s).0.Drawn? {
          RunFrames(Draw(s).1, ops[1..]);
        }
    }
  }

  /** In a run that ends without a failure every step succeeded: each draw
      found indices and uniforms, and each added material found the counter
      below 255. */
  lemma {:induction false} CompletedRunSteps<U>(s: SceneState<U>, ops: seq<Op<U>>, k: nat)
    requires k < |ops|
    requires Run(s, ops).failure == None
    ensures ops[k] == DrawOp ==> Draw(Run(s, ops[..k]).state).0.Drawn?
    ensures ops[k].AddMaterialOp? ==> Run(s, ops[..k]).state.idCounter < 255
    decreases k
  {
    if k > 0 {
      assert ops[..k][0] == ops[0];
      assert ops[..k][1..] == ops[1..][..k - 1];
      match ops[0]
      case SetVerticesOp(vs) => CompletedRunSteps(SetVertices(s, vs), ops[1..], k - 1);
      case SetIndicesOp(ix) => CompletedRunSteps(SetIndices(s, ix), ops[1..], k - 1);
      case SetMaterialsOp(ms) => CompletedRunSteps(SetMaterials(s, ms), ops[1..], k - 1);
      case SetUniformsOp(u) => CompletedRunSteps(SetUniforms(s, u), ops[1..], k - 1);
      case AddMaterialOp(m) => CompletedRunSteps(AddMaterial(s, m).value, ops[1..], k - 1);
      case DrawOp => CompletedRunSteps(Draw(s).1, ops[1..], k - 1);
    }
  }
}
