/** MorphTarget and MorphPipeline: per-target animation parameters and
    buffers, and the per-frame update that, for every target in turn, binds
    its buffers, uploads its effective scale into the single shared uniform
    slot and dispatches the kernel. */
module Morph {
  import opened Vectors
  import opened Sizing
  import Kernel

  /** MorphTargetParams. */
  datatype Params = Params(animate: bool, scale: Vec3)

  /** The parameters a new MorphTarget starts with: animated, unit scale. */
  function DefaultParams(): (p: Params)
    ensures forall sinTurn :: EffectiveScale(p, sinTurn) == One()
  {
    Params(true, One())
  }

  /** The interpolation factor t. `sinTurn` stands for Math.sin(time * 2 * PI)
      at the current time; a static target always uses t = 1. */
  function Interpolant(animate: bool, sinTurn: real): (t: real)
    ensures !animate ==> t == 1.0
    ensures animate && -1.0 <= sinTurn <= 1.0 ==> 0.0 <= t <= 1.0
    ensures animate ==> (t == 0.0 <==> sinTurn == -1.0)
    ensures animate ==> (t == 1.0 <==> sinTurn == 1.0)
  {
    if animate then (sinTurn + 1.0) * 0.5 else 1.0
  }

  /** The scale uploaded for a target: from the unit vector towards
      `params.scale` by the interpolation factor. */
  function EffectiveScale(p: Params, sinTurn: real): (s: Vec3)
    ensures !p.animate ==> s == p.scale
    ensures p.animate && sinTurn == -1.0 ==> s == One()
    ensures sinTurn == 1.0 ==> s == p.scale
  {
    Lerp(One(), p.scale, Interpolant(p.animate, sinTurn))
  }

  /** An animated target's effective scale lies, component by component,
      between 1 and its parameter scale. */
  lemma EffectiveScaleBetween(p: Params, sinTurn: real)
    requires -1.0 <= sinTurn <= 1.0
    ensures forall k :: 0 <= k < 3 ==>
      (1.0 <= p.scale.At(k) ==> 1.0 <= EffectiveScale(p, sinTurn).At(k) <= p.scale.At(k)) &&
      (p.scale.At(k) <= 1.0 ==> p.scale.At(k) <= EffectiveScale(p, sinTurn).At(k) <= 1.0)
  {
    LerpBetween(One(), p.scale, Interpolant(p.animate, sinTurn));
    assert forall k :: 0 <= k < 3 ==> One().At(k) == 1.0;
  }

  /** The default parameters morph nothing: at every phase the effective
      scale is the unit vector, so the output equals the source. */
  lemma DefaultIsIdentity(src: seq<real>, sinTurn: real)
    requires |src| % FloatsPerVertex == 0
    ensures EffectiveScale(DefaultParams(), sinTurn) == One()
    ensures Kernel.Scaled(src, EffectiveScale(DefaultParams(), sinTurn)) == src
  {
    Kernel.ScaledByOne(src);
  }

  /** A static target with scale (2, 1, 1) doubles the x of every vertex and
      leaves its y and z as they are. */
  lemma DoubledXScenario(src: seq<real>, sinTurn: real)
    requires |src| % FloatsPerVertex == 0
    ensures forall v :: 0 <= v < VertexCount(|src|) ==>
      var p := Kernel.VertexAt(src, v);
      Kernel.VertexAt(Kernel.Scaled(src, EffectiveScale(Params(false, Vec3(2.0, 1.0, 1.0)), sinTurn)), v)
        == Vec3(2.0 * p.x, p.y, p.z)
  {
    assert EffectiveScale(Params(false, Vec3(2.0, 1.0, 1.0)), sinTurn) == Vec3(2.0, 1.0, 1.0);
    forall v | 0 <= v < VertexCount(|src|)
      ensures Kernel.VertexAt(Kernel.Scaled(src, Vec3(2.0, 1.0, 1.0)), v) ==
        Kernel.VertexAt(src, v).Mul(Vec3(2.0, 1.0, 1.0))
    {
      Kernel.ScaledVertex(src, Vec3(2.0, 1.0, 1.0), v);
    }
  }

  /** One mesh under morph control: a source buffer holding the snapshot of
      its positions, an output buffer that the mesh renders from, and its
      parameters, which anyone may change at any time. The source buffer is
      written once, at construction, and only ever bound read-only, so it is
      an immutable sequence here. */
  class MorphTarget {
    var params: Params
    const vertexCount: nat
    const byteLength: nat
    const source: seq<real>
    const output: array<real>

    /** Both buffers hold vertexCount triples and have the same byte length. */
    predicate Valid() {
      |source| == vertexCount * FloatsPerVertex &&
      output.Length == |source| &&
      byteLength == ByteLength(vertexCount) &&
      byteLength == |source| * BytesPerFloat &&
      byteLength == output.Length * BytesPerFloat
    }

    /** Take a snapshot of the mesh's positions; the output buffer starts
        zero-filled, as a new GPU buffer does. */
    constructor (positions: seq<real>)
      requires |positions| % FloatsPerVertex == 0
      ensures Valid()
      ensures vertexCount * FloatsPerVertex == |positions|
      ensures byteLength == |positions| * BytesPerFloat
      ensures source == positions
      ensures output[..] == seq(|positions|, _ => 0.0)
      ensures fresh(output)
      ensures params == DefaultParams()
    {
      params := DefaultParams();
      vertexCount := VertexCount(|positions|);
      byteLength := ByteLength(VertexCount(|positions|));
      source := positions;
      output := new real[|positions|](_ => 0.0);
      ByteLengthOfSnapshot(|positions|);
    }
  }

  /** The set of output buffers of `targets`: what an update may write. */
  function Outputs(targets: seq<MorphTarget>): set<array<real>> {
    set k | 0 <= k < |targets| :: targets[k].output
  }

  /** Two targets share an output buffer only if they are the same target. */
  predicate OwnOutputs(targets: seq<MorphTarget>) {
    forall i, j :: 0 <= i < |targets| && 0 <= j < |targets| && targets[i].output == targets[j].output ==>
      targets[i] == targets[j]
  }

  /** One submitted dispatch: the contents of the buffer bound read-only, the
      buffer bound for writing, the value of the uniform scale slot it reads,
      and its group count. */
  datatype Dispatch = Dispatch(source: seq<real>, output: array<real>, scale: Vec3, groupCount: nat)

  /** The dispatch an update submits for target `t` at phase `sinTurn`: its
      own buffers, its effective scale and its group count. */
  ghost function DispatchFor(t: MorphTarget, sinTurn: real): Dispatch
    reads t
  {
    Dispatch(t.source, t.output, EffectiveScale(t.params, sinTurn), GroupCount(t.vertexCount))
  }

  /** The output buffer of `t` holds its source scaled by its effective scale. */
  ghost predicate Morphed(t: MorphTarget, sinTurn: real)
    reads t, t.output
  {
    t.Valid() && t.output[..] == Kernel.Scaled(t.source, EffectiveScale(t.params, sinTurn))
  }

  class MorphPipeline {
    /** Seconds elapsed, summed over all updates. */
    var time: real
    /** The single uniform slot `params.scale`, shared by all targets. */
    var uniformScale: Vec3
    /** What is bound to `vertexData` (read-only) and `vertexBuffer`. */
    var boundSource: seq<real>
    var boundOutput: array?<real>
    /** Every dispatch submitted so far, oldest first. */
    var dispatches: seq<Dispatch>

    constructor ()
      ensures time == 0.0 && uniformScale == One()
      ensures boundSource == [] && boundOutput == null
      ensures dispatches == []
    {
      time := 0.0;
      uniformScale := One();
      boundSource := [];
      boundOutput := null;
      dispatches := [];
    }

    /** setStorageBuffer for both storage slots. */
    method Bind(target: MorphTarget)
      modifies this`boundSource, this`boundOutput
      ensures boundSource == target.source && boundOutput == target.output
    {
      boundSource := target.source;
      boundOutput := target.output;
    }

    /** updateFloat3 followed by update(): the slot now holds `s`. */
    method Upload(s: Vec3)
      modifies this`uniformScale
      ensures uniformScale == s
    {
      uniformScale := s;
    }

    /** dispatchWhenReady: run the kernel on the bound buffers with the value
        the uniform slot holds now, and log the dispatch. */
    method DispatchKernel(groupCount: nat)
      requires boundOutput != null
      requires boundOutput.Length == |boundSource| && |boundSource| % FloatsPerVertex == 0
      modifies this`dispatches, boundOutput
      ensures dispatches == old(dispatches) + [Dispatch(boundSource, boundOutput, uniformScale, groupCount)]
      ensures boundOutput[..] == Kernel.Launched(boundSource, old(boundOutput[..]), uniformScale, groupCount * WorkgroupSize)
    {
      Kernel.Run(boundSource, boundOutput, uniformScale, groupCount);
      dispatches := dispatches + [Dispatch(boundSource, boundOutput, uniformScale, groupCount)];
    }

    /** The body of the per-target callback of update: bind the target's
        buffers, compute t and the interpolated scale, upload it and dispatch
        Math.ceil(vertexCount / 64) workgroups. The dispatch reads the scale
        just uploaded, so the target's output becomes its own source scaled by
        its own effective scale. */
    method MorphOne(target: MorphTarget, sinTurn: real)
      requires target.Valid()
      modifies this`boundSource, this`boundOutput, this`uniformScale, this`dispatches, target.output
      ensures boundSource == target.source && boundOutput == target.output
      ensures uniformScale == EffectiveScale(target.params, sinTurn)
      ensures dispatches == old(dispatches) +
        [Dispatch(target.source, target.output, uniformScale, GroupCount(target.vertexCount))]
      ensures target.output[..] == Kernel.Scaled(target.source, uniformScale)
    {
      Bind(target);
      var t := Interpolant(target.params.animate, sinTurn);
      var scale := Lerp(One(), target.params.scale, t);
      Upload(scale);
      var groupCount := GroupCount(target.vertexCount);
      ghost var previous := target.output[..];
      DispatchKernel(groupCount);
      Kernel.LaunchedCovers(target.source, previous, scale, groupCount * WorkgroupSize);
    }

    /** After update has morphed targets 0 .. n-1 at phase `sinTurn`: the log
        is `log0` followed by one dispatch per morphed target, each of those
        outputs holds its scaled source, and the last morphed target is still
        bound with its scale in the uniform slot. */
    ghost predicate Progress(targets: seq<MorphTarget>, n: nat, sinTurn: real, log0: seq<Dispatch>)
      reads this, targets, Outputs(targets)
    {
      n <= |targets| &&
      |dispatches| == |log0| + n &&
      dispatches[..|log0|] == log0 &&
      (forall k :: 0 <= k < n ==> dispatches[|log0| + k] == DispatchFor(targets[k], sinTurn)) &&
      (forall k :: 0 <= k < n ==> Morphed(targets[k], sinTurn)) &&
      (n > 0 ==>
        uniformScale == EffectiveScale(targets[n - 1].params, sinTurn) &&
        boundSource == targets[n - 1].source && boundOutput == targets[n - 1].output)
    }

    /** One step of update's loop: morph target n, keeping the log entries
        and outputs of targets 0 .. n-1 that the earlier steps produced. */
    method MorphNext(targets: seq<MorphTarget>, n: nat, sinTurn: real, ghost log0: seq<Dispatch>)
      requires n < |targets|
      requires forall k :: 0 <= k < |targets| ==> targets[k].Valid()
      requires OwnOutputs(targets)
      requires Progress(targets, n, sinTurn, log0)
      modifies this`boundSource, this`boundOutput, this`uniformScale, this`dispatches, targets[n].output
      ensures Progress(targets, n + 1, sinTurn, log0)
    {
      var target := targets[n];
      assert target in targets;
      MorphOne(target, sinTurn);
      forall k | 0 <= k < n
        ensures Morphed(targets[k], sinTurn)
      {
        if targets[k].output == target.output {
          assert targets[k] == target;
        } else {
          assert targets[k].output[..] == old(targets[k].output[..]);
        }
      }
      assert Morphed(target, sinTurn);
    }

    /** MorphPipeline.update: advance the clock once by the frame's delta time
        (milliseconds), then morph each target in array order. `sinTurn(x)`
        stands for Math.sin(x * 2 * PI). Every dispatch of this frame reads the
        scale of its own target, although all of them share one uniform slot. */
    method Update(deltaMs: real, sinTurn: real -> real, targets: seq<MorphTarget>)
      requires forall k :: 0 <= k < |targets| ==> targets[k].Valid()
      requires OwnOutputs(targets)
      modifies this, Outputs(targets)
      ensures time == old(time) + deltaMs / 1000.0
      ensures |dispatches| == |old(dispatches)| + |targets|
      ensures dispatches[..|old(dispatches)|] == old(dispatches)
      ensures forall k :: 0 <= k < |targets| ==>
        dispatches[|old(dispatches)| + k] == DispatchFor(targets[k], sinTurn(time))
      ensures forall k :: 0 <= k < |targets| ==>
        Morphed(targets[k], sinTurn(time))
      ensures |targets| == 0 ==>
        uniformScale == old(uniformScale) && boundSource == old(boundSource) && boundOutput == old(boundOutput)
      ensures |targets| > 0 ==>
        uniformScale == EffectiveScale(targets[|targets| - 1].params, sinTurn(time)) &&
        boundSource == targets[|targets| - 1].source && boundOutput == targets[|targets| - 1].output
    {
      time := time + deltaMs / 1000.0;
      // time does not change during the loop, so neither does the sine of it
      var phase := sinTurn(time);
      var n := 0;
      while n < |targets|
        invariant n <= |targets|
        invariant time == old(time) + deltaMs / 1000.0
        invariant Progress(targets, n, phase, old(dispatches))
        invariant n == 0 ==>
          uniformScale == old(uniformScale) && boundSource == old(boundSource) && boundOutput == old(boundOutput)
      {
        assert targets[n].output in Outputs(targets);
        MorphNext(targets, n, phase, old(dispatches));
        n := n + 1;
      }
      assert n == |targets|;
      assert phase == sinTurn(time);
    }
  }

  /** One frame over three fresh targets: a static one with scale (2, 1, 1),
      a static one with scale (1, 3, 1) and one left at the defaults. Each
      output is its own source scaled by its own parameters, though all three
      dispatches go through the one shared uniform slot. */
  method ThreeTargetScenario(a: seq<real>, b: seq<real>, c: seq<real>, deltaMs: real, sinTurn: real -> real)
    returns (outA: seq<real>, outB: seq<real>, outC: seq<real>)
    requires |a| % FloatsPerVertex == 0 && |b| % FloatsPerVertex == 0 && |c| % FloatsPerVertex == 0
    ensures outA == Kernel.Scaled(a, Vec3(2.0, 1.0, 1.0))
    ensures outB == Kernel.Scaled(b, Vec3(1.0, 3.0, 1.0))
    ensures outC == c
  {
    var ta := new MorphTarget(a);
    var tb := new MorphTarget(b);
    var tc := new MorphTarget(c);
    ta.params := Params(false, Vec3(2.0, 1.0, 1.0));
    tb.params := Params(false, Vec3(1.0, 3.0, 1.0));
    var pipeline := new MorphPipeline();
    var targets := [ta, tb, tc];
    pipeline.Update(deltaMs, sinTurn, targets);
    assert Morphed(targets[0], sinTurn(pipeline.time));
    assert Morphed(targets[1], sinTurn(pipeline.time));
    assert Morphed(targets[2], sinTurn(pipeline.time));
    DefaultIsIdentity(c, sinTurn(pipeline.time));
    outA, outB, outC := ta.output[..], tb.output[..], tc.output[..];
  }
}
