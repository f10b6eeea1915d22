# Vertex morphing on the GPU, modelled in Dafny

The system is a small Babylon.js/WebGPU program. It morphs meshes with a compute
shader. Each `MorphTarget` does three things at construction:

- it takes a one-time snapshot of a mesh's vertex positions into a read-only
  source buffer;
- it allocates an output buffer of the same byte size;
- it makes the mesh render from that output buffer.

A `MorphPipeline` holds one compiled kernel, one uniform slot holding a
3-vector `scale`, and a time accumulator. Each frame, `update` advances the
clock by the frame's delta time. Then, for every target in order, it:

1. binds the target's two buffers;
2. computes the interpolation factor
   `t = animate ? (sin(2π·time) + 1) / 2 : 1`;
3. uploads `lerp((1,1,1), params.scale, t)` into the shared slot;
4. dispatches `ceil(vertexCount / 64)` workgroups of 64 invocations.

Invocation `i` of the kernel multiplies source vertex `i` componentwise by the
uniform scale and writes it to output vertex `i`. An invocation whose triple
would start at or past the end of the source writes nothing.

The model has four modules:

- `Vectors` (vectors.dfy): `Vector3.One` and `Vector3.Lerp`
  (src/MorphPipeline.ts:78), and the WGSL componentwise `vec3` product
  (src/MorphPipeline.ts:36), over reals.
- `Sizing` (sizing.dfy): the integer arithmetic. It covers the vertex count,
  the byte length of the buffers and the workgroup count (`Math.ceil` on a
  real quotient), with its coverage and minimality lemmas.
- `Kernel` (kernel.dfy): the WGSL `main` kernel.
  - `Invoke` is one invocation, writing an `array<real>` in place.
  - `Run` is a dispatch, with its invocations serialised in index order.
  - Both are proved against the functions `Invoked` and `Launched`.
  - The reference definition `Scaled` is related to them by `LaunchedVertex`
    and `LaunchedCovers`.
- `Morph` (morph.dfy): the two classes.
  - `MorphTarget` holds its params, its sizes, its source snapshot (a `seq`,
    since the buffer is only ever bound read-only) and its output `array`.
  - `MorphPipeline` holds `time`, the single uniform slot, the current
    bindings and a log of every dispatch submitted.
  - `Update` is proved to do the following:
    - it advances `time` exactly once;
    - it appends one dispatch per target, in array order, each carrying that
      target's own buffers, effective scale and group count;
    - it leaves every target's output holding its own source scaled by its own
      effective scale, although all targets share one uniform slot;
    - it leaves the last target bound, with its scale still in the slot.

Three points where the model follows the code's exact behaviour:

- The code divides the position count by 3 without checking that it is a
  multiple of 3 (src/MorphPipeline.ts:103). The `MorphTarget` constructor
  requires it.
- The kernel's guard is `vertexIndex * 3 >= arrayLength(&vertexData)`
  (src/MorphPipeline.ts:28). `Kernel.Invoke` and `Kernel.Invoked` use this
  test. For a buffer of whole triples it is the same as `i >= vertexCount`.
- A zero-vertex target still calls `dispatchWhenReady(0)`
  (src/MorphPipeline.ts:84), so the log gets an entry with group count 0
  (`Sizing.GroupCountZero`), which changes nothing.

## Model

| member | source | states |
|---|---|---|
| Sizing.Ceil | src/MorphPipeline.ts:83 | `Math.ceil`: the result is an integer `c` with `r <= c < r + 1` |
| Sizing.VertexCount | src/MorphPipeline.ts:103 | for a length that is a multiple of 3, the vertex count times 3 is the length |
| Sizing.GroupCount | src/MorphPipeline.ts:83 | `ceil(vertexCount / 64)` workgroups cover every vertex (`g*64 >= vertexCount`), and one fewer would not (`(g-1)*64 < vertexCount`) |
| Sizing.GroupCountIsLeast | src/MorphPipeline.ts:83 | every group count whose invocations cover all vertices is at least GroupCount |
| Sizing.GroupCountIsIntegerCeiling | src/MorphPipeline.ts:83 | the real-valued ceiling equals the integer rounding-up division `(vertexCount + 63) / 64` |
| Sizing.GroupCountZero | src/MorphPipeline.ts:83 | zero vertices give zero workgroups, and any vertex gives at least one |
| Sizing.TenVerticesOneGroup | src/MorphPipeline.ts:83 | a ten-vertex mesh is dispatched as a single workgroup |
| Sizing.ByteLength | src/MorphPipeline.ts:104 | a buffer of that many bytes holds exactly `vertexCount` whole vertices of three 4-byte floats: the length is a multiple of 12 and divides to `vertexCount` |
| Sizing.ByteLengthOfSnapshot | src/MorphPipeline.ts:103-104 | `vertexCount * 3 * 4` is 4 bytes per float of the snapshot |
| Vectors.Lerp | src/MorphPipeline.ts:78 | amount 0 gives the start, amount 1 gives the end, equal end points give that point |
| Vectors.LerpRealBetween | src/MorphPipeline.ts:78 | for an amount in [0, 1] the interpolated real lies between the end points, in either order |
| Vectors.LerpBetween | src/MorphPipeline.ts:78 | for an amount in [0, 1] every component of the interpolated vector lies between the end points' components |
| Vectors.One | src/MorphPipeline.ts:78 | `Vector3.One()` is the unit of the componentwise product: multiplying any vector by it, on either side, gives that vector back |
| Kernel.Scaled | src/MorphPipeline.ts:33-41 | the intended output (each source vertex times the scale) has the source's length |
| Kernel.ScaledVertex | src/MorphPipeline.ts:33-41 | vertex v of the intended output is source vertex v multiplied componentwise by the scale |
| Kernel.ScaledByOne | src/MorphPipeline.ts:36 | with scale (1, 1, 1) the intended output is the source exactly |
| Kernel.Invoked | src/MorphPipeline.ts:27-41 | one invocation i overwrites vertex i with the scaled source vertex and leaves every other vertex; past the end it changes nothing |
| Kernel.InvokedCommute | src/MorphPipeline.ts:22-42 | two different invocations write disjoint vertices, so running them in either order leaves the same output |
| Kernel.Launched | src/MorphPipeline.ts:22-42 | running invocations 0 .. n-1 keeps the output's length |
| Kernel.LaunchedVertex | src/MorphPipeline.ts:27-41 | after n invocations vertex v is scaled when v < n and otherwise keeps its initial value, so no vertex without an invocation is written |
| Kernel.LaunchedCovers | src/MorphPipeline.ts:22-42 | once at least one invocation per vertex has run, the output is the scaled source, whatever it held before |
| Kernel.LaunchedOvershoot | src/MorphPipeline.ts:28-30 | invocations past the last vertex (the overshoot of the last workgroup) leave the output as it is |
| Kernel.Invoke | src/MorphPipeline.ts:23-42 | one invocation of `main` writes the output array exactly as Invoked says; every array write is within bounds |
| Kernel.Run | src/MorphPipeline.ts:22-42 | a dispatch of `groupCount` workgroups of 64 leaves the output as Launched with `groupCount * 64` invocations |
| Morph.Interpolant | src/MorphPipeline.ts:77 | a static target uses t = 1; an animated one uses t in [0, 1], with t = 0 exactly at sine -1 and t = 1 exactly at sine 1 |
| Morph.EffectiveScale | src/MorphPipeline.ts:77-78 | a static target's scale is its parameter scale; an animated one gets (1, 1, 1) at sine -1; every target gets its parameter scale at sine 1 |
| Morph.EffectiveScaleBetween | src/MorphPipeline.ts:77-78 | every component of the effective scale lies between 1 and the parameter's component |
| Morph.Params | src/MorphPipeline.ts:117-120 | `MorphTargetParams`: an `animate` flag and a `scale` vector; `DefaultParams` and `EffectiveScale` state what they mean |
| Morph.DefaultParams | src/MorphPipeline.ts:91-94 | the defaults (animated, scale (1, 1, 1)) give effective scale (1, 1, 1) at every phase |
| Morph.DefaultIsIdentity | src/MorphPipeline.ts:91-94 | the default params (animated, scale (1, 1, 1)) give scale (1, 1, 1) at every phase, so the output equals the source |
| Morph.DoubledXScenario | src/MorphPipeline.ts:77-78 | a static target with scale (2, 1, 1) doubles every x and leaves every y and z |
| Morph.MorphTarget.constructor | src/MorphPipeline.ts:101-113 | the source is the snapshot and the output is a fresh buffer of the same length; both have byte length 4 per float and vertexCount·3 floats; params are the defaults |
| Morph.MorphPipeline.constructor | src/MorphPipeline.ts:60-63 | the uniform slot starts at (1, 1, 1), time at 0 (line 9), nothing bound, nothing dispatched |
| Morph.MorphPipeline.Bind | src/MorphPipeline.ts:73-74 | the target's source and output become the bound buffers |
| Morph.MorphPipeline.Upload | src/MorphPipeline.ts:79-80 | the shared uniform slot holds the uploaded scale |
| Morph.MorphPipeline.DispatchKernel | src/MorphPipeline.ts:84 | one dispatch is appended to the log with the current bindings and slot value, and the bound output becomes Launched of them |
| Morph.MorphPipeline.MorphOne | src/MorphPipeline.ts:72-84 | one callback: the target is bound, the slot holds its effective scale, one dispatch with its own buffers, scale and group count is appended, and its output is its source scaled |
| Morph.MorphPipeline.MorphNext | src/MorphPipeline.ts:70-85 | one step of the loop extends the progress for targets 0 .. n-1 to targets 0 .. n: earlier log entries and earlier outputs survive |
| Morph.MorphPipeline.Update | src/MorphPipeline.ts:66-86 | time advances once by deltaMs/1000; the log gains one entry per target in array order, entry k with target k's own buffers, effective scale and group count; every target's output is its own source scaled by its own effective scale; the last target stays bound with its scale in the slot, and with no targets nothing but time changes |
| Morph.ThreeTargetScenario | src/MorphPipeline.ts:66-86 | in one frame over targets with scales (2, 1, 1), (1, 3, 1) and the defaults, each output is its own source times its own scale, the default one unchanged |

## Left out

- Babylon resource construction is left out: `ComputeShader`, `UniformBuffer`, `StorageBuffer`, `VertexBuffer` and the binding mapping (src/MorphPipeline.ts:46-63, 107-112). These are foreign library calls. Binding and uploading appear only as the abstract steps `Bind` and `Upload`.
- The mesh is left out: `getVerticesData` becomes the `positions` parameter of the target's constructor, and `setVerticesBuffer` (src/MorphPipeline.ts:113) is not modelled. That the mesh renders from the output buffer is outside the model.
- `Math.sin(time * 2 * PI)` is left out. It becomes the parameter `sinTurn: real -> real` of `Update`, so no trigonometry is modelled. `Interpolant` and `EffectiveScaleBetween` take a sine in [-1, 1] where the bound matters.
- `engine.getDeltaTime()` becomes the parameter `deltaMs`.
- f32 arithmetic and rounding in the kernel, and the f64 arithmetic of `Vector3.Lerp` in `update` (src/MorphPipeline.ts:78), are not modelled: positions, scales and time are reals. So `EffectiveScale` of a static target is exactly its parameter scale, where the f64 `1 + (s - 1)` need not equal `s` (for `s = 1e-20` it is 0). The u32 product `vertexIndex * 3` in the kernel is unbounded here, so its wrap-around for indices above 2^32/3 is not modelled.
- GPU parallelism and the asynchrony of `dispatchWhenReady` are left out. A dispatch runs synchronously, with its invocations in index order, and reads the uniform slot as it is when the dispatch is issued. The invocations write disjoint vertices: `InvokedCommute` proves that any two of them commute, and `LaunchedVertex` gives each vertex's result.
- Kernel.ScaledVertex: states the output vertex by vertex (`out[3v+k] = src[3v+k] * scale[k]`) instead of slot by slot as `out[j] = src[j] * scale[j % 3]`. The two say the same thing, and `Kernel.SameVertices` turns agreement on vertices into equality of the buffers.
- Morph.MorphTarget.constructor: requires the position count to be a multiple of 3, because the source divides without checking (src/MorphPipeline.ts:103). It does not model the fractional vertex count that JavaScript division gives otherwise.
- Morph.MorphPipeline.Update: requires that no two distinct targets in the list share an output buffer (`OwnOutputs`). Every `MorphTarget` allocates its own output, so this holds for any list of targets, repeats included. A hand-made alias is not modelled.
- The failure of kernel compilation or buffer allocation is left out. It is a foreign error path with no counterpart in the visible code.
- Changes to a target's `params` made during an update by other code are left out. The model reads each target's params once, in its callback.
- All of src/app.ts is left out: scene, camera, materials, asset loading and the render loop. It is UI and I/O.
