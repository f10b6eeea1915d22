/** The integer arithmetic around the kernel: how many vertices a position
    array holds, how many bytes its buffers take, and how many workgroups a
    dispatch launches. */
module Sizing {

  /** `@workgroup_size(64)` of the kernel. */
  const WorkgroupSize: nat := 64
  /** Floats per vertex position (x, y, z). */
  const FloatsPerVertex: nat := 3
  /** Bytes per f32. */
  const BytesPerFloat: nat := 4

  /** Math.ceil on a real: the least integer not below r. */
  function Ceil(r: real): (c: int)
    ensures r <= c as real < r + 1.0
  {
    -((-r).Floor)
  }

  /** `vertexData.length / 3`; the source divides without checking that the
      length is a multiple of 3, so that is the caller's obligation here. */
  function VertexCount(floats: nat): (n: nat)
    requires floats % FloatsPerVertex == 0
    ensures n * FloatsPerVertex == floats
  {
    floats / FloatsPerVertex
  }

  /** `vertexCount * 3 * 4`: the byte size of one position buffer. */
  function ByteLength(vertexCount: nat): (b: nat)
    ensures b % (FloatsPerVertex * BytesPerFloat) == 0
    ensures b / (FloatsPerVertex * BytesPerFloat) == vertexCount
  {
    vertexCount * FloatsPerVertex * BytesPerFloat
  }

  /** `Math.ceil(vertexCount / 64)`: the number of workgroups dispatched for a
      target. Enough invocations are launched to cover every vertex, and one
      workgroup fewer would not be enough. */
  function GroupCount(vertexCount: nat): (g: nat)
    ensures g * WorkgroupSize >= vertexCount
    ensures (g - 1) * WorkgroupSize < vertexCount
  {
    Ceil(vertexCount as real / WorkgroupSize as real)
  }

  /** GroupCount is the least group count whose invocations cover every vertex. */
  lemma GroupCountIsLeast(vertexCount: nat, g: nat)
    requires g * WorkgroupSize >= vertexCount
    ensures GroupCount(vertexCount) <= g
  {
  }

  /** The real ceiling agrees with the integer rounding-up division. */
  lemma GroupCountIsIntegerCeiling(vertexCount: nat)
    ensures GroupCount(vertexCount) == (vertexCount + WorkgroupSize - 1) / WorkgroupSize
  {
  }

  /** No vertices means no workgroups, and any vertex means at least one. */
  lemma GroupCountZero(vertexCount: nat)
    ensures GroupCount(vertexCount) == 0 <==> vertexCount == 0
  {
  }

  /** Both buffers of a target take four bytes per float of the snapshot. */
  lemma ByteLengthOfSnapshot(floats: nat)
    requires floats % FloatsPerVertex == 0
    ensures ByteLength(VertexCount(floats)) == floats * BytesPerFloat
  {
  }

  /** A ten-vertex mesh needs a single workgroup. */
  lemma TenVerticesOneGroup()
    ensures GroupCount(10) == 1
  {
  }
}
