/** The compute kernel `main`: invocation i scales the i-th position triple
    of the source buffer by the uniform scale and writes it to the same
    triple of the output buffer; an invocation whose triple starts at or past
    the end of the source writes nothing. The source is bound read-only, so
    it is a sequence here; the output is an array.

    The GPU runs the invocations in parallel. They write disjoint triples, so
    any two of them commute (InvokedCommute) and running them one after
    another in index order (Launched) stands for the parallel run;
    LaunchedVertex states that result vertex by vertex. */
module Kernel {
  import opened Vectors
  import opened Sizing

  /** Vertex v of a position buffer: floats 3v, 3v+1 and 3v+2. */
  function VertexAt(buf: seq<real>, v: nat): Vec3
    requires |buf| % FloatsPerVertex == 0 && v < VertexCount(|buf|)
  {
    Vec3(buf[v * FloatsPerVertex], buf[v * FloatsPerVertex + 1], buf[v * FloatsPerVertex + 2])
  }

  /** Two buffers of whole vertices that agree on every vertex are equal. */
  lemma SameVertices(a: seq<real>, b: seq<real>)
    requires |a| == |b| && |a| % FloatsPerVertex == 0
    requires forall v :: 0 <= v < VertexCount(|a|) ==> VertexAt(a, v) == VertexAt(b, v)
    ensures a == b
  {
    forall j | 0 <= j < |a|
      ensures a[j] == b[j]
    {
      var v, c := j / FloatsPerVertex, j % FloatsPerVertex;
      assert j == v * FloatsPerVertex + c;
      assert VertexAt(a, v) == VertexAt(b, v);
      if c == 0 {
        assert j == v * FloatsPerVertex;
      } else if c == 1 {
        assert j == v * FloatsPerVertex + 1;
      } else {
        assert j == v * FloatsPerVertex + 2;
      }
    }
  }

  /** The intended output: every vertex of `src` multiplied componentwise by
      `s`, vertex after vertex. */
  function Scaled(src: seq<real>, s: Vec3): (r: seq<real>)
    requires |src| % FloatsPerVertex == 0
    ensures |r| == |src|
  {
    if src == [] then []
    else
      var v := Vec3(src[0], src[1], src[2]).Mul(s);
      [v.x, v.y, v.z] + Scaled(src[FloatsPerVertex..], s)
  }

  /** Vertex v of Scaled is vertex v of the source multiplied componentwise
      by the scale. */
  lemma {:induction false} ScaledVertex(src: seq<real>, s: Vec3, v: nat)
    requires |src| % FloatsPerVertex == 0 && v < VertexCount(|src|)
    ensures VertexAt(Scaled(src, s), v) == VertexAt(src, v).Mul(s)
  {
    var w := Vec3(src[0], src[1], src[2]).Mul(s);
    assert Scaled(src, s) == [w.x, w.y, w.z] + Scaled(src[FloatsPerVertex..], s);
    if v > 0 {
      ScaledVertex(src[FloatsPerVertex..], s, v - 1);
      assert VertexAt(src[FloatsPerVertex..], v - 1) == VertexAt(src, v);
    }
  }

  /** With the unit scale the output equals the source exactly. */
  lemma {:induction false} ScaledByOne(src: seq<real>)
    requires |src| % FloatsPerVertex == 0
    ensures Scaled(src, One()) == src
  {
    forall v | 0 <= v < VertexCount(|src|)
      ensures VertexAt(Scaled(src, One()), v) == VertexAt(src, v)
    {
      ScaledVertex(src, One(), v);
    }
    SameVertices(Scaled(src, One()), src);
  }

  /** The effect of invocation i on the output contents `cur`: vertex i is
      overwritten with the scaled source vertex when it exists; every other
      vertex keeps its value. */
  function Invoked(src: seq<real>, cur: seq<real>, s: Vec3, i: nat): (r: seq<real>)
    requires |cur| == |src| && |src| % FloatsPerVertex == 0
    ensures |r| == |cur|
    ensures forall v :: 0 <= v < VertexCount(|r|) ==>
      VertexAt(r, v) == if v == i then VertexAt(src, v).Mul(s) else VertexAt(cur, v)
  {
    if i * FloatsPerVertex >= |src| then cur
    else
      var vertex := Vec3(src[i * FloatsPerVertex + 0], src[i * FloatsPerVertex + 1], src[i * FloatsPerVertex + 2]).Mul(s);
      cur[i * FloatsPerVertex + 0 := vertex.x][i * FloatsPerVertex + 1 := vertex.y][i * FloatsPerVertex + 2 := vertex.z]
  }

  /** Two different invocations commute: they write disjoint vertices, so
      either order leaves the same output. */
  lemma InvokedCommute(src: seq<real>, cur: seq<real>, s: Vec3, i: nat, j: nat)
    requires |cur| == |src| && |src| % FloatsPerVertex == 0 && i != j
    ensures Invoked(src, Invoked(src, cur, s, i), s, j) == Invoked(src, Invoked(src, cur, s, j), s, i)
  {
    var ij := Invoked(src, Invoked(src, cur, s, i), s, j);
    var ji := Invoked(src, Invoked(src, cur, s, j), s, i);
    SameVertices(ij, ji);
  }

  /** The output after invocations 0 .. n-1 have run, in index order, on
      initial contents `prev`. */
  function Launched(src: seq<real>, prev: seq<real>, s: Vec3, n: nat): (r: seq<real>)
    requires |prev| == |src| && |src| % FloatsPerVertex == 0
    ensures |r| == |prev|
    decreases n
  {
    if n == 0 then prev
    else Invoked(src, Launched(src, prev, s, n - 1), s, n - 1)
  }

  /** After n invocations, exactly the vertices below n are scaled; the others
      keep their initial contents. In particular nothing is written to a
      vertex that no launched invocation owns. */
  lemma {:induction false} LaunchedVertex(src: seq<real>, prev: seq<real>, s: Vec3, n: nat, v: nat)
    requires |prev| == |src| && |src| % FloatsPerVertex == 0 && v < VertexCount(|src|)
    ensures VertexAt(Launched(src, prev, s, n), v) ==
      if v < n then VertexAt(src, v).Mul(s) else VertexAt(prev, v)
  {
    if n > 0 {
      LaunchedVertex(src, prev, s, n - 1, v);
    }
  }

  /** Once every vertex has an invocation, the output is the source scaled,
      whatever the output held before and however many extra invocations the
      last workgroup carries. */
  lemma LaunchedCovers(src: seq<real>, prev: seq<real>, s: Vec3, n: nat)
    requires |prev| == |src| && |src| % FloatsPerVertex == 0
    requires n * FloatsPerVertex >= |src|
    ensures Launched(src, prev, s, n) == Scaled(src, s)
  {
    forall v | 0 <= v < VertexCount(|src|)
      ensures VertexAt(Launched(src, prev, s, n), v) == VertexAt(Scaled(src, s), v)
    {
      LaunchedVertex(src, prev, s, n, v);
      ScaledVertex(src, s, v);
    }
    SameVertices(Launched(src, prev, s, n), Scaled(src, s));
  }

  /** Invocations past the last vertex write nothing: launching more of them
      leaves the result unchanged. */
  lemma {:induction false} LaunchedOvershoot(src: seq<real>, prev: seq<real>, s: Vec3, n: nat, m: nat)
    requires |prev| == |src| && |src| % FloatsPerVertex == 0
    requires n * FloatsPerVertex >= |src| && m >= n
    ensures Launched(src, prev, s, m) == Launched(src, prev, s, n)
  {
    forall v | 0 <= v < VertexCount(|src|)
      ensures VertexAt(Launched(src, prev, s, m), v) == VertexAt(Launched(src, prev, s, n), v)
    {
      LaunchedVertex(src, prev, s, n, v);
      LaunchedVertex(src, prev, s, m, v);
    }
    SameVertices(Launched(src, prev, s, m), Launched(src, prev, s, n));
  }

  /** One invocation of `main` with global invocation id i. */
  method Invoke(src: seq<real>, out: array<real>, s: Vec3, i: nat)
    requires out.Length == |src| && |src| % FloatsPerVertex == 0
    modifies out
    ensures out[..] == Invoked(src, old(out[..]), s, i)
  {
    if i * FloatsPerVertex >= |src| {
      return;
    }
    var vertex := Vec3(src[i * FloatsPerVertex + 0], src[i * FloatsPerVertex + 1], src[i * FloatsPerVertex + 2]);
    vertex := vertex.Mul(s);
    out[i * FloatsPerVertex + 0] := vertex.x;
    out[i * FloatsPerVertex + 1] := vertex.y;
    out[i * FloatsPerVertex + 2] := vertex.z;
  }

  /** A dispatch of `groupCount` workgroups of 64 invocations, serialised. */
  method Run(src: seq<real>, out: array<real>, s: Vec3, groupCount: nat)
    requires out.Length == |src| && |src| % FloatsPerVertex == 0
    modifies out
    ensures out[..] == Launched(src, old(out[..]), s, groupCount * WorkgroupSize)
  {
    for i := 0 to groupCount * WorkgroupSize
      invariant out[..] == Launched(src, old(out[..]), s, i)
    {
      Invoke(src, out, s, i);
    }
  }
}
