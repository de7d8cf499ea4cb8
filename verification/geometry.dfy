/** The geometry stager: grow-only GPU-visible buffers and the six-vertex quad used by the
    debug renderer. */
module Geometry {
  import opened Base

  /** sizeof(ImDrawVert): two float pairs (position, texture coordinate) and a packed colour. */
  const VertexStride: nat := 20
  /** sizeof(ImDrawIdx): 16-bit indices, matching the UNSIGNED_SHORT index type of the draws. */
  const IndexStride: nat := 2

  /** A GPU-visible allocation: its pool size in bytes and whether it is ready for use. */
  datatype Buffer = Buffer(size: nat, ready: bool)

  /** What the (foreign) allocator hands back when asked for a buffer: whether the memory
      came up ready, and how many bytes beyond the request it reserved. */
  datatype Grant = Grant(ready: bool, slack: nat)

  /** Reallocate only when there is no buffer yet or the current one is smaller than
      `required`; the old allocation is dropped and replaced. */
  function EnsureCapacity(current: Option<Buffer>, required: nat, grant: Grant): (b: Buffer)
    ensures required <= b.size
    ensures current.Some? ==> current.value.size <= b.size
    ensures current == Some(b) <==> current.Some? && required <= current.value.size
    ensures current.None? || current.value.size < required ==> b.ready == grant.ready
  {
    if current.None? || current.value.size < required then Buffer(required + grant.slack, grant.ready)
    else current.value
  }

  /** Runs `EnsureCapacity` once per frame over a series of requirements. */
  function EnsureEach(current: Option<Buffer>, required: seq<nat>, grants: seq<Grant>): (b: Option<Buffer>)
    requires |required| == |grants|
    decreases |required|
  {
    if |required| == 0 then current
    else EnsureEach(Some(EnsureCapacity(current, required[0], grants[0])), required[1..], grants[1..])
  }

  /** Over any series of frames the capacity never shrinks and covers every requirement seen;
      when no requirement exceeds the current capacity nothing is reallocated. */
  lemma {:induction false} EnsureEachGrowOnly(current: Option<Buffer>, required: seq<nat>, grants: seq<Grant>)
    requires |required| == |grants|
    ensures |required| > 0 ==> EnsureEach(current, required, grants).Some?
    ensures current.Some? ==> EnsureEach(current, required, grants).Some?
                              && current.value.size <= EnsureEach(current, required, grants).value.size
    ensures forall i :: 0 <= i < |required| ==> required[i] <= EnsureEach(current, required, grants).value.size
    ensures current.Some? && (forall i :: 0 <= i < |required| ==> required[i] <= current.value.size)
            ==> EnsureEach(current, required, grants) == current
    decreases |required|
  {
    if |required| > 0 {
      var next := Some(EnsureCapacity(current, required[0], grants[0]));
      EnsureEachGrowOnly(next, required[1..], grants[1..]);
      var final := EnsureEach(current, required, grants);
      assert final == EnsureEach(next, required[1..], grants[1..]);
      forall i | 0 <= i < |required|
        ensures required[i] <= final.value.size
      {
        if i > 0 {
          assert required[i] == required[1..][i - 1];
        }
      }
      if current.Some? && (forall i :: 0 <= i < |required| ==> required[i] <= current.value.size) {
        assert required[0] <= current.value.size;
        assert next == current;
        forall i | 0 <= i < |required[1..]|
          ensures required[1..][i] <= next.value.size
        {
          assert required[1..][i] == required[i + 1];
        }
      }
    }
  }

  /** One vertex of the UI mesh; positions are whole pixels and texture coordinates are 0 or 1
      for the quads built here. */
  datatype Vert = Vert(x: int, y: int, u: int, v: int, col: nat)

  const White: nat := 0xFFFF_FFFF

  /** The six vertices of an axis-aligned quad as two triangles sharing the diagonal from the
      (min, min) corner to the (max, max) corner. */
  function QuadVertices(x: int, y: int, width: int, height: int, col: nat): (q: seq<Vert>)
    ensures |q| == 6
    ensures forall k :: 0 <= k < 6 ==> q[k].u in {0, 1} && q[k].v in {0, 1}
    ensures forall k :: 0 <= k < 6 ==> q[k].x == x + q[k].u * width && q[k].y == y + q[k].v * height
    ensures forall k :: 0 <= k < 6 ==> q[k].col == col
    ensures q[0] == q[5] && q[2] == q[3]
    ensures (set k | 0 <= k < 6 :: (q[k].u, q[k].v)) == {(0, 0), (0, 1), (1, 0), (1, 1)}
  {
    var minX := x;
    var maxX := x + width;
    var minY := y;
    var maxY := y + height;
    var p1 := Vert(minX, minY, 0, 0, col);
    var p2 := Vert(minX, maxY, 0, 1, col);
    var p3 := Vert(maxX, minY, 1, 0, col);
    var p4 := Vert(maxX, maxY, 1, 1, col);
    var q := [p4, p2, p1, p1, p3, p4];
    assert (0, 0) == (q[2].u, q[2].v) && (0, 1) == (q[1].u, q[1].v);
    assert (1, 0) == (q[4].u, q[4].v) && (1, 1) == (q[0].u, q[0].v);
    q
  }

  /** Twice the signed area of a triangle: positive for one winding, negative for the other. */
  function SignedArea2(a: Vert, b: Vert, c: Vert): int {
    (b.x - a.x) * (c.y - a.y) - (b.y - a.y) * (c.x - a.x)
  }

  /** Both triangles of a quad wind the same way and each covers half of it. */
  lemma QuadWinding(x: int, y: int, width: int, height: int, col: nat)
    ensures var q := QuadVertices(x, y, width, height, col);
            SignedArea2(q[0], q[1], q[2]) == width * height
            && SignedArea2(q[3], q[4], q[5]) == width * height
  {
    var q := QuadVertices(x, y, width, height, col);
    assert SignedArea2(q[0], q[1], q[2]) == (-width) * (-height) - 0 * (-width);
    assert SignedArea2(q[3], q[4], q[5]) == width * height - 0 * width;
  }

  /** Places a quad's six vertices into `verts` starting at `start`; nothing else changes. */
  function CreateQuad(verts: seq<Vert>, start: nat, x: int, y: int, width: int, height: int, col: nat): (r: seq<Vert>)
    requires start + 6 <= |verts|
    ensures |r| == |verts|
    ensures forall i :: 0 <= i < |verts| && !(start <= i < start + 6) ==> r[i] == verts[i]
    ensures r[start..start + 6] == QuadVertices(x, y, width, height, col)
  {
    verts[..start] + QuadVertices(x, y, width, height, col) + verts[start + 6..]
  }

  /** `(int)(extent / 2.0f - 3.0f)`: the debug quad's origin on one axis, truncated toward zero
      as the float-to-int conversion does. */
  function QuadOrigin(extent: int): (o: int)
    ensures extent >= 6 ==> 0 <= 2 * o <= extent - 6 < 2 * o + 2
    ensures extent < 6 ==> 2 * o - 2 < extent - 6 <= 2 * o <= 0
  {
    if extent >= 6 then (extent - 6) / 2 else -((6 - extent) / 2)
  }
}
