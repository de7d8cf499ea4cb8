/** The UI library's per-frame draw data, with integer clip rectangles and texture handles,
    and the reference definitions the submission pipeline is checked against: running sums,
    the flattened command order, visibility and run-length de-duplication of textures. */
module DrawLists {
  import opened Base
  import Geometry

  /** A clip rectangle as (min x, min y, max x, max y). */
  datatype Rect = Rect(minX: int, minY: int, maxX: int, maxY: int)

  /** Zero or negative extent on either axis. */
  predicate Degenerate(r: Rect) {
    r.maxX <= r.minX || r.maxY <= r.minY
  }

  /** One draw command: clip, element count, first index within its list, base vertex within
      its list, and the texture handle its texture id points at. */
  datatype DrawCmd = DrawCmd(clip: Rect, elemCount: nat, idxOffset: nat, vtxOffset: nat, texture: Handle)

  /** One command list: how many vertices and indices it carries, and its commands. */
  datatype DrawList = DrawList(vtxCount: nat, idxCount: nat, cmds: seq<DrawCmd>)

  /** The frame's draw data. The totals are separate fields, as in the UI library; nothing
      forces them to equal the per-list sums. */
  datatype DrawData = DrawData(valid: bool, lists: seq<DrawList>, totalVtxCount: nat, totalIdxCount: nat)

  // ----- running sums -------------------------------------------------------------------

  function Sum(xs: seq<nat>): nat
    decreases |xs|
  {
    if |xs| == 0 then 0 else Sum(xs[..|xs| - 1]) + xs[|xs| - 1]
  }

  function VtxCounts(lists: seq<DrawList>): (c: seq<nat>)
    ensures |c| == |lists| && forall i :: 0 <= i < |lists| ==> c[i] == lists[i].vtxCount
  {
    seq(|lists|, i requires 0 <= i < |lists| => lists[i].vtxCount)
  }

  function IdxCounts(lists: seq<DrawList>): (c: seq<nat>)
    ensures |c| == |lists| && forall i :: 0 <= i < |lists| ==> c[i] == lists[i].idxCount
  {
    seq(|lists|, i requires 0 <= i < |lists| => lists[i].idxCount)
  }

  lemma SumStep(xs: seq<nat>, i: nat)
    requires i < |xs|
    ensures Sum(xs[..i + 1]) == Sum(xs[..i]) + xs[i]
  {
    assert xs[..i + 1][..i] == xs[..i];
  }

  /** Prefix sums grow with the prefix. */
  lemma {:induction false} SumPrefixMonotone(xs: seq<nat>, i: nat, j: nat)
    requires i <= j <= |xs|
    ensures Sum(xs[..i]) <= Sum(xs[..j])
    decreases j - i
  {
    if i < j {
      SumStep(xs, j - 1);
      SumPrefixMonotone(xs, i, j - 1);
    }
  }

  // ----- flattened command order --------------------------------------------------------

  /** A command together with the byte offset of its list's indices in the index buffer. */
  datatype Placed = Placed(cmd: DrawCmd, idxBase: nat)

  /** The commands of one list, in order, each placed at that list's index bytes. */
  function Place(cmds: seq<DrawCmd>, idxBase: nat): (ps: seq<Placed>)
    ensures |ps| == |cmds|
    ensures forall k :: 0 <= k < |ps| ==> ps[k].cmd == cmds[k] && ps[k].idxBase == idxBase
    decreases |cmds|
  {
    if |cmds| == 0 then [] else [Placed(cmds[0], idxBase)] + Place(cmds[1..], idxBase)
  }

  /** Every command of lists `i..`, in list order then command order, each placed at the
      index bytes of all earlier lists. */
  function PlacedFrom(lists: seq<DrawList>, i: nat): seq<Placed>
    requires i <= |lists|
    decreases |lists| - i
  {
    if i == |lists| then []
    else Place(lists[i].cmds, Geometry.IndexStride * Sum(IdxCounts(lists)[..i])) + PlacedFrom(lists, i + 1)
  }

  /** The commands whose clip rectangle is not degenerate, in order. */
  function Visible(ps: seq<Placed>): (vs: seq<Placed>)
    ensures forall k :: 0 <= k < |vs| ==> !Degenerate(vs[k].cmd.clip)
    decreases |ps|
  {
    if |ps| == 0 then []
    else (if Degenerate(ps[0].cmd.clip) then [] else [ps[0]]) + Visible(ps[1..])
  }

  lemma {:induction false} VisibleAppend(a: seq<Placed>, b: seq<Placed>)
    ensures Visible(a + b) == Visible(a) + Visible(b)
    decreases |a|
  {
    if |a| == 0 {
      assert a + b == b;
    } else {
      assert (a + b)[0] == a[0];
      assert (a + b)[1..] == a[1..] + b;
      VisibleAppend(a[1..], b);
    }
  }

  function Textures(ps: seq<Placed>): (ts: seq<Handle>)
    ensures |ts| == |ps| && forall k :: 0 <= k < |ps| ==> ts[k] == ps[k].cmd.texture
  {
    seq(|ps|, k requires 0 <= k < |ps| => ps[k].cmd.texture)
  }

  // ----- run-length de-duplication ------------------------------------------------------

  /** `xs` with every element dropped that equals the one before it (the first element is
      compared with `prev`): one entry per maximal run of equal handles. */
  function Dedup(xs: seq<Handle>, prev: Handle): seq<Handle>
    decreases |xs|
  {
    if |xs| == 0 then []
    else (if xs[0] != prev then [xs[0]] else []) + Dedup(xs[1..], xs[0])
  }

  /** The last element of `xs`, or `prev` when it is empty. */
  function LastOr(xs: seq<Handle>, prev: Handle): Handle {
    if |xs| == 0 then prev else xs[|xs| - 1]
  }

  lemma {:induction false} DedupAppend(xs: seq<Handle>, ys: seq<Handle>, prev: Handle)
    ensures Dedup(xs + ys, prev) == Dedup(xs, prev) + Dedup(ys, LastOr(xs, prev))
    decreases |xs|
  {
    if |xs| == 0 {
      assert xs + ys == ys;
    } else {
      assert (xs + ys)[0] == xs[0];
      assert (xs + ys)[1..] == xs[1..] + ys;
      DedupAppend(xs[1..], ys, xs[0]);
      if |xs| > 1 {
        assert LastOr(xs[1..], xs[0]) == LastOr(xs, prev);
      }
    }
  }

  /** De-duplication never yields two equal neighbours, and never repeats `prev` first. */
  lemma {:induction false} DedupNoRepeats(xs: seq<Handle>, prev: Handle)
    ensures var d := Dedup(xs, prev);
            (|d| > 0 ==> d[0] != prev) && forall k :: 0 < k < |d| ==> d[k] != d[k - 1]
    decreases |xs|
  {
    if |xs| > 0 {
      DedupNoRepeats(xs[1..], xs[0]);
    }
  }
}
