/** Which texture and vertex slice each draw of a rendered frame runs under, stated against a
    per-list reference: every draw of list `j` reads list `j`'s vertex slice and its own
    command's texture. */
module SubmitBindings {
  import opened Base
  import opened Geometry
  import opened DrawLists
  import opened Driver
  import opened Submit
  import opened SubmitProofs
  import Backend

  /** The vertex slice of list `i`: its own vertex bytes at the vertex bytes of all earlier
      lists. */
  function ListSlice(lists: seq<DrawList>, i: nat): Slice
    requires i < |lists|
  {
    Slice(VtxBase(lists, i), lists[i].vtxCount * VertexStride)
  }

  /** The draws of the rendered commands `ps`, each with its own texture and the slice `v`. */
  function Contexts(ps: seq<Placed>, v: Slice): (cs: seq<DrawContext>)
    ensures |cs| == |ps|
    ensures forall k :: 0 <= k < |ps| ==>
              cs[k] == DrawContext(Draw(ps[k].cmd, ps[k].idxBase), Binding(ps[k].cmd.texture, Some(v)))
  {
    seq(|ps|, k requires 0 <= k < |ps| =>
      DrawContext(Draw(ps[k].cmd, ps[k].idxBase), Binding(ps[k].cmd.texture, Some(v))))
  }

  lemma ContextsAppend(a: seq<Placed>, c: seq<Placed>, v: Slice)
    ensures Contexts(a + c, v) == Contexts(a, v) + Contexts(c, v)
  {
  }

  /** Reference for lists `i..`: list by list, the draw of each visible command under that
      command's texture and that list's vertex slice. */
  function Expected(lists: seq<DrawList>, i: nat): seq<DrawContext>
    requires i <= |lists|
    decreases |lists| - i
  {
    if i == |lists| then []
    else Contexts(Visible(Place(lists[i].cmds, IdxBase(lists, i))), ListSlice(lists, i)) + Expected(lists, i + 1)
  }

  /** `cs` draws the commands `ps`, one for one, each under its own texture. */
  predicate Follows(cs: seq<DrawContext>, ps: seq<Placed>) {
    && |cs| == |ps|
    && forall k :: 0 <= k < |ps| ==>
         cs[k].draw == Draw(ps[k].cmd, ps[k].idxBase) && cs[k].binding.texture == ps[k].cmd.texture
  }

  lemma FollowsAppend(c1: seq<DrawContext>, p1: seq<Placed>, c2: seq<DrawContext>, p2: seq<Placed>)
    requires Follows(c1, p1) && Follows(c2, p2)
    ensures Follows(c1 + c2, p1 + p2)
  {
    forall k | 0 <= k < |p1 + p2|
      ensures (c1 + c2)[k].draw == Draw((p1 + p2)[k].cmd, (p1 + p2)[k].idxBase)
      ensures (c1 + c2)[k].binding.texture == (p1 + p2)[k].cmd.texture
    {
      if k >= |p1| {
        assert (p1 + p2)[k] == p2[k - |p1|];
        assert (c1 + c2)[k] == c2[k - |p1|];
      }
    }
  }

  /** The reference lists exactly the rendered commands of the flattened order, each draw
      with its own texture. */
  lemma {:induction false} ExpectedFollowsPlaced(lists: seq<DrawList>, i: nat)
    requires i <= |lists|
    ensures var ps := Visible(PlacedFrom(lists, i));
            var cs := Expected(lists, i);
            && |cs| == |ps|
            && forall k :: 0 <= k < |ps| ==>
                 cs[k].draw == Draw(ps[k].cmd, ps[k].idxBase) && cs[k].binding.texture == ps[k].cmd.texture
    decreases |lists| - i
  {
    if i < |lists| {
      ExpectedFollowsPlaced(lists, i + 1);
      PlacedFromCons(lists, i, IdxBase(lists, i));
      var here := Visible(Place(lists[i].cmds, IdxBase(lists, i)));
      var hs := Contexts(here, ListSlice(lists, i));
      assert Follows(hs, here);
      assert Follows(Expected(lists, i + 1), Visible(PlacedFrom(lists, i + 1)));
      FollowsAppend(hs, here, Expected(lists, i + 1), Visible(PlacedFrom(lists, i + 1)));
      assert Visible(PlacedFrom(lists, i)) == here + Visible(PlacedFrom(lists, i + 1));
      assert Follows(Expected(lists, i), Visible(PlacedFrom(lists, i)));
    }
  }

  /** One command run with texture `bound` and slice `v` bound: a rendered command draws under
      its own texture and `v`, and leaves the texture it bound. */
  lemma CmdContexts(c: DrawCmd, base: nat, display: Size, bound: Handle, v: Slice)
    ensures var e := CmdEvents(c, base, display, bound);
            && AtDraws(e.events, Binding(bound, Some(v))) == Contexts(Shown(c, base), v)
            && After(e.events, Binding(bound, Some(v))) == Binding(e.bound, Some(v))
  {
    var b := Binding(bound, Some(v));
    if Degenerate(c.clip) {
      assert CmdEvents(c, base, display, bound).events == [];
    } else {
      var bind := if bound != c.texture then [Issue(BindTexture(c.texture))] else [];
      var vp := Issue(Viewport(display));
      var sc := Issue(Scissor(c.clip));
      var dr := Issue(Draw(c, base));
      var b' := Binding(c.texture, Some(v));
      assert CmdEvents(c, base, display, bound).events == [vp, sc] + (bind + [dr]);
      AtDrawsAppend([vp, sc], bind + [dr], b);
      AtDrawsNeutral([vp, sc], b);
      AtDrawsAppend(bind, [dr], b);
      if bind != [] {
        assert bind == [bind[0]] + [];
        AtDrawsCons(bind[0], [], b);
      } else {
        AtDrawsNeutral(bind, b);
      }
      AtDrawsCons(dr, [], b');
      assert Shown(c, base) == [Placed(c, base)];
    }
  }

  /** The commands of one list, run with texture `bound` and slice `v` bound, draw each visible
      command under its own texture and `v`. */
  lemma {:induction false} CmdsContexts(cmds: seq<DrawCmd>, base: nat, display: Size, bound: Handle, v: Slice)
    ensures var e := CmdsEvents(cmds, base, display, bound);
            && AtDraws(e.events, Binding(bound, Some(v))) == Contexts(Visible(Place(cmds, base)), v)
            && After(e.events, Binding(bound, Some(v))) == Binding(e.bound, Some(v))
    decreases |cmds|
  {
    if |cmds| > 0 {
      var head := CmdEvents(cmds[0], base, display, bound);
      var tail := CmdsEvents(cmds[1..], base, display, head.bound);
      assert CmdsEvents(cmds, base, display, bound) == Emit(head.events + tail.events, tail.bound);
      CmdContexts(cmds[0], base, display, bound, v);
      CmdsContexts(cmds[1..], base, display, head.bound, v);
      AtDrawsAppend(head.events, tail.events, Binding(bound, Some(v)));
      ShownCons(cmds, base);
      ContextsAppend(Shown(cmds[0], base), Visible(Place(cmds[1..], base)), v);
    }
  }

  /** Before its commands, a list binds its vertex slice and draws nothing. */
  lemma ListHeadBinds(lists: seq<DrawList>, i: nat, b: Binding)
    requires i < |lists|
    ensures var h := ListHead(lists, i, VtxBase(lists, i), IdxBase(lists, i));
            AtDraws(h, b) == [] && After(h, b) == b.(vertices := Some(ListSlice(lists, i)))
  {
    var h := ListHead(lists, i, VtxBase(lists, i), IdxBase(lists, i));
    assert h == [h[0]] + h[1..];
    AtDrawsCons(h[0], h[1..], b);
    AtDrawsNeutral(h[1..], Rebind(b, h[0]));
  }

  /** Lists `i..`, started at their own bases with texture `bound` bound, draw exactly the
      reference, and leave bound the texture they report. */
  lemma {:induction false} ListsContexts(lists: seq<DrawList>, i: nat, display: Size, bound: Handle, v: Option<Slice>)
    requires i <= |lists|
    ensures var e := ListsFrom(lists, i, VtxBase(lists, i), IdxBase(lists, i), display, bound);
            && AtDraws(e.events, Binding(bound, v)) == Expected(lists, i)
            && After(e.events, Binding(bound, v)).texture == e.bound
    decreases |lists| - i
  {
    if i < |lists| {
      var b := Binding(bound, v);
      var head := ListHead(lists, i, VtxBase(lists, i), IdxBase(lists, i));
      var cmds := CmdsEvents(lists[i].cmds, IdxBase(lists, i), display, bound);
      BasesStep(lists, i);
      var rest := ListsFrom(lists, i + 1, VtxBase(lists, i + 1), IdxBase(lists, i + 1), display, cmds.bound);
      ListsFromCons(lists, i, VtxBase(lists, i), IdxBase(lists, i), display, bound);
      ListHeadBinds(lists, i, b);
      CmdsContexts(lists[i].cmds, IdxBase(lists, i), display, bound, ListSlice(lists, i));
      ListsContexts(lists, i + 1, display, cmds.bound, Some(ListSlice(lists, i)));
      AtDrawsAppend(head, cmds.events + rest.events, b);
      AtDrawsAppend(cmds.events, rest.events, Binding(bound, Some(ListSlice(lists, i))));
    }
  }

  /** The preamble and the finish of a frame bind no texture or vertex slice and draw
      nothing. */
  lemma FramedContexts(r: Backend.Renderer, body: seq<Event>, b: Binding)
    ensures AtDraws(Preamble(r) + body + Finish(r), b) == AtDraws(body, b)
  {
    AtDrawsAppend(Preamble(r) + body, Finish(r), b);
    AtDrawsAppend(Preamble(r), body, b);
    AtDrawsNeutral(Preamble(r), b);
    AtDrawsNeutral(Finish(r), After(Preamble(r) + body, b));
  }

  /** Every draw of a rendered frame runs under its own command's texture (handle 0 counting as
      bound at the start) and its own list's vertex slice: the draws of the frame, with the
      binding in force at each, are exactly the reference. */
  lemma FrameDrawContexts(r: Backend.Renderer, dd: DrawData, vtxGrant: Grant, idxGrant: Grant)
    requires RendersGeometry(r, dd, vtxGrant, idxGrant)
    ensures AtDraws(RenderDrawData(r, dd, vtxGrant, idxGrant).trace, Binding(0, None)) == Expected(dd.lists, 0)
  {
    FrameShape(r, dd, vtxGrant, idxGrant);
    assert VtxBase(dd.lists, 0) == 0 && IdxBase(dd.lists, 0) == 0;
    ListsContexts(dd.lists, 0, r.display, 0, None);
    FramedContexts(r, Body(r, dd), Binding(0, None));
  }

  /** The same at a trace position: the indexed draw at position `i` of a rendered frame is
      the draw of rendered command `k`, where `k` counts the draws before `i`; the last
      texture bound before `i` (or handle 0) is that command's texture, and the last vertex
      slice bound before `i` is its list's. */
  lemma FrameDrawBindings(r: Backend.Renderer, dd: DrawData, vtxGrant: Grant, idxGrant: Grant, i: nat)
    requires RendersGeometry(r, dd, vtxGrant, idxGrant)
    requires i < |RenderDrawData(r, dd, vtxGrant, idxGrant).trace|
    requires IsDraw(RenderDrawData(r, dd, vtxGrant, idxGrant).trace[i])
    ensures var t := RenderDrawData(r, dd, vtxGrant, idxGrant).trace;
            var ps := Visible(PlacedFrom(dd.lists, 0));
            var k := |Select(t[..i], IsDraw)|;
            && k < |ps| && k < |Expected(dd.lists, 0)|
            && t[i] == Issue(Draw(ps[k].cmd, ps[k].idxBase))
            && After(t[..i], Binding(0, None)).texture == ps[k].cmd.texture
            && After(t[..i], Binding(0, None)) == Expected(dd.lists, 0)[k].binding
  {
    var t := RenderDrawData(r, dd, vtxGrant, idxGrant).trace;
    FrameDrawContexts(r, dd, vtxGrant, idxGrant);
    AtDrawsAt(t, Binding(0, None), i);
    ExpectedFollowsPlaced(dd.lists, 0);
  }

  /** Every binding of the reference carries a slice of one of the lists. */
  lemma {:induction false} ExpectedSlices(lists: seq<DrawList>, i: nat, k: nat)
    requires i <= |lists| && k < |Expected(lists, i)|
    ensures exists j :: i <= j < |lists| && Expected(lists, i)[k].binding.vertices == Some(ListSlice(lists, j))
    decreases |lists| - i
  {
    var here := Contexts(Visible(Place(lists[i].cmds, IdxBase(lists, i))), ListSlice(lists, i));
    if k < |here| {
      assert Expected(lists, i)[k] == here[k];
    } else {
      assert Expected(lists, i)[k] == Expected(lists, i + 1)[k - |here|];
      ExpectedSlices(lists, i + 1, k - |here|);
    }
  }
}
