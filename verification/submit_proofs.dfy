/** Properties of the frame trace `renderDrawData` produces, each stated against the
    reference definitions of the draw-list module. */
module SubmitProofs {
  import opened Base
  import opened Geometry
  import opened DrawLists
  import opened Driver
  import opened Submit
  import Backend

  /** What the rendered commands `ps` issue besides texture binds: viewport, scissor, draw. */
  function Rendered(ps: seq<Placed>, display: Size): seq<Event>
    decreases |ps|
  {
    if |ps| == 0 then []
    else [Issue(Viewport(display)), Issue(Scissor(ps[0].cmd.clip)), Issue(Draw(ps[0].cmd, ps[0].idxBase))]
         + Rendered(ps[1..], display)
  }

  lemma {:induction false} RenderedAppend(a: seq<Placed>, b: seq<Placed>, display: Size)
    ensures Rendered(a + b, display) == Rendered(a, display) + Rendered(b, display)
    decreases |a|
  {
    if |a| == 0 {
      assert a + b == b;
    } else {
      assert (a + b)[0] == a[0];
      assert (a + b)[1..] == a[1..] + b;
      RenderedAppend(a[1..], b, display);
    }
  }

  /** One texture bind per handle, in order. */
  function Binds(hs: seq<Handle>): (t: seq<Event>)
    ensures |t| == |hs| && forall k :: 0 <= k < |hs| ==> t[k] == Issue(BindTexture(hs[k]))
  {
    seq(|hs|, k requires 0 <= k < |hs| => Issue(BindTexture(hs[k])))
  }

  lemma BindsAppend(a: seq<Handle>, b: seq<Handle>)
    ensures Binds(a + b) == Binds(a) + Binds(b)
  {
  }

  /** The textures of the visible commands, in order. */
  function VisibleTextures(ps: seq<Placed>): seq<Handle> {
    Textures(Visible(ps))
  }

  lemma VisibleTexturesAppend(a: seq<Placed>, b: seq<Placed>)
    ensures VisibleTextures(a + b) == VisibleTextures(a) + VisibleTextures(b)
  {
    VisibleAppend(a, b);
    assert Textures(Visible(a) + Visible(b)) == Textures(Visible(a)) + Textures(Visible(b));
  }

  lemma LastOrAppend(xs: seq<Handle>, ys: seq<Handle>, prev: Handle)
    ensures LastOr(xs + ys, prev) == LastOr(ys, LastOr(xs, prev))
  {
  }

  lemma PlaceCons(cmds: seq<DrawCmd>, base: nat)
    requires |cmds| > 0
    ensures Visible(Place(cmds, base))
            == (if Degenerate(cmds[0].clip) then [] else [Placed(cmds[0], base)]) + Visible(Place(cmds[1..], base))
  {
    var ps := Place(cmds, base);
    assert ps[0] == Placed(cmds[0], base);
    assert ps[1..] == Place(cmds[1..], base);
  }

  lemma DedupCons(t: Handle, xs: seq<Handle>, prev: Handle)
    ensures Dedup([t] + xs, prev) == (if t != prev then [t] else []) + Dedup(xs, t)
  {
    assert ([t] + xs)[0] == t;
    assert ([t] + xs)[1..] == xs;
  }

  /** One command's viewport, scissor and draw, or nothing when its clip is degenerate. */
  function Shown(c: DrawCmd, base: nat): seq<Placed> {
    if Degenerate(c.clip) then [] else [Placed(c, base)]
  }

  lemma CmdRendered(c: DrawCmd, base: nat, display: Size, bound: Handle)
    ensures Select(CmdEvents(c, base, display, bound).events, IsPerCommand) == Rendered(Shown(c, base), display)
  {
    if !Degenerate(c.clip) {
      var bind := if bound != c.texture then [Issue(BindTexture(c.texture))] else [];
      var vp := Issue(Viewport(display));
      var sc := Issue(Scissor(c.clip));
      var dr := Issue(Draw(c, base));
      assert CmdEvents(c, base, display, bound).events == [vp] + ([sc] + (bind + [dr]));
      SelectAppend([vp], [sc] + (bind + [dr]), IsPerCommand);
      SelectAppend([sc], bind + [dr], IsPerCommand);
      SelectAppend(bind, [dr], IsPerCommand);
      SelectSingle(vp, IsPerCommand);
      SelectSingle(sc, IsPerCommand);
      SelectSingle(dr, IsPerCommand);
      SelectNone(bind, IsPerCommand);
      assert Shown(c, base)[1..] == [];
    }
  }

  lemma CmdBinds(c: DrawCmd, base: nat, display: Size, bound: Handle)
    ensures Select(CmdEvents(c, base, display, bound).events, IsBindTexture)
            == Binds(Dedup(Textures(Shown(c, base)), bound))
  {
    if !Degenerate(c.clip) {
      var bind := if bound != c.texture then [Issue(BindTexture(c.texture))] else [];
      var vp := Issue(Viewport(display));
      var sc := Issue(Scissor(c.clip));
      var dr := Issue(Draw(c, base));
      assert CmdEvents(c, base, display, bound).events == [vp, sc] + (bind + [dr]);
      SelectAppend([vp, sc], bind + [dr], IsBindTexture);
      SelectNone([vp, sc], IsBindTexture);
      SelectAppend(bind, [dr], IsBindTexture);
      SelectSingle(dr, IsBindTexture);
      if bind != [] {
        SelectSingle(bind[0], IsBindTexture);
      }
      assert Textures(Shown(c, base)) == [c.texture];
      DedupCons(c.texture, [], bound);
    }
  }

  /** Binding the textures of two runs one after the other, the second starting from what the
      first left bound, is binding the textures of both. */
  lemma DedupJoin(here: seq<Handle>, later: seq<Handle>, bound: Handle)
    ensures Binds(Dedup(here + later, bound)) == Binds(Dedup(here, bound)) + Binds(Dedup(later, LastOr(here, bound)))
    ensures LastOr(here + later, bound) == LastOr(later, LastOr(here, bound))
  {
    DedupAppend(here, later, bound);
    LastOrAppend(here, later, bound);
    BindsAppend(Dedup(here, bound), Dedup(later, LastOr(here, bound)));
  }

  /** A command leaves bound the last texture it shows, or the one bound before. */
  lemma CmdBound(c: DrawCmd, base: nat, display: Size, bound: Handle)
    ensures CmdEvents(c, base, display, bound).bound == LastOr(Textures(Shown(c, base)), bound)
  {
  }

  lemma TexturesAppend(a: seq<Placed>, b: seq<Placed>)
    ensures Textures(a + b) == Textures(a) + Textures(b)
  {
  }

  lemma ShownCons(cmds: seq<DrawCmd>, base: nat)
    requires |cmds| > 0
    ensures Visible(Place(cmds, base)) == Shown(cmds[0], base) + Visible(Place(cmds[1..], base))
  {
    PlaceCons(cmds, base);
  }

  /** The commands of one list issue viewport, scissor and draw for its visible commands,
      in order. */
  lemma {:induction false} CmdsRendered(cmds: seq<DrawCmd>, base: nat, display: Size, bound: Handle)
    ensures Select(CmdsEvents(cmds, base, display, bound).events, IsPerCommand)
            == Rendered(Visible(Place(cmds, base)), display)
    decreases |cmds|
  {
    if |cmds| > 0 {
      var head := CmdEvents(cmds[0], base, display, bound);
      var tail := CmdsEvents(cmds[1..], base, display, head.bound);
      CmdsRendered(cmds[1..], base, display, head.bound);
      SelectAppend(head.events, tail.events, IsPerCommand);
      CmdRendered(cmds[0], base, display, bound);
      ShownCons(cmds, base);
      RenderedAppend(Shown(cmds[0], base), Visible(Place(cmds[1..], base)), display);
    }
  }

  /** The commands of one list bind the textures of its visible commands with repeats of the
      bound handle removed, and leave bound the last visible texture. */
  lemma {:induction false} CmdsBinds(cmds: seq<DrawCmd>, base: nat, display: Size, bound: Handle)
    ensures var e := CmdsEvents(cmds, base, display, bound);
            var ts := Textures(Visible(Place(cmds, base)));
            && Select(e.events, IsBindTexture) == Binds(Dedup(ts, bound))
            && e.bound == LastOr(ts, bound)
    decreases |cmds|
  {
    if |cmds| > 0 {
      var head := CmdEvents(cmds[0], base, display, bound);
      var tail := CmdsEvents(cmds[1..], base, display, head.bound);
      assert CmdsEvents(cmds, base, display, bound) == Emit(head.events + tail.events, tail.bound);
      CmdsBinds(cmds[1..], base, display, head.bound);
      SelectAppend(head.events, tail.events, IsBindTexture);
      CmdBinds(cmds[0], base, display, bound);
      CmdBound(cmds[0], base, display, bound);
      ShownCons(cmds, base);
      TexturesAppend(Shown(cmds[0], base), Visible(Place(cmds[1..], base)));
      DedupJoin(Textures(Shown(cmds[0], base)), Textures(Visible(Place(cmds[1..], base))), bound);
    }
  }

  /** The events of list `i` before its commands: bind its vertex slice, copy its vertices
      and its indices. */
  function ListHead(lists: seq<DrawList>, i: nat, vtxOffset: nat, idxOffset: nat): seq<Event>
    requires i < |lists|
  {
    [Issue(BindVertexBuffer(vtxOffset, lists[i].vtxCount * VertexStride)),
     CopyVertices(vtxOffset, lists[i].vtxCount * VertexStride),
     CopyIndices(idxOffset, lists[i].idxCount * IndexStride)]
  }

  lemma ListsFromCons(lists: seq<DrawList>, i: nat, vtxOffset: nat, idxOffset: nat, display: Size, bound: Handle)
    requires i < |lists|
    ensures var cmds := CmdsEvents(lists[i].cmds, idxOffset, display, bound);
            var rest := ListsFrom(lists, i + 1, vtxOffset + lists[i].vtxCount * VertexStride,
                                  idxOffset + lists[i].idxCount * IndexStride, display, cmds.bound);
            var e := ListsFrom(lists, i, vtxOffset, idxOffset, display, bound);
            && e.events == ListHead(lists, i, vtxOffset, idxOffset) + (cmds.events + rest.events)
            && e.bound == rest.bound
  {
  }

  lemma PlacedFromCons(lists: seq<DrawList>, i: nat, idxOffset: nat)
    requires i < |lists|
    requires idxOffset == IndexStride * Sum(IdxCounts(lists)[..i])
    ensures Visible(PlacedFrom(lists, i))
            == Visible(Place(lists[i].cmds, idxOffset)) + Visible(PlacedFrom(lists, i + 1))
    ensures idxOffset + lists[i].idxCount * IndexStride == IndexStride * Sum(IdxCounts(lists)[..i + 1])
  {
    SumStep(IdxCounts(lists), i);
    VisibleAppend(Place(lists[i].cmds, idxOffset), PlacedFrom(lists, i + 1));
  }

  /** Lists `i..`, with the index offset at the index bytes of lists `..i`, issue viewport,
      scissor and draw for their visible commands in the flattened order. */
  lemma {:induction false} ListsRendered(lists: seq<DrawList>, i: nat, vtxOffset: nat, idxOffset: nat,
                                         display: Size, bound: Handle)
    requires i <= |lists|
    requires idxOffset == IndexStride * Sum(IdxCounts(lists)[..i])
    ensures Select(ListsFrom(lists, i, vtxOffset, idxOffset, display, bound).events, IsPerCommand)
            == Rendered(Visible(PlacedFrom(lists, i)), display)
    decreases |lists| - i
  {
    if i < |lists| {
      var cmds := CmdsEvents(lists[i].cmds, idxOffset, display, bound);
      var rest := ListsFrom(lists, i + 1, vtxOffset + lists[i].vtxCount * VertexStride,
                            idxOffset + lists[i].idxCount * IndexStride, display, cmds.bound);
      ListsFromCons(lists, i, vtxOffset, idxOffset, display, bound);
      PlacedFromCons(lists, i, idxOffset);
      ListsRendered(lists, i + 1, vtxOffset + lists[i].vtxCount * VertexStride,
                    idxOffset + lists[i].idxCount * IndexStride, display, cmds.bound);
      CmdsRendered(lists[i].cmds, idxOffset, display, bound);
      var head := ListHead(lists, i, vtxOffset, idxOffset);
      SelectNone(head, IsPerCommand);
      SelectAppend(head, cmds.events + rest.events, IsPerCommand);
      SelectAppend(cmds.events, rest.events, IsPerCommand);
      RenderedAppend(Visible(Place(lists[i].cmds, idxOffset)), Visible(PlacedFrom(lists, i + 1)), display);
    }
  }

  /** Lists `i..` bind the textures of their visible commands with repeats of the bound
      handle removed, carrying the bound handle across lists. */
  lemma {:induction false} ListsBinds(lists: seq<DrawList>, i: nat, vtxOffset: nat, idxOffset: nat,
                                      display: Size, bound: Handle)
    requires i <= |lists|
    requires idxOffset == IndexStride * Sum(IdxCounts(lists)[..i])
    ensures var e := ListsFrom(lists, i, vtxOffset, idxOffset, display, bound);
            var ts := VisibleTextures(PlacedFrom(lists, i));
            && Select(e.events, IsBindTexture) == Binds(Dedup(ts, bound))
            && e.bound == LastOr(ts, bound)
    decreases |lists| - i
  {
    if i < |lists| {
      var cmds := CmdsEvents(lists[i].cmds, idxOffset, display, bound);
      var rest := ListsFrom(lists, i + 1, vtxOffset + lists[i].vtxCount * VertexStride,
                            idxOffset + lists[i].idxCount * IndexStride, display, cmds.bound);
      ListsFromCons(lists, i, vtxOffset, idxOffset, display, bound);
      PlacedFromCons(lists, i, idxOffset);
      ListsBinds(lists, i + 1, vtxOffset + lists[i].vtxCount * VertexStride,
                 idxOffset + lists[i].idxCount * IndexStride, display, cmds.bound);
      CmdsBinds(lists[i].cmds, idxOffset, display, bound);
      SelectNone(ListHead(lists, i, vtxOffset, idxOffset), IsBindTexture);
      VisibleTexturesAppend(Place(lists[i].cmds, idxOffset), PlacedFrom(lists, i + 1));
      BindsJoin(ListHead(lists, i, vtxOffset, idxOffset), cmds.events, rest.events,
                VisibleTextures(Place(lists[i].cmds, idxOffset)), VisibleTextures(PlacedFrom(lists, i + 1)), bound);
    }
  }

  /** A list head that binds no texture, then a list's binds, then the binds of the lists
      after it carrying the handle the list left bound, bind the joined textures. */
  lemma BindsJoin(head: seq<Event>, here: seq<Event>, later: seq<Event>, ts: seq<Handle>, us: seq<Handle>, bound: Handle)
    requires Select(head, IsBindTexture) == []
    requires Select(here, IsBindTexture) == Binds(Dedup(ts, bound))
    requires Select(later, IsBindTexture) == Binds(Dedup(us, LastOr(ts, bound)))
    ensures Select(head + (here + later), IsBindTexture) == Binds(Dedup(ts + us, bound))
    ensures LastOr(ts + us, bound) == LastOr(us, LastOr(ts, bound))
  {
    SelectAppend(head, here + later, IsBindTexture);
    SelectAppend(here, later, IsBindTexture);
    DedupJoin(ts, us, bound);
  }

  predicate RendersGeometry(r: Backend.Renderer, dd: DrawData, vtxGrant: Grant, idxGrant: Grant) {
    Renders(r, dd) && !r.useTestShader && RenderDrawData(r, dd, vtxGrant, idxGrant).trace != []
  }

  /** The events of the per-list loop of a frame. */
  function Body(r: Backend.Renderer, dd: DrawData): seq<Event> {
    ListsFrom(dd.lists, 0, 0, 0, r.display, 0).events
  }

  lemma FrameShape(r: Backend.Renderer, dd: DrawData, vtxGrant: Grant, idxGrant: Grant)
    requires RendersGeometry(r, dd, vtxGrant, idxGrant)
    ensures RenderDrawData(r, dd, vtxGrant, idxGrant).trace == Preamble(r) + Body(r, dd) + Finish(r)
    ensures IdxCounts(dd.lists)[..0] == [] && VtxCounts(dd.lists)[..0] == []
  {
  }

  /** A kind of event that neither the preamble nor the finish of a frame issues is selected
      from the frame exactly as from its loop. */
  lemma SelectFrame(r: Backend.Renderer, body: seq<Event>, keep: Event -> bool)
    requires forall k :: 0 <= k < |Preamble(r)| ==> !keep(Preamble(r)[k])
    requires forall k :: 0 <= k < |Finish(r)| ==> !keep(Finish(r)[k])
    ensures Select(Preamble(r) + body + Finish(r), keep) == Select(body, keep)
  {
    SelectAppend(Preamble(r) + body, Finish(r), keep);
    SelectAppend(Preamble(r), body, keep);
    SelectNone(Preamble(r), keep);
    SelectNone(Finish(r), keep);
  }

  /** A rendered frame issues viewport, scissor and draw for exactly the commands with a
      non-degenerate clip, in list order then command order, each draw reading from its own
      index offset plus the index bytes of all earlier lists and using its own base vertex;
      a degenerate command contributes nothing. */
  lemma FrameDraws(r: Backend.Renderer, dd: DrawData, vtxGrant: Grant, idxGrant: Grant)
    requires RendersGeometry(r, dd, vtxGrant, idxGrant)
    ensures Select(RenderDrawData(r, dd, vtxGrant, idxGrant).trace, IsPerCommand)
            == Rendered(Visible(PlacedFrom(dd.lists, 0)), r.display)
  {
    FrameShape(r, dd, vtxGrant, idxGrant);
    SelectFrame(r, Body(r, dd), IsPerCommand);
    ListsRendered(dd.lists, 0, 0, 0, r.display, 0);
  }

  /** A rendered frame binds a texture exactly when a rendered command's handle differs from
      the one bound last, starting from handle 0 and carrying across lists. */
  lemma FrameTextureBinds(r: Backend.Renderer, dd: DrawData, vtxGrant: Grant, idxGrant: Grant)
    requires RendersGeometry(r, dd, vtxGrant, idxGrant)
    ensures Select(RenderDrawData(r, dd, vtxGrant, idxGrant).trace, IsBindTexture)
            == Binds(Dedup(VisibleTextures(PlacedFrom(dd.lists, 0)), 0))
  {
    FrameShape(r, dd, vtxGrant, idxGrant);
    SelectFrame(r, Body(r, dd), IsBindTexture);
    ListsBinds(dd.lists, 0, 0, 0, r.display, 0);
  }

  /** Two concrete frames: two visible commands on one texture bind it once and draw twice;
      a single degenerate command draws nothing, yet the frame still begins recording. */
  lemma SameTextureBindsOnce(r: Backend.Renderer, dd: DrawData, vtxGrant: Grant, idxGrant: Grant, t1: Handle)
    requires RendersGeometry(r, dd, vtxGrant, idxGrant)
    requires t1 != 0
    requires |dd.lists| == 1 && |dd.lists[0].cmds| == 2
    requires forall k :: 0 <= k < 2 ==> dd.lists[0].cmds[k].texture == t1 && !Degenerate(dd.lists[0].cmds[k].clip)
    ensures Select(RenderDrawData(r, dd, vtxGrant, idxGrant).trace, IsBindTexture) == [Issue(BindTexture(t1))]
    ensures |Select(RenderDrawData(r, dd, vtxGrant, idxGrant).trace, IsPerCommand)| == 6
  {
    FrameDraws(r, dd, vtxGrant, idxGrant);
    FrameTextureBinds(r, dd, vtxGrant, idxGrant);
    var cmds := dd.lists[0].cmds;
    var p0 := Placed(cmds[0], 0);
    var p1 := Placed(cmds[1], 0);
    assert IdxCounts(dd.lists)[..0] == [];
    assert PlacedFrom(dd.lists, 0) == Place(cmds, 0) + PlacedFrom(dd.lists, 1);
    assert Place(cmds[1..], 0) == [p1] + Place(cmds[1..][1..], 0);
    assert Place(cmds, 0) == [p0, p1];
    assert PlacedFrom(dd.lists, 0) == [p0, p1];
    assert Visible([p0, p1]) == [p0, p1] by {
      assert [p0, p1][1..] == [p1];
      assert Visible([p1]) == [p1] + Visible([p1][1..]);
    }
    assert VisibleTextures([p0, p1]) == [t1, t1];
    DedupCons(t1, [t1], 0);
    DedupCons(t1, [], t1);
    assert Rendered([p0, p1], r.display) == Rendered([p0, p1][..1], r.display) + Rendered([p1], r.display) by {
      RenderedAppend([p0], [p1], r.display);
      assert [p0, p1] == [p0] + [p1];
    }
    assert [p1][1..] == [];
  }

  lemma DegenerateDrawsNothing(r: Backend.Renderer, dd: DrawData, vtxGrant: Grant, idxGrant: Grant)
    requires RendersGeometry(r, dd, vtxGrant, idxGrant)
    requires |dd.lists| == 1 && |dd.lists[0].cmds| == 1 && Degenerate(dd.lists[0].cmds[0].clip)
    ensures Select(RenderDrawData(r, dd, vtxGrant, idxGrant).trace, IsPerCommand) == []
    ensures Select(RenderDrawData(r, dd, vtxGrant, idxGrant).trace, IsBindTexture) == []
    ensures RenderDrawData(r, dd, vtxGrant, idxGrant).trace[0] == Issue(BeginRecording(r.cmdBuf))
  {
    FrameDraws(r, dd, vtxGrant, idxGrant);
    FrameTextureBinds(r, dd, vtxGrant, idxGrant);
    var cmds := dd.lists[0].cmds;
    assert IdxCounts(dd.lists)[..0] == [];
    assert PlacedFrom(dd.lists, 0) == Place(cmds, 0) + PlacedFrom(dd.lists, 1);
    assert Place(cmds, 0) == [Placed(cmds[0], 0)] + Place(cmds[1..], 0);
    assert Visible([Placed(cmds[0], 0)]) == [] + Visible([Placed(cmds[0], 0)][1..]);
    FrameShape(r, dd, vtxGrant, idxGrant);
  }

  // ----- offsets and capacity -----------------------------------------------------------

  /** Byte offset of list `k`'s vertices: the vertex bytes of all earlier lists. */
  function VtxBase(lists: seq<DrawList>, k: nat): nat
    requires k <= |lists|
  {
    VertexStride * Sum(VtxCounts(lists)[..k])
  }

  /** Byte offset of list `k`'s indices: the index bytes of all earlier lists. */
  function IdxBase(lists: seq<DrawList>, k: nat): nat
    requires k <= |lists|
  {
    IndexStride * Sum(IdxCounts(lists)[..k])
  }

  /** Vertex-slice binds and buffer copies. */
  predicate IsSliceEvent(e: Event) {
    IsVertexBind(e) || IsCopy(e)
  }

  /** Reference layout of lists `i..`: each list binds and copies its vertices at its own
      vertex base and copies its indices at its own index base, sized by its own counts. */
  function Slices(lists: seq<DrawList>, i: nat): seq<Event>
    requires i <= |lists|
    decreases |lists| - i
  {
    if i == |lists| then []
    else ListHead(lists, i, VtxBase(lists, i), IdxBase(lists, i)) + Slices(lists, i + 1)
  }

  lemma BasesStep(lists: seq<DrawList>, i: nat)
    requires i < |lists|
    ensures VtxBase(lists, i + 1) == VtxBase(lists, i) + lists[i].vtxCount * VertexStride
    ensures IdxBase(lists, i + 1) == IdxBase(lists, i) + lists[i].idxCount * IndexStride
  {
    SumStep(VtxCounts(lists), i);
    SumStep(IdxCounts(lists), i);
  }

  lemma SlicesCons(lists: seq<DrawList>, i: nat, vtxOffset: nat, idxOffset: nat, display: Size, bound: Handle)
    requires i < |lists|
    ensures var cmds := CmdsEvents(lists[i].cmds, idxOffset, display, bound);
            var rest := ListsFrom(lists, i + 1, vtxOffset + lists[i].vtxCount * VertexStride,
                                  idxOffset + lists[i].idxCount * IndexStride, display, cmds.bound);
            Select(ListsFrom(lists, i, vtxOffset, idxOffset, display, bound).events, IsSliceEvent)
            == ListHead(lists, i, vtxOffset, idxOffset) + Select(rest.events, IsSliceEvent)
  {
    var cmds := CmdsEvents(lists[i].cmds, idxOffset, display, bound);
    var rest := ListsFrom(lists, i + 1, vtxOffset + lists[i].vtxCount * VertexStride,
                          idxOffset + lists[i].idxCount * IndexStride, display, cmds.bound);
    var head := ListHead(lists, i, vtxOffset, idxOffset);
    ListsFromCons(lists, i, vtxOffset, idxOffset, display, bound);
    SelectAppend(head, cmds.events + rest.events, IsSliceEvent);
    SelectAppend(cmds.events, rest.events, IsSliceEvent);
    SelectNone(cmds.events, IsSliceEvent);
    SelectAll(head, IsSliceEvent);
  }

  /** Lists `i..`, started at their own bases, bind and copy exactly the reference layout. */
  lemma {:induction false} ListsSlices(lists: seq<DrawList>, i: nat, display: Size, bound: Handle)
    requires i <= |lists|
    ensures Select(ListsFrom(lists, i, VtxBase(lists, i), IdxBase(lists, i), display, bound).events, IsSliceEvent)
            == Slices(lists, i)
    decreases |lists| - i
  {
    if i < |lists| {
      var cmds := CmdsEvents(lists[i].cmds, IdxBase(lists, i), display, bound);
      BasesStep(lists, i);
      SlicesCons(lists, i, VtxBase(lists, i), IdxBase(lists, i), display, bound);
      ListsSlices(lists, i + 1, display, cmds.bound);
      assert Slices(lists, i) == ListHead(lists, i, VtxBase(lists, i), IdxBase(lists, i)) + Slices(lists, i + 1);
    }
  }

  /** A rendered frame binds and copies each list's geometry at the byte sizes of all
      earlier lists, one vertex bind, one vertex copy and one index copy per list, in order. */
  lemma FrameSlices(r: Backend.Renderer, dd: DrawData, vtxGrant: Grant, idxGrant: Grant)
    requires RendersGeometry(r, dd, vtxGrant, idxGrant)
    ensures Select(RenderDrawData(r, dd, vtxGrant, idxGrant).trace, IsSliceEvent) == Slices(dd.lists, 0)
  {
    FrameShape(r, dd, vtxGrant, idxGrant);
    SelectFrame(r, Body(r, dd), IsSliceEvent);
    ListsSlices(dd.lists, 0, r.display, 0);
  }

  /** Copy `k` of the reference layout lies within the bytes of all lists. */
  lemma {:induction false} SlicesFit(lists: seq<DrawList>, i: nat)
    requires i <= |lists|
    ensures var s := Slices(lists, i);
            forall k :: 0 <= k < |s| ==>
              && (s[k].CopyVertices? ==> s[k].offset + s[k].size <= VtxBase(lists, |lists|))
              && (s[k].CopyIndices? ==> s[k].offset + s[k].size <= IdxBase(lists, |lists|))
    decreases |lists| - i
  {
    if i < |lists| {
      SlicesFit(lists, i + 1);
      BasesStep(lists, i);
      SumPrefixMonotone(VtxCounts(lists), i + 1, |lists|);
      SumPrefixMonotone(IdxCounts(lists), i + 1, |lists|);
      var head := ListHead(lists, i, VtxBase(lists, i), IdxBase(lists, i));
      var s := Slices(lists, i);
      assert s == head + Slices(lists, i + 1);
      forall k | 0 <= k < |s|
        ensures s[k].CopyVertices? ==> s[k].offset + s[k].size <= VtxBase(lists, |lists|)
        ensures s[k].CopyIndices? ==> s[k].offset + s[k].size <= IdxBase(lists, |lists|)
      {
        if k >= |head| {
          assert s[k] == Slices(lists, i + 1)[k - |head|];
        }
      }
    }
  }

  lemma {:induction false} SelectKeeps(t: seq<Event>, keep: Event -> bool, k: nat)
    requires k < |t| && keep(t[k])
    ensures t[k] in Select(t, keep)
    decreases |t|
  {
    if k > 0 {
      SelectKeeps(t[1..], keep, k - 1);
    }
  }

  /** When the draw data's totals equal the per-list sums, every copy of a rendered frame
      stays within the buffer it writes to. */
  lemma FrameCopiesFit(r: Backend.Renderer, dd: DrawData, vtxGrant: Grant, idxGrant: Grant)
    requires RendersGeometry(r, dd, vtxGrant, idxGrant)
    requires dd.totalVtxCount == Sum(VtxCounts(dd.lists)) && dd.totalIdxCount == Sum(IdxCounts(dd.lists))
    ensures var f := RenderDrawData(r, dd, vtxGrant, idxGrant);
            forall k :: 0 <= k < |f.trace| ==>
              && (f.trace[k].CopyVertices? ==> f.trace[k].offset + f.trace[k].size <= f.renderer.vtx.value.size)
              && (f.trace[k].CopyIndices? ==> f.trace[k].offset + f.trace[k].size <= f.renderer.idx.value.size)
  {
    var f := RenderDrawData(r, dd, vtxGrant, idxGrant);
    FrameSlices(r, dd, vtxGrant, idxGrant);
    SlicesFit(dd.lists, 0);
    assert VtxCounts(dd.lists)[..|dd.lists|] == VtxCounts(dd.lists);
    assert IdxCounts(dd.lists)[..|dd.lists|] == IdxCounts(dd.lists);
    var s := Slices(dd.lists, 0);
    forall k | 0 <= k < |f.trace| && IsCopy(f.trace[k])
      ensures f.trace[k].CopyVertices? ==> f.trace[k].offset + f.trace[k].size <= f.renderer.vtx.value.size
      ensures f.trace[k].CopyIndices? ==> f.trace[k].offset + f.trace[k].size <= f.renderer.idx.value.size
    {
      SelectKeeps(f.trace, IsSliceEvent, k);
      var j :| 0 <= j < |s| && s[j] == f.trace[k];
    }
  }

  // ----- recording ----------------------------------------------------------------------

  /** A rendered frame begins recording first, ends and submits last, and nowhere else. */
  lemma FrameRecordsOnce(r: Backend.Renderer, dd: DrawData, vtxGrant: Grant, idxGrant: Grant)
    requires RendersGeometry(r, dd, vtxGrant, idxGrant)
    ensures var t := RenderDrawData(r, dd, vtxGrant, idxGrant).trace;
            && t[0] == Issue(BeginRecording(r.cmdBuf))
            && t[|t| - 2] == Issue(EndRecording(r.cmdBuf))
            && t[|t| - 1] == Issue(SubmitCommands(r.queue, r.cmdBuf))
            && forall k :: 0 <= k < |t| ==> (IsRecordingControl(t[k]) <==> k == 0 || k >= |t| - 2)
  {
    var t := RenderDrawData(r, dd, vtxGrant, idxGrant).trace;
    var body := ListsFrom(dd.lists, 0, 0, 0, r.display, 0).events;
    var pre := Preamble(r);
    assert t == pre + body + Finish(r);
    forall k | 0 <= k < |t|
      ensures IsRecordingControl(t[k]) <==> k == 0 || k >= |t| - 2
    {
      if k < |pre| {
        assert t[k] == pre[k];
      } else if k < |pre| + |body| {
        assert t[k] == body[k - |pre|];
        assert IsListEvent(body[k - |pre|]);
      } else {
        assert t[k] == Finish(r)[k - |pre| - |body|];
      }
    }
  }

  /** The plain events of the debug quad between begin and end. */
  function QuadBody(r: Backend.Renderer, size: nat): seq<Event> {
    [Issue(BindProgram), Issue(BindUniformBuffer), Issue(UpdateProjection(r.projection)),
     Issue(BindVertexBuffer(0, size))] + RenderStates(r) + [Issue(DrawArrays(0, 6))]
  }

  lemma TestShaderShape(r: Backend.Renderer, vtxGrant: Grant)
    requires RenderTestShader(r, vtxGrant).trace != []
    ensures var f := RenderTestShader(r, vtxGrant);
            var quad := QuadVertices(QuadOrigin(r.display.width), QuadOrigin(r.display.height), 3, 3, White);
            f.trace == [WriteVertices(0, quad)] + Bracket(r.cmdBuf, r.queue, QuadBody(r, f.renderer.vtx.value.size))
  {
  }

  /** The debug path writes at the start of the vertex buffer what `createQuad` leaves in the
      first six slots, whatever the buffer held before. */
  lemma TestShaderWritesCreatedQuad(r: Backend.Renderer, vtxGrant: Grant, mem: seq<Vert>)
    requires RenderTestShader(r, vtxGrant).trace != [] && 6 <= |mem|
    ensures var t := RenderTestShader(r, vtxGrant).trace;
            var created := CreateQuad(mem, 0, QuadOrigin(r.display.width), QuadOrigin(r.display.height), 3, 3, White);
            && t[0] == WriteVertices(0, created[..6])
            && created[6..] == mem[6..]
  {
    TestShaderShape(r, vtxGrant);
  }

  lemma GeometryShape(r: Backend.Renderer, dd: DrawData, vtxGrant: Grant, idxGrant: Grant)
    requires RendersGeometry(r, dd, vtxGrant, idxGrant)
    ensures RenderDrawData(r, dd, vtxGrant, idxGrant).trace == Bracket(r.cmdBuf, r.queue, Preamble(r)[1..] + Body(r, dd))
    ensures forall k :: 0 <= k < |Preamble(r)[1..] + Body(r, dd)| ==> Plain((Preamble(r)[1..] + Body(r, dd))[k], r.cmdBuf)
  {
    FrameShape(r, dd, vtxGrant, idxGrant);
    var pre := Preamble(r)[1..];
    var mid := pre + Body(r, dd);
    assert Preamble(r) == [Preamble(r)[0]] + pre;
    forall k | 0 <= k < |mid|
      ensures Plain(mid[k], r.cmdBuf)
    {
      if k >= |pre| {
        assert mid[k] == Body(r, dd)[k - |pre|];
        assert IsListEvent(Body(r, dd)[k - |pre|]);
      }
    }
  }

  /** Every frame, on every path, leaves the overlay's command buffer closed if it found it
      closed, never misuses it on the way, and leaves every other command buffer alone. */
  lemma FrameProtocol(r: Backend.Renderer, dd: DrawData, vtxGrant: Grant, idxGrant: Grant, cb: Handle, open: bool)
    ensures var t := RenderDrawData(r, dd, vtxGrant, idxGrant).trace;
            && Run(t, r.cmdBuf, false) == Some(false)
            && (cb != r.cmdBuf ==> Run(t, cb, open) == Some(open))
  {
    var f := RenderDrawData(r, dd, vtxGrant, idxGrant);
    if f.trace != [] {
      if r.useTestShader {
        assert f == RenderTestShader(r, vtxGrant);
        TestShaderShape(r, vtxGrant);
        var qb := QuadBody(r, f.renderer.vtx.value.size);
        assert forall k :: 0 <= k < |qb| ==> Plain(qb[k], r.cmdBuf);
        var w := f.trace[0];
        var rest := Bracket(r.cmdBuf, r.queue, QuadBody(r, f.renderer.vtx.value.size));
        BracketRun(r.cmdBuf, r.queue, QuadBody(r, f.renderer.vtx.value.size), cb, open);
        assert f.trace == [w] + rest;
        assert ([w] + rest)[1..] == rest;
      } else {
        GeometryShape(r, dd, vtxGrant, idxGrant);
        BracketRun(r.cmdBuf, r.queue, Preamble(r)[1..] + Body(r, dd), cb, open);
      }
    }
  }
}
