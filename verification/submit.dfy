/** `renderDrawData`: turns the frame's draw lists into one recorded and submitted command
    stream on the overlay's command buffer. */
module Submit {
  import opened Base
  import opened Geometry
  import opened DrawLists
  import opened Driver
  import Backend

  /** The renderer after a frame and the events the frame produced. */
  datatype Frame = Frame(renderer: Backend.Renderer, trace: seq<Event>)

  /** The scissor box of a clip rectangle: origin and extent. */
  function Scissor(c: Rect): Call {
    SetScissor(c.minX, c.minY, c.maxX - c.minX, c.maxY - c.minY)
  }

  /** The viewport every rendered command sets: the whole display. */
  function Viewport(display: Size): Call {
    SetViewport(0, 0, display.width, display.height)
  }

  /** The indexed, base-vertex draw of a command whose list's indices start at `idxBase`. */
  function Draw(c: DrawCmd, idxBase: nat): Call {
    DrawElements(c.elemCount, idxBase + c.idxOffset * IndexStride, c.vtxOffset)
  }

  /** The kinds of event a draw command can issue. */
  predicate IsCommandEvent(e: Event) {
    e.Issue? && (e.call.SetViewport? || e.call.SetScissor? || e.call.BindTexture? || e.call.DrawElements?)
  }

  /** The kinds of event the per-list loop can issue. */
  predicate IsListEvent(e: Event) {
    IsCommandEvent(e) || e.CopyVertices? || e.CopyIndices? || (e.Issue? && e.call.BindVertexBuffer?)
  }

  /** Events of part of the loop and the texture handle bound after it. */
  datatype Emit = Emit(events: seq<Event>, bound: Handle)

  /** One draw command: skipped when its clip is degenerate, otherwise viewport, scissor, a
      texture bind only if the handle differs from the bound one, and the draw. */
  function CmdEvents(c: DrawCmd, idxBase: nat, display: Size, bound: Handle): (e: Emit)
    ensures Degenerate(c.clip) <==> |e.events| == 0
    ensures e.bound == if Degenerate(c.clip) then bound else c.texture
    ensures forall k :: 0 <= k < |e.events| ==> IsCommandEvent(e.events[k])
  {
    if Degenerate(c.clip) then Emit([], bound)
    else
      var bind := if bound != c.texture then [Issue(BindTexture(c.texture))] else [];
      Emit([Issue(Viewport(display)), Issue(Scissor(c.clip))] + bind + [Issue(Draw(c, idxBase))], c.texture)
  }

  /** The commands of one list, in order, threading the bound texture through. */
  function CmdsEvents(cmds: seq<DrawCmd>, idxBase: nat, display: Size, bound: Handle): (e: Emit)
    ensures forall k :: 0 <= k < |e.events| ==> IsCommandEvent(e.events[k])
    decreases |cmds|
  {
    if |cmds| == 0 then Emit([], bound)
    else
      var head := CmdEvents(cmds[0], idxBase, display, bound);
      var tail := CmdsEvents(cmds[1..], idxBase, display, head.bound);
      Emit(head.events + tail.events, tail.bound)
  }

  /** Lists `i..`: bind the vertex slice at the running vertex offset, copy the list's
      vertices and indices at the running offsets, run its commands, then advance both
      offsets by the list's byte sizes. */
  function ListsFrom(lists: seq<DrawList>, i: nat, vtxOffset: nat, idxOffset: nat, display: Size,
                     bound: Handle): (e: Emit)
    requires i <= |lists|
    ensures forall k :: 0 <= k < |e.events| ==> IsListEvent(e.events[k])
    decreases |lists| - i
  {
    if i == |lists| then Emit([], bound)
    else
      var vtxSize := lists[i].vtxCount * VertexStride;
      var idxSize := lists[i].idxCount * IndexStride;
      var cmds := CmdsEvents(lists[i].cmds, idxOffset, display, bound);
      var rest := ListsFrom(lists, i + 1, vtxOffset + vtxSize, idxOffset + idxSize, display, cmds.bound);
      Emit([Issue(BindVertexBuffer(vtxOffset, vtxSize)), CopyVertices(vtxOffset, vtxSize),
            CopyIndices(idxOffset, idxSize)] + cmds.events + rest.events, rest.bound)
  }

  /** `setRenderStates`: fixed pipeline state, then the overlay's own descriptor pools. */
  function RenderStates(r: Backend.Renderer): seq<Event> {
    [Issue(BindPolygonState), Issue(BindColorState), Issue(BindBlendState),
     Issue(BindVertexAttribState), Issue(BindVertexStreamState),
     Issue(SetTexturePool(r.cmdBuf, r.texturePool)), Issue(SetSamplerPool(r.cmdBuf, r.samplerPool))]
  }

  /** Begin recording, bind the shader and the uniform block, upload the projection for the
      current display size, bind the render states. */
  function Preamble(r: Backend.Renderer): seq<Event> {
    [Issue(BeginRecording(r.cmdBuf)), Issue(BindProgram), Issue(BindUniformBuffer),
     Issue(UpdateProjection(r.display))] + RenderStates(r)
  }

  /** End recording and submit the one resulting command handle to the overlay's queue. */
  function Finish(r: Backend.Renderer): seq<Event> {
    [Issue(EndRecording(r.cmdBuf)), Issue(SubmitCommands(r.queue, r.cmdBuf))]
  }

  /** Bytes of vertex data the debug quad needs: six vertices. */
  const QuadBytes: nat := 6 * VertexStride

  /** `renderTestShader`: the debug path draws one 3x3 quad whose far corner sits at the
      display centre, using only the vertex buffer and the projection last computed. */
  function RenderTestShader(r: Backend.Renderer, vtxGrant: Grant): (f: Frame)
    ensures f.renderer == r.(vtx := f.renderer.vtx)
    ensures f.renderer.vtx.Some? && QuadBytes <= f.renderer.vtx.value.size
    ensures r.vtx.Some? ==> r.vtx.value.size <= f.renderer.vtx.value.size
    ensures f.trace != [] <==> f.renderer.vtx.value.ready
    ensures forall k :: 0 <= k < |f.trace| ==> !f.trace[k].RunCallback?
  {
    var vtx := EnsureCapacity(r.vtx, QuadBytes, vtxGrant);
    var r' := r.(vtx := Some(vtx));
    if !vtx.ready then Frame(r', [])
    else
      var quad := QuadVertices(QuadOrigin(r.display.width), QuadOrigin(r.display.height), 3, 3, White);
      Frame(r', [WriteVertices(0, quad), Issue(BeginRecording(r.cmdBuf)), Issue(BindProgram),
                 Issue(BindUniformBuffer), Issue(UpdateProjection(r.projection)),
                 Issue(BindVertexBuffer(0, vtx.size))] + RenderStates(r)
                + [Issue(DrawArrays(0, 6))] + Finish(r))
  }

  /** Whether `renderDrawData` gets past its early exits on draw data and readiness. */
  predicate Renders(r: Backend.Renderer, dd: DrawData) {
    dd.valid && |dd.lists| > 0 && r.isInitialized
  }

  /** `renderDrawData`. */
  function RenderDrawData(r: Backend.Renderer, dd: DrawData, vtxGrant: Grant, idxGrant: Grant): (f: Frame)
    ensures !Renders(r, dd) ==> f == Frame(r, [])
    ensures f.renderer == r.(vtx := f.renderer.vtx, idx := f.renderer.idx, projection := f.renderer.projection)
    ensures Renders(r, dd) && !r.useTestShader ==>
              && f.renderer.vtx.Some? && f.renderer.idx.Some?
              && dd.totalVtxCount * VertexStride <= f.renderer.vtx.value.size
              && dd.totalIdxCount * IndexStride <= f.renderer.idx.value.size
              && (r.vtx.Some? ==> r.vtx.value.size <= f.renderer.vtx.value.size)
              && (r.idx.Some? ==> r.idx.value.size <= f.renderer.idx.value.size)
              && (f.trace != [] <==> f.renderer.vtx.value.ready && f.renderer.idx.value.ready)
              && (f.trace != [] ==> f.renderer.projection == r.display
                                    && |Preamble(r)| + 2 <= |f.trace|
                                    && Preamble(r) <= f.trace
                                    && f.trace[|f.trace| - 2..] == Finish(r))
  {
    if !dd.valid then Frame(r, [])
    else if |dd.lists| == 0 then Frame(r, [])
    else if !r.isInitialized then Frame(r, [])
    else if r.useTestShader then RenderTestShader(r, vtxGrant)
    else
      var vtx := EnsureCapacity(r.vtx, dd.totalVtxCount * VertexStride, vtxGrant);
      var idx := EnsureCapacity(r.idx, dd.totalIdxCount * IndexStride, idxGrant);
      var sized := r.(vtx := Some(vtx), idx := Some(idx));
      if !(vtx.ready && idx.ready) then Frame(sized, [])
      else
        var r' := sized.(projection := r.display);
        var body := ListsFrom(dd.lists, 0, 0, 0, r.display, 0);
        Frame(r', Preamble(r) + body.events + Finish(r))
  }
}
