/** Driver calls as trace events, the recording protocol of a command buffer, and the trace
    projections the properties of the overlay are stated with. */
module Driver {
  import opened Base
  import Intercept
  import Registry
  import Geometry

  /** One call into the graphics driver. Fixed arguments (shader stages, primitive and index
      types, the render-state settings) are left implicit in the constructor. */
  datatype Call =
    | BeginRecording(cb: Handle)
    | EndRecording(cb: Handle)
    | SubmitCommands(queue: Handle, cb: Handle)
    | SetTexturePool(cb: Handle, pool: Handle)
    | SetSamplerPool(cb: Handle, pool: Handle)
    | PresentTexture(queue: Handle, window: Handle, texIndex: int)
    | SetCrop(window: Handle, x: int, y: int, w: int, h: int)
    | DeviceInitialize(device: Handle)
    | QueueInitialize(queue: Handle)
    | CommandBufferInitialize(buffer: Handle, device: Handle)
    | BindProgram
    | BindUniformBuffer
    | UpdateProjection(display: Size)     // the orthographic transform for (0,0)-(width,height)
    | BindPolygonState                    // fill, no culling, counter-clockwise front face
    | BindColorState                      // logic-op copy, blending enabled on all targets
    | BindBlendState                      // source-alpha over one-minus-source-alpha
    | BindVertexAttribState
    | BindVertexStreamState
    | BindVertexBuffer(offset: nat, size: nat)
    | SetViewport(x: int, y: int, w: int, h: int)
    | SetScissor(x: int, y: int, w: int, h: int)
    | BindTexture(texture: Handle)
    | DrawElements(count: nat, indexOffset: nat, baseVertex: nat)
    | DrawArrays(first: nat, count: nat)

  /** One observable step of the overlay. */
  datatype Event =
    | Issue(call: Call)                                   // through the overlay's own entry points
    | Forward(target: Intercept.Ptr, call: Call)          // into an original cached by the interceptor
    | CopyVertices(offset: nat, size: nat)                // host-to-GPU copy into the vertex buffer
    | CopyIndices(offset: nat, size: nat)                 // host-to-GPU copy into the index buffer
    | WriteVertices(offset: nat, verts: seq<Geometry.Vert>)
    | RunCallback(f: Registry.Callback)

  function CallOf(e: Event): Option<Call> {
    match e
    case Issue(c) => Some(c)
    case Forward(_, c) => Some(c)
    case _ => None
  }

  // ----- recording protocol -------------------------------------------------------------

  /** The effect of one event on the recording state of command buffer `cb`: beginning needs
      it closed, ending and pool binding need it open, submitting needs it closed. `None`
      marks a protocol violation. */
  function Protocol(e: Event, cb: Handle, open: bool): Option<bool> {
    match CallOf(e)
    case None => Some(open)
    case Some(c) =>
      match c
      case BeginRecording(b) => if b != cb then Some(open) else if open then None else Some(true)
      case EndRecording(b) => if b != cb then Some(open) else if open then Some(false) else None
      case SubmitCommands(_, b) => if b == cb && open then None else Some(open)
      case SetTexturePool(b, _) => if b == cb && !open then None else Some(open)
      case SetSamplerPool(b, _) => if b == cb && !open then None else Some(open)
      case _ => Some(open)
  }

  /** Runs a trace through the protocol for `cb`; `Some(s)` is the final state. */
  function Run(t: seq<Event>, cb: Handle, open: bool): Option<bool>
    decreases |t|
  {
    if |t| == 0 then Some(open)
    else match Protocol(t[0], cb, open)
      case None => None
      case Some(s) => Run(t[1..], cb, s)
  }

  function Then(r: Option<bool>, t: seq<Event>, cb: Handle): Option<bool> {
    match r
    case None => None
    case Some(s) => Run(t, cb, s)
  }

  lemma {:induction false} RunAppend(a: seq<Event>, b: seq<Event>, cb: Handle, open: bool)
    ensures Run(a + b, cb, open) == Then(Run(a, cb, open), b, cb)
    decreases |a|
  {
    if |a| == 0 {
      assert a + b == b;
    } else {
      assert (a + b)[0] == a[0];
      assert (a + b)[1..] == a[1..] + b;
      match Protocol(a[0], cb, open)
      case None =>
      case Some(s) => RunAppend(a[1..], b, cb, s);
    }
  }

  /** An event that neither opens, closes, submits nor binds pools on `cb`. */
  predicate Neutral(e: Event, cb: Handle) {
    Protocol(e, cb, true) == Some(true) && Protocol(e, cb, false) == Some(false)
  }

  /** A trace none of whose events changes or violates state `s` of `cb` ends in `s`. */
  lemma {:induction false} RunStable(t: seq<Event>, cb: Handle, s: bool)
    requires forall i :: 0 <= i < |t| ==> Protocol(t[i], cb, s) == Some(s)
    ensures Run(t, cb, s) == Some(s)
    decreases |t|
  {
    if |t| > 0 {
      assert Protocol(t[0], cb, s) == Some(s);
      RunStable(t[1..], cb, s);
    }
  }

  /** Begin, end or submit on any command buffer. */
  predicate IsRecordingControl(e: Event) {
    match CallOf(e)
    case Some(c) => c.BeginRecording? || c.EndRecording? || c.SubmitCommands?
    case None => false
  }

  /** An event that does not begin, end or submit, and binds pools only on `cb`. */
  predicate Plain(e: Event, cb: Handle) {
    match CallOf(e)
    case None => true
    case Some(c) =>
      && !c.BeginRecording? && !c.EndRecording? && !c.SubmitCommands?
      && (c.SetTexturePool? ==> c.cb == cb)
      && (c.SetSamplerPool? ==> c.cb == cb)
  }

  lemma PlainProtocol(e: Event, cb: Handle, other: Handle, s: bool)
    requires Plain(e, cb)
    ensures Protocol(e, cb, true) == Some(true)
    ensures other != cb ==> Protocol(e, other, s) == Some(s)
  {
  }

  /** Recording `mid` between begin on one side and end and submit on the other. */
  function Bracket(cb: Handle, q: Handle, mid: seq<Event>): seq<Event> {
    [Issue(BeginRecording(cb))] + mid + [Issue(EndRecording(cb)), Issue(SubmitCommands(q, cb))]
  }

  /** A bracketed run of plain events closes `cb` again without a violation and leaves every
      other command buffer as it was. */
  lemma BracketRun(cb: Handle, q: Handle, mid: seq<Event>, other: Handle, s: bool)
    requires forall k :: 0 <= k < |mid| ==> Plain(mid[k], cb)
    ensures Run(Bracket(cb, q, mid), cb, false) == Some(false)
    ensures other != cb ==> Run(Bracket(cb, q, mid), other, s) == Some(s)
  {
    var b := [Issue(BeginRecording(cb))];
    var fin := [Issue(EndRecording(cb)), Issue(SubmitCommands(q, cb))];
    RunAppend(b + mid, fin, cb, false);
    RunAppend(b, mid, cb, false);
    assert Bracket(cb, q, mid) == b + mid + fin;
    assert Run(b, cb, false) == Some(true) by {
      assert b[1..] == [];
    }
    assert Run(fin, cb, true) == Some(false) by {
      assert fin[1..][1..] == [];
      assert Run(fin[1..], cb, false) == Some(false);
    }
    forall k | 0 <= k < |mid|
      ensures Protocol(mid[k], cb, true) == Some(true)
    {
      PlainProtocol(mid[k], cb, other, s);
    }
    RunStable(mid, cb, true);
    if other != cb {
      var t := Bracket(cb, q, mid);
      forall k | 0 <= k < |t|
        ensures Protocol(t[k], other, s) == Some(s)
      {
        if 1 <= k < |t| - 2 {
          assert t[k] == mid[k - 1];
          PlainProtocol(mid[k - 1], cb, other, s);
        }
      }
      RunStable(t, other, s);
    }
  }

  // ----- pool bindings ------------------------------------------------------------------

  /** The texture pool most recently bound on `cb` within the trace, if any. */
  function LastTexturePool(t: seq<Event>, cb: Handle): Option<Handle>
    decreases |t|
  {
    if |t| == 0 then None
    else match CallOf(t[|t| - 1])
      case Some(SetTexturePool(b, p)) => if b == cb then Some(p) else LastTexturePool(t[..|t| - 1], cb)
      case _ => LastTexturePool(t[..|t| - 1], cb)
  }

  /** The sampler pool most recently bound on `cb` within the trace, if any. */
  function LastSamplerPool(t: seq<Event>, cb: Handle): Option<Handle>
    decreases |t|
  {
    if |t| == 0 then None
    else match CallOf(t[|t| - 1])
      case Some(SetSamplerPool(b, p)) => if b == cb then Some(p) else LastSamplerPool(t[..|t| - 1], cb)
      case _ => LastSamplerPool(t[..|t| - 1], cb)
  }

  function OrElse(a: Option<Handle>, b: Option<Handle>): Option<Handle> {
    if a.Some? then a else b
  }

  /** What a trace ends with decides the last binding: earlier events matter only when the
      later part binds nothing. */
  lemma {:induction false} LastPoolAppend(a: seq<Event>, b: seq<Event>, cb: Handle)
    ensures LastTexturePool(a + b, cb) == OrElse(LastTexturePool(b, cb), LastTexturePool(a, cb))
    ensures LastSamplerPool(a + b, cb) == OrElse(LastSamplerPool(b, cb), LastSamplerPool(a, cb))
    decreases |b|
  {
    if |b| == 0 {
      assert a + b == a;
    } else {
      var ab := a + b;
      assert ab[|ab| - 1] == b[|b| - 1];
      assert ab[..|ab| - 1] == a + b[..|b| - 1];
      LastPoolAppend(a, b[..|b| - 1], cb);
    }
  }

  // ----- projections --------------------------------------------------------------------

  /** The events of `t` that satisfy `keep`, in order. */
  function Select(t: seq<Event>, keep: Event -> bool): (s: seq<Event>)
    decreases |t|
  {
    if |t| == 0 then []
    else (if keep(t[0]) then [t[0]] else []) + Select(t[1..], keep)
  }

  lemma {:induction false} SelectAppend(a: seq<Event>, b: seq<Event>, keep: Event -> bool)
    ensures Select(a + b, keep) == Select(a, keep) + Select(b, keep)
    decreases |a|
  {
    if |a| == 0 {
      assert a + b == b;
    } else {
      assert (a + b)[0] == a[0];
      assert (a + b)[1..] == a[1..] + b;
      SelectAppend(a[1..], b, keep);
    }
  }

  lemma SelectSingle(e: Event, keep: Event -> bool)
    ensures Select([e], keep) == if keep(e) then [e] else []
  {
    assert [e][1..] == [];
  }

  lemma {:induction false} SelectNone(t: seq<Event>, keep: Event -> bool)
    requires forall i :: 0 <= i < |t| ==> !keep(t[i])
    ensures Select(t, keep) == []
    decreases |t|
  {
    if |t| > 0 {
      SelectNone(t[1..], keep);
    }
  }

  lemma {:induction false} SelectAll(t: seq<Event>, keep: Event -> bool)
    requires forall k :: 0 <= k < |t| ==> keep(t[k])
    ensures Select(t, keep) == t
    decreases |t|
  {
    if |t| > 0 {
      SelectAll(t[1..], keep);
    }
  }

  predicate IsBindTexture(e: Event) { e.Issue? && e.call.BindTexture? }

  /** Viewport, scissor and draw calls: what each rendered draw command issues besides its
      texture bind. */
  predicate IsPerCommand(e: Event) {
    e.Issue? && (e.call.SetViewport? || e.call.SetScissor? || e.call.DrawElements?)
  }

  predicate IsDraw(e: Event) { e.Issue? && e.call.DrawElements? }

  predicate IsCopy(e: Event) { e.CopyVertices? || e.CopyIndices? }

  predicate IsVertexBind(e: Event) { e.Issue? && e.call.BindVertexBuffer? }

  predicate IsCallback(e: Event) { e.RunCallback? }

  // ----- binding state at each draw -----------------------------------------------------

  /** A bound vertex slice: byte offset into the vertex buffer and byte size. */
  datatype Slice = Slice(offset: nat, size: nat)

  /** The texture and vertex slice in force on the overlay's command buffer. No vertex slice
      is bound at the start of a recording; the texture starts at handle 0, the handle the
      renderer takes as bound before its first bind. */
  datatype Binding = Binding(texture: Handle, vertices: Option<Slice>)

  /** An indexed draw together with the binding it runs under. */
  datatype DrawContext = DrawContext(draw: Call, binding: Binding)

  /** The binding after one event: a texture bind or a vertex-buffer bind replaces its part. */
  function Rebind(b: Binding, e: Event): (b': Binding)
    ensures IsBindTexture(e) ==> b' == b.(texture := e.call.texture)
    ensures IsVertexBind(e) ==> b' == b.(vertices := Some(Slice(e.call.offset, e.call.size)))
    ensures !IsBindTexture(e) && !IsVertexBind(e) ==> b' == b
  {
    if IsBindTexture(e) then b.(texture := e.call.texture)
    else if IsVertexBind(e) then b.(vertices := Some(Slice(e.call.offset, e.call.size)))
    else b
  }

  /** The binding after all of `t`, starting from `b`. */
  function After(t: seq<Event>, b: Binding): Binding
    decreases |t|
  {
    if |t| == 0 then b else After(t[1..], Rebind(b, t[0]))
  }

  /** Each indexed draw of `t`, in order, with the binding in force when it is issued. */
  function AtDraws(t: seq<Event>, b: Binding): seq<DrawContext>
    decreases |t|
  {
    if |t| == 0 then []
    else (if IsDraw(t[0]) then [DrawContext(t[0].call, b)] else []) + AtDraws(t[1..], Rebind(b, t[0]))
  }

  lemma AtDrawsCons(e: Event, t: seq<Event>, b: Binding)
    ensures AtDraws([e] + t, b) == (if IsDraw(e) then [DrawContext(e.call, b)] else []) + AtDraws(t, Rebind(b, e))
    ensures After([e] + t, b) == After(t, Rebind(b, e))
  {
    assert ([e] + t)[0] == e;
    assert ([e] + t)[1..] == t;
  }

  /** The draws of two traces run one after the other: the second starts from the binding
      the first leaves. */
  lemma {:induction false} AtDrawsAppend(a: seq<Event>, c: seq<Event>, b: Binding)
    ensures AtDraws(a + c, b) == AtDraws(a, b) + AtDraws(c, After(a, b))
    ensures After(a + c, b) == After(c, After(a, b))
    decreases |a|
  {
    if |a| == 0 {
      assert a + c == c;
    } else {
      assert a + c == [a[0]] + (a[1..] + c);
      assert a == [a[0]] + a[1..];
      AtDrawsCons(a[0], a[1..] + c, b);
      AtDrawsCons(a[0], a[1..], b);
      AtDrawsAppend(a[1..], c, Rebind(b, a[0]));
    }
  }

  /** A trace that neither draws nor binds a texture or a vertex slice changes nothing. */
  lemma {:induction false} AtDrawsNeutral(t: seq<Event>, b: Binding)
    requires forall k :: 0 <= k < |t| ==> !IsDraw(t[k]) && !IsBindTexture(t[k]) && !IsVertexBind(t[k])
    ensures AtDraws(t, b) == [] && After(t, b) == b
    decreases |t|
  {
    if |t| > 0 {
      AtDrawsNeutral(t[1..], b);
    }
  }

  /** There is one entry per indexed draw of the trace. */
  lemma {:induction false} AtDrawsCount(t: seq<Event>, b: Binding)
    ensures |AtDraws(t, b)| == |Select(t, IsDraw)|
    decreases |t|
  {
    if |t| > 0 {
      AtDrawsCount(t[1..], Rebind(b, t[0]));
    }
  }

  /** The draw at position `i` is entry number "draws before `i`", and runs under the binding
      the events before it leave. */
  lemma AtDrawsAt(t: seq<Event>, b: Binding, i: nat)
    requires i < |t| && IsDraw(t[i])
    ensures |Select(t[..i], IsDraw)| < |AtDraws(t, b)|
    ensures AtDraws(t, b)[|Select(t[..i], IsDraw)|] == DrawContext(t[i].call, After(t[..i], b))
  {
    assert t == t[..i] + ([t[i]] + t[i + 1..]);
    AtDrawsAppend(t[..i], [t[i]] + t[i + 1..], b);
    AtDrawsCons(t[i], t[i + 1..], After(t[..i], b));
    AtDrawsCount(t[..i], b);
  }

  /** The callbacks invoked by a run of callback events, in order. */
  function Invoke(q: seq<Registry.Callback>): (t: seq<Event>)
    ensures |t| == |q|
    ensures forall i :: 0 <= i < |q| ==> t[i] == RunCallback(q[i])
  {
    seq(|q|, i requires 0 <= i < |q| => RunCallback(q[i]))
  }
}
