/** Properties of the hook layer across calls: one-shot capture, the latch once the overlay is
    up, what a present leaves on the host's command buffer, and callback order. */
module OverlayProofs {
  import opened Base
  import opened Intercept
  import Registry
  import opened Driver
  import Submit
  import Backend
  import SubmitProofs
  import opened Overlay

  // ----- capture --------------------------------------------------------------------------

  /** The globals after the host creates the command buffers `bufs`, one after another. */
  function Creations(s: State, cfg: Config, bufs: seq<Handle>): State
    decreases |bufs|
  {
    if |bufs| == 0 then s
    else Creations(CmdBufInitHook(s, cfg, bufs[0], s.device, true).state, cfg, bufs[1..])
  }

  /** Once the overlay is up, further creations change nothing. */
  lemma {:induction false} CreationsLatched(s: State, cfg: Config, bufs: seq<Handle>)
    requires s.imgui.Some?
    ensures Creations(s, cfg, bufs) == s
    decreases |bufs|
  {
    if |bufs| > 0 {
      CreationsLatched(s, cfg, bufs[1..]);
    }
  }

  /** Counting from `s.bufferCount`, the buffer created at the configured index is the one
      captured, and initialisation succeeds exactly when the device, the queue and that buffer
      are all known; after a success counting stops, after a failure counting goes on and no
      later buffer is captured. When the configured index is never reached (or was passed
      before), nothing is captured. */
  lemma {:induction false} CaptureAtId(s: State, cfg: Config, bufs: seq<Handle>)
    requires s.imgui.None?
    ensures var t := Creations(s, cfg, bufs);
            var c := s.bufferCount;
            var id := cfg.captureId;
            if c <= id < c + |bufs| then
              && t.cmdBuf == bufs[id - c]
              && (t.imgui.Some? <==> s.device != NullHandle && s.queue != NullHandle && bufs[id - c] != NullHandle)
              && t.bufferCount == (if t.imgui.Some? then id + 1 else c + |bufs|)
            else
              t == s.(bufferCount := c + |bufs|)
    decreases |bufs|
  {
    if |bufs| > 0 {
      var s1 := CmdBufInitHook(s, cfg, bufs[0], s.device, true).state;
      if s1.imgui.Some? {
        CreationsLatched(s1, cfg, bufs[1..]);
      } else {
        CaptureAtId(s1, cfg, bufs[1..]);
      }
    }
  }

  /** From load time, the overlay starts on the configured creation exactly when the device
      and queue were already created and the buffer is not null. */
  lemma CaptureFromStart(cfg: Config, device: Handle, queue: Handle, bufs: seq<Handle>)
    requires 0 <= cfg.captureId < |bufs|
    ensures var t := Creations(Initial.(device := device, queue := queue), cfg, bufs);
            && t.cmdBuf == bufs[cfg.captureId]
            && (t.imgui.Some? <==> device != NullHandle && queue != NullHandle && bufs[cfg.captureId] != NullHandle)
  {
    CaptureAtId(Initial.(device := device, queue := queue), cfg, bufs);
  }

  /** No entry point undoes initialisation, moves the counter or the captured buffer once the
      overlay is up, or points the renderer at another device, queue or command buffer. */
  lemma ApplyLatched(s: State, cfg: Config, op: Op)
    requires s.imgui.Some?
    requires Apply(s, cfg, op).Success?
    ensures var t := Apply(s, cfg, op).value;
            && t.imgui.Some? && t.bufferCount == s.bufferCount && t.cmdBuf == s.cmdBuf
            && t.imgui.value.device == s.imgui.value.device
            && t.imgui.value.queue == s.imgui.value.queue
            && t.imgui.value.cmdBuf == s.imgui.value.cmdBuf
  {
    if op.PresentCall? {
      var o := PresentHook(s, op.queue, op.window, op.texIndex, op.input).value;
      assert o.state.imgui.value == Submit.RenderDrawData(s.imgui.value, op.input.drawData,
                                                          op.input.vtxGrant, op.input.idxGrant).renderer;
    }
  }

  lemma {:induction false} ApplyAllLatched(s: State, cfg: Config, ops: seq<Op>)
    requires s.imgui.Some?
    requires ApplyAll(s, cfg, ops).Success?
    ensures var t := ApplyAll(s, cfg, ops).value;
            && t.imgui.Some? && t.bufferCount == s.bufferCount && t.cmdBuf == s.cmdBuf
            && t.imgui.value.cmdBuf == s.imgui.value.cmdBuf
    decreases |ops|
  {
    if |ops| > 0 {
      ApplyLatched(s, cfg, ops[0]);
      ApplyAllLatched(Apply(s, cfg, ops[0]).value, cfg, ops[1..]);
    }
  }

  /** Before the overlay is up, an entry point advances the counter by at most one, and only
      the creation at the configured index can capture a buffer or bring the overlay up. */
  lemma ApplyBeforeUp(s: State, cfg: Config, op: Op)
    requires s.imgui.None?
    requires Apply(s, cfg, op).Success?
    ensures var t := Apply(s, cfg, op).value;
            && (t.bufferCount == s.bufferCount || t.bufferCount == s.bufferCount + 1)
            && ((t.imgui.Some? || t.cmdBuf != s.cmdBuf) ==>
                  s.bufferCount == cfg.captureId && t.bufferCount == cfg.captureId + 1)
  {
  }

  /** Once the counter has passed the configured index without the overlay coming up (the
      initialisation there failed), no sequence of entry points brings it up or captures
      another buffer. */
  lemma {:induction false} ApplyAllPassed(s: State, cfg: Config, ops: seq<Op>)
    requires s.imgui.None? && s.bufferCount > cfg.captureId
    requires ApplyAll(s, cfg, ops).Success?
    ensures var t := ApplyAll(s, cfg, ops).value;
            t.imgui.None? && t.cmdBuf == s.cmdBuf && t.bufferCount >= s.bufferCount
    decreases |ops|
  {
    if |ops| > 0 {
      ApplyBeforeUp(s, cfg, ops[0]);
      ApplyAllPassed(Apply(s, cfg, ops[0]).value, cfg, ops[1..]);
    }
  }

  /** Under any sequence of entry points, starting before the configured index, the overlay
      can only come up at the configured creation, and until that creation no buffer is
      captured. */
  lemma {:induction false} ApplyAllComesUpAtId(s: State, cfg: Config, ops: seq<Op>)
    requires s.imgui.None? && s.bufferCount <= cfg.captureId
    requires ApplyAll(s, cfg, ops).Success?
    ensures var t := ApplyAll(s, cfg, ops).value;
            && (t.imgui.Some? ==> t.bufferCount == cfg.captureId + 1)
            && (t.bufferCount <= cfg.captureId ==> t.imgui.None? && t.cmdBuf == s.cmdBuf)
    decreases |ops|
  {
    if |ops| > 0 {
      var s1 := Apply(s, cfg, ops[0]).value;
      ApplyBeforeUp(s, cfg, ops[0]);
      if s1.imgui.Some? {
        ApplyAllLatched(s1, cfg, ops[1..]);
      } else if s1.bufferCount > cfg.captureId {
        ApplyAllPassed(s1, cfg, ops[1..]);
      } else {
        ApplyAllComesUpAtId(s1, cfg, ops[1..]);
      }
    }
  }

  /** A failed initialisation at the configured creation is final: whatever the host calls
      afterwards, the overlay never comes up and keeps the buffer captured there. */
  lemma FailedCaptureIsFinal(s: State, cfg: Config, buffer: Handle, device: Handle, result: bool, ops: seq<Op>)
    requires s.imgui.None? && s.bufferCount == cfg.captureId
    requires CmdBufInitHook(s, cfg, buffer, device, result).state.imgui.None?
    requires ApplyAll(CmdBufInitHook(s, cfg, buffer, device, result).state, cfg, ops).Success?
    ensures var t := ApplyAll(CmdBufInitHook(s, cfg, buffer, device, result).state, cfg, ops).value;
            t.imgui.None? && t.cmdBuf == buffer
  {
    ApplyAllPassed(CmdBufInitHook(s, cfg, buffer, device, result).state, cfg, ops);
  }

  /** The callback queues never hold a callback twice. */
  predicate QueuesDistinct(s: State) {
    Registry.Distinct(s.drawQueue) && Registry.Distinct(s.initQueue)
  }

  lemma {:induction false} ApplyAllKeepsQueuesDistinct(s: State, cfg: Config, ops: seq<Op>)
    requires QueuesDistinct(s)
    requires ApplyAll(s, cfg, ops).Success?
    ensures QueuesDistinct(ApplyAll(s, cfg, ops).value)
    decreases |ops|
  {
    if |ops| > 0 {
      var s1 := Apply(s, cfg, ops[0]).value;
      assert QueuesDistinct(s1) by {
        match ops[0]
        case AddDrawCall(f) => assert Registry.Add(s.drawQueue, f).Success?;
        case AddInitCall(f) => assert Registry.Add(s.initQueue, f).Success?;
        case PresentCall(q, w, i, input) =>
          if s.imgui.Some? {
            assert s1.drawQueue == s.drawQueue && s1.initQueue == s.initQueue;
          }
        case _ =>
      }
      ApplyAllKeepsQueuesDistinct(s1, cfg, ops[1..]);
    }
  }

  // ----- registration order -------------------------------------------------------------

  function DrawRegistrations(fs: seq<Registry.Callback>): (ops: seq<Op>)
    ensures |ops| == |fs| && forall k :: 0 <= k < |fs| ==> ops[k] == AddDrawCall(fs[k])
  {
    seq(|fs|, k requires 0 <= k < |fs| => AddDrawCall(fs[k]))
  }

  lemma {:induction false} DrawRegistrationsAddAll(s: State, cfg: Config, fs: seq<Registry.Callback>)
    ensures ApplyAll(s, cfg, DrawRegistrations(fs)).Success? <==> Registry.AddAll(s.drawQueue, fs).Success?
    ensures ApplyAll(s, cfg, DrawRegistrations(fs)).Success? ==>
              ApplyAll(s, cfg, DrawRegistrations(fs)).value == s.(drawQueue := Registry.AddAll(s.drawQueue, fs).value)
    decreases |fs|
  {
    if |fs| > 0 {
      assert DrawRegistrations(fs)[1..] == DrawRegistrations(fs[1..]);
      if fs[0] !in s.drawQueue {
        DrawRegistrationsAddAll(s.(drawQueue := s.drawQueue + [fs[0]]), cfg, fs[1..]);
      }
    }
  }

  /** Registering draw callbacks one after another succeeds exactly when none repeats, and a
      frame then runs them in registration order before it renders. */
  lemma DrawCallbacksInOrder(s: State, cfg: Config, fs: seq<Registry.Callback>, input: FrameInput)
    requires Registry.Distinct(s.drawQueue) && s.imgui.Some?
    ensures ApplyAll(s, cfg, DrawRegistrations(fs)).Success? <==> Registry.Distinct(s.drawQueue + fs)
    ensures ApplyAll(s, cfg, DrawRegistrations(fs)).Success? ==>
              ApplyAll(s, cfg, DrawRegistrations(fs)).value == s.(drawQueue := s.drawQueue + fs)
    ensures ApplyAll(s, cfg, DrawRegistrations(fs)).Success? ==>
              ProcDraw(s.(drawQueue := s.drawQueue + fs), input).trace[..|s.drawQueue| + |fs|]
              == Invoke(s.drawQueue + fs)
  {
    DrawRegistrationsAddAll(s, cfg, fs);
    Registry.AddAllOrder(s.drawQueue, fs);
  }

  // ----- present ------------------------------------------------------------------------

  /** The events of the overlay's draw inside a present. */
  function Drawn(s: State, input: FrameInput): seq<Event> {
    if s.imgui.Some? then ProcDraw(s, input).trace else []
  }

  /** A present's events around a draw `d`: end the host's recording, draw, restore, present. */
  function HostFrame(s: State, queue: Handle, window: Handle, texIndex: int, d: seq<Event>): seq<Event> {
    [Issue(EndRecording(s.hostCmdBuf))] + d + Restore(s, queue)
    + [Forward(Original(s.originals, Present), PresentTexture(queue, window, texIndex))]
  }

  lemma PresentShape(s: State, queue: Handle, window: Handle, texIndex: int, input: FrameInput)
    requires s.hostCmdBuf != NullHandle
    ensures PresentHook(s, queue, window, texIndex, input).value.trace == HostFrame(s, queue, window, texIndex, Drawn(s, input))
  {
  }

  /** The renderer a present leaves behind is the one its frame rendered with. */
  lemma PresentRenders(s: State, queue: Handle, window: Handle, texIndex: int, input: FrameInput)
    requires s.hostCmdBuf != NullHandle && s.imgui.Some?
    ensures PresentHook(s, queue, window, texIndex, input).value.state.imgui
            == Some(Submit.RenderDrawData(s.imgui.value, input.drawData, input.vtxGrant, input.idxGrant).renderer)
  {
  }

  /** A crop of the host's window decides the projection of the next frame the overlay draws:
      the display becomes the crop's extent, and a present that renders geometry projects to
      it. */
  lemma CropSetsNextProjection(s: State, window: Handle, x: int, y: int, w: int, h: int,
                               queue: Handle, target: Handle, texIndex: int, input: FrameInput)
    requires s.hostCmdBuf != NullHandle && s.imgui.Some?
    requires SubmitProofs.RendersGeometry(s.imgui.value.(display := Size(w - x, h - y)),
                                          input.drawData, input.vtxGrant, input.idxGrant)
    ensures var c := SetCropHook(s, window, x, y, w, h).state;
            var p := PresentHook(c, queue, target, texIndex, input).value.state;
            && c.imgui.Some? && c.imgui.value.display == Size(w - x, h - y)
            && p.imgui.Some? && p.imgui.value.projection == Size(w - x, h - y)
  {
    var c := SetCropHook(s, window, x, y, w, h).state;
    PresentRenders(c, queue, target, texIndex, input);
  }

  /** A trace that binds no pool leaves no last binding. */
  lemma {:induction false} NoPoolBindings(t: seq<Event>, cb: Handle)
    requires forall k :: 0 <= k < |t| ==> IsRecordingControl(t[k]) || (t[k].Forward? && t[k].call.PresentTexture?)
    ensures LastTexturePool(t, cb) == None && LastSamplerPool(t, cb) == None
    decreases |t|
  {
    if |t| > 0 {
      NoPoolBindings(t[..|t| - 1], cb);
    }
  }

  lemma HostFrameRestoresPools(s: State, queue: Handle, window: Handle, texIndex: int, d: seq<Event>)
    ensures var t := HostFrame(s, queue, window, texIndex, d);
            && LastTexturePool(t, s.hostCmdBuf) == Some(s.hostTexturePool)
            && LastSamplerPool(t, s.hostCmdBuf) == Some(s.hostSamplerPool)
  {
    var buf := s.hostCmdBuf;
    var tp := Forward(Original(s.originals, TexturePool), SetTexturePool(buf, s.hostTexturePool));
    var sp := Forward(Original(s.originals, SamplerPool), SetSamplerPool(buf, s.hostSamplerPool));
    var a := [Issue(EndRecording(buf))] + d + [Issue(BeginRecording(buf))];
    var b := [Issue(EndRecording(buf)), Issue(SubmitCommands(queue, buf)), Issue(BeginRecording(buf)),
              Forward(Original(s.originals, Present), PresentTexture(queue, window, texIndex))];
    assert HostFrame(s, queue, window, texIndex, d) == (a + [tp, sp]) + b;
    LastPoolAppend(a + [tp, sp], b, buf);
    LastPoolAppend(a, [tp, sp], buf);
    NoPoolBindings(b, buf);
    assert [tp, sp][..1] == [tp];
    assert [tp][..0] == [];
  }

  /** A present leaves the host's own texture and sampler pools as the last ones bound on the
      host's command buffer, whatever the overlay bound while drawing. */
  lemma PresentRestoresPools(s: State, queue: Handle, window: Handle, texIndex: int, input: FrameInput)
    requires s.hostCmdBuf != NullHandle
    ensures var t := PresentHook(s, queue, window, texIndex, input).value.trace;
            && LastTexturePool(t, s.hostCmdBuf) == Some(s.hostTexturePool)
            && LastSamplerPool(t, s.hostCmdBuf) == Some(s.hostSamplerPool)
  {
    PresentShape(s, queue, window, texIndex, input);
    HostFrameRestoresPools(s, queue, window, texIndex, Drawn(s, input));
  }

  /** Around a draw that leaves the host's buffer closed, a present's own events close the
      host's recording, record and submit the restore, and reopen it; any other buffer sees
      only the draw. */
  lemma HostFrameRecording(s: State, queue: Handle, window: Handle, texIndex: int, d: seq<Event>, other: Handle, open: bool)
    requires Run(d, s.hostCmdBuf, false) == Some(false)
    ensures Run(HostFrame(s, queue, window, texIndex, d), s.hostCmdBuf, true) == Some(true)
    ensures other != s.hostCmdBuf ==> Run(HostFrame(s, queue, window, texIndex, d), other, open) == Run(d, other, open)
  {
    var buf := s.hostCmdBuf;
    var e := [Issue(EndRecording(buf))];
    var tp := Forward(Original(s.originals, TexturePool), SetTexturePool(buf, s.hostTexturePool));
    var sp := Forward(Original(s.originals, SamplerPool), SetSamplerPool(buf, s.hostSamplerPool));
    var reopen := [Issue(BeginRecording(buf)), Forward(Original(s.originals, Present), PresentTexture(queue, window, texIndex))];
    var tail := Bracket(buf, queue, [tp, sp]) + reopen;
    assert HostFrame(s, queue, window, texIndex, d) == e + d + tail;
    RunAppend(e + d, tail, buf, true);
    RunAppend(e, d, buf, true);
    assert Run(e, buf, true) == Some(false) by { assert e[1..] == []; }
    BracketRun(buf, queue, [tp, sp], other, open);
    RunAppend(Bracket(buf, queue, [tp, sp]), reopen, buf, false);
    assert Run(reopen, buf, false) == Some(true) by {
      assert reopen[1..][1..] == [];
      assert Run(reopen[1..], buf, true) == Some(true);
    }
    if other != buf {
      RunAppend(e + d, tail, other, open);
      RunAppend(e, d, other, open);
      assert Run(e, other, open) == Some(open) by { assert e[1..] == []; }
      match Run(d, other, open)
      case None =>
      case Some(o) =>
        BracketRun(buf, queue, [tp, sp], other, o);
        RunAppend(Bracket(buf, queue, [tp, sp]), reopen, other, o);
        RunStable(reopen, other, o);
    }
  }

  /** Callback events are invisible to the recording protocol of every command buffer. */
  lemma InvokeStable(q: seq<Registry.Callback>, cb: Handle, open: bool)
    ensures Run(Invoke(q), cb, open) == Some(open)
  {
    RunStable(Invoke(q), cb, open);
  }

  /** The overlay's draw leaves its own command buffer closed if it was closed and every other
      command buffer as it was. */
  lemma DrawnRecording(s: State, input: FrameInput, cb: Handle, open: bool)
    ensures s.imgui.Some? && cb == s.imgui.value.cmdBuf ==> Run(Drawn(s, input), cb, false) == Some(false)
    ensures (s.imgui.Some? ==> cb != s.imgui.value.cmdBuf) ==> Run(Drawn(s, input), cb, open) == Some(open)
  {
    if s.imgui.Some? {
      var r := s.imgui.value;
      var f := Submit.RenderDrawData(r, input.drawData, input.vtxGrant, input.idxGrant);
      assert Drawn(s, input) == Invoke(s.drawQueue) + f.trace;
      RunAppend(Invoke(s.drawQueue), f.trace, cb, open);
      RunAppend(Invoke(s.drawQueue), f.trace, cb, false);
      InvokeStable(s.drawQueue, cb, open);
      InvokeStable(s.drawQueue, cb, false);
      SubmitProofs.FrameProtocol(r, input.drawData, input.vtxGrant, input.idxGrant, cb, open);
    }
  }

  /** A present called while the host is recording on its command buffer ends that
      recording, submits exactly the restored pool bindings, and leaves the buffer recording
      again for the host, with no protocol violation on it; the overlay's own command buffer
      is left closed if it was closed, and every other command buffer is left as it was. */
  lemma PresentRecording(s: State, queue: Handle, window: Handle, texIndex: int, input: FrameInput,
                         other: Handle, open: bool)
    requires s.hostCmdBuf != NullHandle
    ensures var t := PresentHook(s, queue, window, texIndex, input).value.trace;
            && Run(t, s.hostCmdBuf, true) == Some(true)
            && (s.imgui.Some? && s.imgui.value.cmdBuf != s.hostCmdBuf ==> Run(t, s.imgui.value.cmdBuf, false) == Some(false))
            && (other != s.hostCmdBuf && (s.imgui.Some? ==> other != s.imgui.value.cmdBuf) ==> Run(t, other, open) == Some(open))
  {
    PresentShape(s, queue, window, texIndex, input);
    var d := Drawn(s, input);
    DrawnRecording(s, input, s.hostCmdBuf, false);
    HostFrameRecording(s, queue, window, texIndex, d, other, open);
    if s.imgui.Some? && s.imgui.value.cmdBuf != s.hostCmdBuf {
      DrawnRecording(s, input, s.imgui.value.cmdBuf, false);
      HostFrameRecording(s, queue, window, texIndex, d, s.imgui.value.cmdBuf, false);
    }
    DrawnRecording(s, input, other, open);
  }

  lemma GeometryHasNoCallbacks(r: Backend.Renderer, input: FrameInput)
    requires SubmitProofs.RendersGeometry(r, input.drawData, input.vtxGrant, input.idxGrant)
    ensures var t := Submit.RenderDrawData(r, input.drawData, input.vtxGrant, input.idxGrant).trace;
            forall k :: 0 <= k < |t| ==> !IsCallback(t[k])
  {
    var t := Submit.RenderDrawData(r, input.drawData, input.vtxGrant, input.idxGrant).trace;
    var p := Submit.Preamble(r);
    var body := SubmitProofs.Body(r, input.drawData);
    SubmitProofs.FrameShape(r, input.drawData, input.vtxGrant, input.idxGrant);
    forall k | 0 <= k < |t|
      ensures !IsCallback(t[k])
    {
      if |p| <= k < |p| + |body| {
        assert t[k] == body[k - |p|];
        assert Submit.IsListEvent(body[k - |p|]);
      }
    }
  }

  /** Rendering a frame never runs a callback: only the overlay's draw queue does. */
  lemma FrameHasNoCallbacks(r: Backend.Renderer, input: FrameInput)
    ensures var t := Submit.RenderDrawData(r, input.drawData, input.vtxGrant, input.idxGrant).trace;
            forall k :: 0 <= k < |t| ==> !IsCallback(t[k])
  {
    var f := Submit.RenderDrawData(r, input.drawData, input.vtxGrant, input.idxGrant);
    if f.trace != [] && Submit.Renders(r, input.drawData) {
      if r.useTestShader {
        assert f == Submit.RenderTestShader(r, input.vtxGrant);
      } else {
        GeometryHasNoCallbacks(r, input);
      }
    }
  }

  lemma DrawnCallbacks(s: State, input: FrameInput)
    ensures Select(Drawn(s, input), IsCallback) == if s.imgui.Some? then Invoke(s.drawQueue) else []
  {
    if s.imgui.Some? {
      var f := Submit.RenderDrawData(s.imgui.value, input.drawData, input.vtxGrant, input.idxGrant);
      assert Drawn(s, input) == Invoke(s.drawQueue) + f.trace;
      SelectAppend(Invoke(s.drawQueue), f.trace, IsCallback);
      SelectAll(Invoke(s.drawQueue), IsCallback);
      FrameHasNoCallbacks(s.imgui.value, input);
      SelectNone(f.trace, IsCallback);
    }
  }

  lemma HostFrameCallbacks(s: State, queue: Handle, window: Handle, texIndex: int, d: seq<Event>)
    ensures Select(HostFrame(s, queue, window, texIndex, d), IsCallback) == Select(d, IsCallback)
  {
    var e := [Issue(EndRecording(s.hostCmdBuf))];
    var tail := Restore(s, queue) + [Forward(Original(s.originals, Present), PresentTexture(queue, window, texIndex))];
    assert HostFrame(s, queue, window, texIndex, d) == e + d + tail;
    SelectAppend(e + d, tail, IsCallback);
    SelectAppend(e, d, IsCallback);
    SelectNone(e, IsCallback);
    SelectNone(tail, IsCallback);
  }

  /** The overlay's draw runs inside a present exactly when the overlay is up, and then runs
      every draw callback once, in queue order. */
  lemma PresentRunsCallbacks(s: State, queue: Handle, window: Handle, texIndex: int, input: FrameInput)
    requires s.hostCmdBuf != NullHandle
    ensures Select(PresentHook(s, queue, window, texIndex, input).value.trace, IsCallback)
            == if s.imgui.Some? then Invoke(s.drawQueue) else []
  {
    PresentShape(s, queue, window, texIndex, input);
    HostFrameCallbacks(s, queue, window, texIndex, Drawn(s, input));
    DrawnCallbacks(s, input);
  }

  // ----- resolution then call -----------------------------------------------------------

  /** After the host resolves `nvnQueuePresentTexture` through the overlay, the present it
      then makes ends in the driver's own present, as the cached getProcAddress answered for
      the tracked device. */
  lemma PresentForwardsToDriver(s: State, device: Handle, call: (Ptr, Handle, string) -> Ptr,
                                queue: Handle, window: Handle, texIndex: int, input: FrameInput)
    requires s.hostCmdBuf != NullHandle
    ensures var g := GetProcHook(s, device, "nvnQueuePresentTexture", call);
            var t := PresentHook(g.state, queue, window, texIndex, input).value.trace;
            && g.value == Wrapper(Present)
            && t[|t| - 1] == Forward(call(Original(s.originals, GetProcAddress), s.device, "nvnQueuePresentTexture"),
                                     PresentTexture(queue, window, texIndex))
  {
    var g := GetProcHook(s, device, "nvnQueuePresentTexture", call);
    assert "nvnQueuePresentTexture" in DeviceHookedNames;
    NameInjective(g.value.hook, Present);
  }

  /** Resolving any name never disturbs the original cached for a wrapper of another name, so
      the present wrapper keeps forwarding where it did. */
  lemma ResolutionKeepsOtherForwards(s: State, device: Handle, name: string, call: (Ptr, Handle, string) -> Ptr,
                                     queue: Handle, window: Handle, texIndex: int, input: FrameInput)
    requires s.hostCmdBuf != NullHandle
    requires name != Name(Present)
    ensures var t := PresentHook(GetProcHook(s, device, name, call).state, queue, window, texIndex, input).value.trace;
            var t0 := PresentHook(s, queue, window, texIndex, input).value.trace;
            t[|t| - 1] == t0[|t0| - 1]
  {
    var getProcAddress := Original(s.originals, GetProcAddress);
    GetProcKeepsOtherOriginals(s.originals, s.device, device, name, (d: Handle, n: string) => call(getProcAddress, d, n), Present);
  }

  /** Once the loader has handed out the overlay's getProcAddress, every later resolution goes
      through the function the loader answered for `nvnDeviceGetProcAddress`: unhooked names
      come back as it answers them, hooked names come back as wrappers forwarding there. */
  lemma ResolvesThroughBootstrapped(s: State, origFn: string -> Ptr, device: Handle, name: string,
                                    call: (Ptr, Handle, string) -> Ptr)
    ensures var b := BootstrapHook(s, "nvnDeviceGetProcAddress", origFn);
            var g := GetProcHook(b.state, device, name, call);
            var answered := call(origFn("nvnDeviceGetProcAddress"), s.device, name);
            && b.value == Wrapper(GetProcAddress)
            && (name !in DeviceHookedNames ==> g.value == answered)
            && (name in DeviceHookedNames ==> g.value.Wrapper? && Original(g.state.originals, g.value.hook) == answered)
  {
    var b := BootstrapHook(s, "nvnDeviceGetProcAddress", origFn);
    assert "nvnDeviceGetProcAddress" in BootstrapHookedNames;
    NameInjective(b.value.hook, GetProcAddress);
  }
}
