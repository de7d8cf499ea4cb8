/** The hook layer: the overlay's global state and the wrappers it substitutes for driver
    entry points (device, queue and command-buffer creation, pool binding, crop and present),
    the one-shot capture of the command buffer the overlay renders with, and the two
    callback queues. */
module Overlay {
  import opened Base
  import opened Intercept
  import Registry
  import opened Driver
  import Geometry
  import DrawLists
  import Submit
  import Backend

  /** The overlay's globals. `device`, `queue` and `cmdBuf` are what the overlay will render
      with; `hostCmdBuf`, `hostTexturePool` and `hostSamplerPool` are the host's most recent
      pool bindings, saved so that a present can restore them. `imgui` is present exactly
      when initialisation succeeded (the source's `hasInitImGui`) and holds the renderer. */
  datatype State = State(
    originals: Originals,
    device: Handle,
    queue: Handle,
    cmdBuf: Handle,
    hostCmdBuf: Handle,
    hostTexturePool: Handle,
    hostSamplerPool: Handle,
    bufferCount: int,
    drawQueue: seq<Registry.Callback>,
    initQueue: seq<Registry.Callback>,
    imgui: Option<Backend.Renderer>)

  /** Zero-initialised globals at load time. */
  const Initial: State := State(map[], 0, 0, 0, 0, 0, 0, 0, [], [], None)

  /** The fixed build configuration: the creation index of the command buffer to capture
      (`IMGUI_XENO_COMMAND_BUFFER_ID`) and what backend initialisation will find. */
  datatype Config = Config(captureId: int, backend: Backend.BackendEnv)

  /** What the UI library hands the renderer for one frame, and what the allocator grants. */
  datatype FrameInput = FrameInput(drawData: DrawLists.DrawData, vtxGrant: Geometry.Grant, idxGrant: Geometry.Grant)

  /** The globals after a call and the events it produced. */
  datatype Outcome = Outcome(state: State, trace: seq<Event>)

  /** The same, for an entry point that returns a value to the host. */
  datatype Answer<+T> = Answer(state: State, trace: seq<Event>, value: T)

  /** Why a call does not return: a present with no saved command buffer dereferences null,
      and registering a queued callback trips the source's assertion. */
  datatype Fault = NullCommandBuffer | AlreadyQueued(f: Registry.Callback)

  /** The state apart from the host's pool bindings. */
  predicate SameButHost(s: State, s': State) {
    s' == s.(hostCmdBuf := s'.hostCmdBuf, hostTexturePool := s'.hostTexturePool,
             hostSamplerPool := s'.hostSamplerPool)
  }

  // ----- pool and crop wrappers ---------------------------------------------------------

  /** `setTexturePool`: remember the host's command buffer and texture pool, then forward. */
  function SetTexturePoolHook(s: State, cb: Handle, pool: Handle): (o: Outcome)
    ensures o.state.hostCmdBuf == cb && o.state.hostTexturePool == pool
    ensures o.state.hostSamplerPool == s.hostSamplerPool && SameButHost(s, o.state)
    ensures o.trace == [Forward(Original(s.originals, TexturePool), SetTexturePool(cb, pool))]
  {
    Outcome(s.(hostCmdBuf := cb, hostTexturePool := pool),
            [Forward(Original(s.originals, TexturePool), SetTexturePool(cb, pool))])
  }

  /** `setSamplerPool`: remember the host's sampler pool (not its command buffer), then
      forward. */
  function SetSamplerPoolHook(s: State, cb: Handle, pool: Handle): (o: Outcome)
    ensures o.state.hostSamplerPool == pool
    ensures o.state.hostCmdBuf == s.hostCmdBuf && o.state.hostTexturePool == s.hostTexturePool
    ensures SameButHost(s, o.state)
    ensures o.trace == [Forward(Original(s.originals, SamplerPool), SetSamplerPool(cb, pool))]
  {
    Outcome(s.(hostSamplerPool := pool),
            [Forward(Original(s.originals, SamplerPool), SetSamplerPool(cb, pool))])
  }

  /** `setCrop`: always forwards; once the overlay is up, the display size becomes
      `(w - x, h - y)`. */
  function SetCropHook(s: State, window: Handle, x: int, y: int, w: int, h: int): (o: Outcome)
    ensures o.trace == [Forward(Original(s.originals, Crop), SetCrop(window, x, y, w, h))]
    ensures s.imgui.None? ==> o.state == s
    ensures s.imgui.Some? ==> o.state == s.(imgui := Some(s.imgui.value.(display := Size(w - x, h - y))))
  {
    var t := [Forward(Original(s.originals, Crop), SetCrop(window, x, y, w, h))];
    match s.imgui
    case None => Outcome(s, t)
    case Some(r) => Outcome(s.(imgui := Some(r.(display := Size(w - x, h - y)))), t)
  }

  // ----- creation wrappers --------------------------------------------------------------

  /** `deviceInit`: forward, then remember the device. Its result is the original's. */
  function DeviceInitHook(s: State, device: Handle, result: bool): (a: Answer<bool>)
    ensures a.value == result
    ensures a.state == s.(device := device)
    ensures a.trace == [Forward(Original(s.originals, DeviceInit), DeviceInitialize(device))]
  {
    Answer(s.(device := device), [Forward(Original(s.originals, DeviceInit), DeviceInitialize(device))], result)
  }

  /** `queueInit`: forward, then remember the queue. Its result is the original's. */
  function QueueInitHook(s: State, queue: Handle, result: bool): (a: Answer<bool>)
    ensures a.value == result
    ensures a.state == s.(queue := queue)
    ensures a.trace == [Forward(Original(s.originals, QueueInit), QueueInitialize(queue))]
  {
    Answer(s.(queue := queue), [Forward(Original(s.originals, QueueInit), QueueInitialize(queue))], result)
  }

  /** `InitImGui`: with a device, a queue and a command buffer all known, create the UI
      context and the renderer, then run the init callbacks in registration order;
      otherwise report failure and change nothing. */
  function InitImGui(s: State, env: Backend.BackendEnv): (a: Answer<bool>)
    requires s.imgui.None?
    ensures a.value <==> s.device != NullHandle && s.queue != NullHandle && s.cmdBuf != NullHandle
    ensures a.value <==> a.state.imgui.Some?
    ensures a.value ==> a.state == s.(imgui := Some(Backend.InitBackend(env, s.device, s.queue, s.cmdBuf)))
    ensures a.value ==> Select(a.trace, IsCallback) == a.trace == Invoke(s.initQueue)
    ensures !a.value ==> a.state == s && a.trace == []
  {
    if s.device != NullHandle && s.queue != NullHandle && s.cmdBuf != NullHandle then
      var r := Backend.InitBackend(env, s.device, s.queue, s.cmdBuf);
      SelectAll(Invoke(s.initQueue), IsCallback);
      Answer(s.(imgui := Some(r)), Invoke(s.initQueue), true)
    else Answer(s, [], false)
  }

  /** `cmdBufInit`: forward first. Until the overlay is up, every creation is counted, and the
      one whose count before the increment equals the configured id is captured and triggers
      initialisation. The host always gets the original's result. */
  function CmdBufInitHook(s: State, cfg: Config, buffer: Handle, device: Handle, result: bool): (a: Answer<bool>)
    ensures a.value == result
    ensures |a.trace| > 0 && a.trace[0] == Forward(Original(s.originals, CmdBufInit), CommandBufferInitialize(buffer, device))
    ensures s.imgui.Some? ==> a.state == s && |a.trace| == 1
    ensures s.imgui.None? ==> a.state.bufferCount == s.bufferCount + 1
    ensures s.imgui.None? && s.bufferCount != cfg.captureId ==> a.state == s.(bufferCount := s.bufferCount + 1)
    ensures s.imgui.None? && s.bufferCount == cfg.captureId ==>
              && a.state.cmdBuf == buffer
              && (a.state.imgui.Some? <==> s.device != NullHandle && s.queue != NullHandle && buffer != NullHandle)
              && a.state.(imgui := None) == s.(bufferCount := s.bufferCount + 1, cmdBuf := buffer)
  {
    var forward := [Forward(Original(s.originals, CmdBufInit), CommandBufferInitialize(buffer, device))];
    if s.imgui.Some? then Answer(s, forward, result)
    else
      var counted := s.(bufferCount := s.bufferCount + 1);
      if s.bufferCount != cfg.captureId then Answer(counted, forward, result)
      else
        var init := InitImGui(counted.(cmdBuf := buffer), cfg.backend);
        Answer(init.state, forward + init.trace, result)
  }

  // ----- per-frame hook -----------------------------------------------------------------

  /** `procDraw`: run the draw callbacks in queue order, then render the frame's draw data. */
  function ProcDraw(s: State, input: FrameInput): (o: Outcome)
    requires s.imgui.Some?
    ensures o.state == s.(imgui := Some(Submit.RenderDrawData(s.imgui.value, input.drawData, input.vtxGrant, input.idxGrant).renderer))
    ensures |s.drawQueue| <= |o.trace| && o.trace[..|s.drawQueue|] == Invoke(s.drawQueue)
    ensures o.trace[|s.drawQueue|..] == Submit.RenderDrawData(s.imgui.value, input.drawData, input.vtxGrant, input.idxGrant).trace
  {
    var f := Submit.RenderDrawData(s.imgui.value, input.drawData, input.vtxGrant, input.idxGrant);
    Outcome(s.(imgui := Some(f.renderer)), Invoke(s.drawQueue) + f.trace)
  }

  /** The recording on the host's command buffer that a present makes after the overlay has
      drawn: restart it, bind the saved pools through the overlay's own pool wrappers, end
      and submit it, and restart it for the host's next frame. */
  function Restore(s: State, queue: Handle): seq<Event> {
    Bracket(s.hostCmdBuf, queue,
            [Forward(Original(s.originals, TexturePool), SetTexturePool(s.hostCmdBuf, s.hostTexturePool)),
             Forward(Original(s.originals, SamplerPool), SetSamplerPool(s.hostCmdBuf, s.hostSamplerPool))])
    + [Issue(BeginRecording(s.hostCmdBuf))]
  }

  /** `presentTexture`: end the host's recording, draw the overlay if it is up, restore and
      submit the host's pool bindings, reopen the host's recording, then present. */
  function PresentHook(s: State, queue: Handle, window: Handle, texIndex: int, input: FrameInput): (r: Result<Outcome, Fault>)
    ensures r.Failure? <==> s.hostCmdBuf == NullHandle
    ensures r.Failure? ==> r.error == NullCommandBuffer
    ensures r.Success? ==>
              && r.value.state.hostCmdBuf == s.hostCmdBuf
              && r.value.state.hostTexturePool == s.hostTexturePool
              && r.value.state.hostSamplerPool == s.hostSamplerPool
              && r.value.state == s.(imgui := r.value.state.imgui)
              && (s.imgui.Some? <==> r.value.state.imgui.Some?)
              && |r.value.trace| >= 8
              && r.value.trace[0] == Issue(EndRecording(s.hostCmdBuf))
              && r.value.trace[|r.value.trace| - 1]
                 == Forward(Original(s.originals, Present), PresentTexture(queue, window, texIndex))
  {
    if s.hostCmdBuf == NullHandle then Failure(NullCommandBuffer)
    else
      var buf := s.hostCmdBuf;
      var pool := s.hostTexturePool;
      var samplerPool := s.hostSamplerPool;
      var drawn := if s.imgui.Some? then ProcDraw(s, input) else Outcome(s, []);
      var texture := SetTexturePoolHook(drawn.state, buf, pool);
      var sampler := SetSamplerPoolHook(texture.state, buf, samplerPool);
      Success(Outcome(sampler.state,
        [Issue(EndRecording(buf))] + drawn.trace + [Issue(BeginRecording(buf))]
        + texture.trace + sampler.trace
        + [Issue(EndRecording(buf)), Issue(SubmitCommands(queue, buf)), Issue(BeginRecording(buf)),
           Forward(Original(s.originals, Present), PresentTexture(queue, window, texIndex))]))
  }

  // ----- resolution ---------------------------------------------------------------------

  /** `getProc`: resolves through the cached original getProcAddress, with the device last
      seen by `deviceInit`, substituting the seven wrappers. `call(f, device, name)` is what
      calling the driver function `f` answers. */
  function GetProcHook(s: State, device: Handle, name: string, call: (Ptr, Handle, string) -> Ptr): (a: Answer<Ptr>)
    ensures a.trace == [] && a.state == s.(originals := a.state.originals)
    ensures Original(a.state.originals, GetProcAddress) == Original(s.originals, GetProcAddress)
    ensures name !in DeviceHookedNames ==>
              a.state == s && a.value == call(Original(s.originals, GetProcAddress), s.device, name)
    ensures name in DeviceHookedNames ==>
              && a.value.Wrapper? && Name(a.value.hook) == name
              && Original(a.state.originals, a.value.hook) == call(Original(s.originals, GetProcAddress), s.device, name)
  {
    var getProcAddress := Original(s.originals, GetProcAddress);
    var r := GetProc(s.originals, s.device, device, name, (d: Handle, n: string) => call(getProcAddress, d, n));
    assert "nvnDeviceGetProcAddress" !in DeviceHookedNames;
    Answer(s.(originals := r.originals), [], r.ptr)
  }

  /** `NvnBootstrapHook`: substitutes device initialisation and getProcAddress. */
  function BootstrapHook(s: State, name: string, origFn: string -> Ptr): (a: Answer<Ptr>)
    ensures a.trace == [] && a.state == s.(originals := a.state.originals)
    ensures name !in BootstrapHookedNames ==> a.state == s && a.value == origFn(name)
    ensures name in BootstrapHookedNames ==>
              && a.value.Wrapper? && Name(a.value.hook) == name
              && Original(a.state.originals, a.value.hook) == origFn(name)
  {
    var r := Bootstrap(s.originals, name, origFn);
    Answer(s.(originals := r.originals), [], r.ptr)
  }

  // ----- registration -------------------------------------------------------------------

  /** `addDrawFunc`. */
  function AddDrawFunc(s: State, f: Registry.Callback): (r: Result<State, Fault>)
    ensures r.Success? <==> f !in s.drawQueue
    ensures r.Failure? ==> r.error == AlreadyQueued(f)
    ensures r.Success? ==> r.value == s.(drawQueue := s.drawQueue + [f])
  {
    match Registry.Add(s.drawQueue, f)
    case Success(q) => Success(s.(drawQueue := q))
    case Failure(g) => Failure(AlreadyQueued(g))
  }

  /** `addInitFunc`. */
  function AddInitFunc(s: State, f: Registry.Callback): (r: Result<State, Fault>)
    ensures r.Success? <==> f !in s.initQueue
    ensures r.Failure? ==> r.error == AlreadyQueued(f)
    ensures r.Success? ==> r.value == s.(initQueue := s.initQueue + [f])
  {
    match Registry.Add(s.initQueue, f)
    case Success(q) => Success(s.(initQueue := q))
    case Failure(g) => Failure(AlreadyQueued(g))
  }

  // ----- any entry point ----------------------------------------------------------------

  /** A call the host (or a client registering callbacks) can make into the overlay. */
  datatype Op =
    | DeviceInitCall(device: Handle, result: bool)
    | QueueInitCall(queue: Handle, result: bool)
    | CmdBufInitCall(buffer: Handle, device: Handle, result: bool)
    | SetTexturePoolCall(cb: Handle, pool: Handle)
    | SetSamplerPoolCall(cb: Handle, pool: Handle)
    | SetCropCall(window: Handle, x: int, y: int, w: int, h: int)
    | PresentCall(queue: Handle, window: Handle, texIndex: int, input: FrameInput)
    | GetProcCall(device: Handle, name: string, call: (Ptr, Handle, string) -> Ptr)
    | BootstrapCall(name: string, origFn: string -> Ptr)
    | AddDrawCall(f: Registry.Callback)
    | AddInitCall(f: Registry.Callback)

  /** The globals after one entry point, or the fault it stops at. */
  function Apply(s: State, cfg: Config, op: Op): Result<State, Fault> {
    match op
    case DeviceInitCall(d, res) => Success(DeviceInitHook(s, d, res).state)
    case QueueInitCall(q, res) => Success(QueueInitHook(s, q, res).state)
    case CmdBufInitCall(b, d, res) => Success(CmdBufInitHook(s, cfg, b, d, res).state)
    case SetTexturePoolCall(cb, pool) => Success(SetTexturePoolHook(s, cb, pool).state)
    case SetSamplerPoolCall(cb, pool) => Success(SetSamplerPoolHook(s, cb, pool).state)
    case SetCropCall(window, x, y, w, h) => Success(SetCropHook(s, window, x, y, w, h).state)
    case PresentCall(q, window, texIndex, input) =>
      (match PresentHook(s, q, window, texIndex, input)
       case Success(o) => Success(o.state)
       case Failure(e) => Failure(e))
    case GetProcCall(d, name, call) => Success(GetProcHook(s, d, name, call).state)
    case BootstrapCall(name, origFn) => Success(BootstrapHook(s, name, origFn).state)
    case AddDrawCall(f) => AddDrawFunc(s, f)
    case AddInitCall(f) => AddInitFunc(s, f)
  }

  /** A run of entry points, stopping at the first fault. */
  function ApplyAll(s: State, cfg: Config, ops: seq<Op>): Result<State, Fault>
    decreases |ops|
  {
    if |ops| == 0 then Success(s)
    else match Apply(s, cfg, ops[0])
      case Failure(e) => Failure(e)
      case Success(s') => ApplyAll(s', cfg, ops[1..])
  }
}
