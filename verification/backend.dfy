/** The renderer's own state and its one-time initialisation (`InitBackend`). */
module Backend {
  import opened Base
  import Geometry
  import PoolLayout

  /** Display size the backend starts with, before the host sets a crop. */
  const DefaultDisplay: Size := Size(1600, 900)

  /** The backend data: the device, queue and command buffer handed over at initialisation,
      the readiness flag, the display size and the size the projection was last computed
      for, the font layout, and the two growable geometry buffers. `texturePool` and
      `samplerPool` are the overlay's own descriptor pools. */
  datatype Renderer = Renderer(
    device: Handle,
    queue: Handle,
    cmdBuf: Handle,
    texturePool: Handle,
    samplerPool: Handle,
    isInitialized: bool,
    useTestShader: bool,
    display: Size,
    projection: Size,
    font: Option<PoolLayout.FontLayout>,
    vtx: Option<Geometry.Buffer>,
    idx: Option<Geometry.Buffer>)

  /** The outcomes of the foreign initialisation steps. */
  datatype BackendEnv = BackendEnv(
    shaderBinarySize: nat,          // size of the pre-compiled shader binary loaded by createShaders
    shadersOk: bool,                // outcome of setupShaders (program, shader memory, uniform memory)
    font: PoolLayout.FontEnv,
    useTestShader: bool,            // the backend's isUseTestShader debug switch
    texturePool: Handle,
    samplerPool: Handle)

  /** `createShaders`: succeeds when a non-empty shader binary was loaded. */
  function CreateShaders(env: BackendEnv): bool {
    env.shaderBinarySize > 0
  }

  /** `InitBackend`: the renderer is ready only if shader loading, shader setup and font setup
      all succeed; `setupShaders` runs only after `createShaders` succeeded and `setupFont`
      only after `setupShaders` succeeded. */
  function InitBackend(env: BackendEnv, device: Handle, queue: Handle, cmdBuf: Handle): (r: Renderer)
    ensures r.isInitialized <==> env.shaderBinarySize > 0 && env.shadersOk && PoolLayout.AllStepsOk(env.font)
    ensures r.isInitialized <==> r.font.Some?
    ensures r.font.Some? ==> r.font.value.textureId == PoolLayout.FontDescriptorId
    ensures r.device == device && r.queue == queue && r.cmdBuf == cmdBuf
    ensures r.display == DefaultDisplay && r.projection == DefaultDisplay
    ensures r.vtx.None? && r.idx.None?
  {
    var blank := Renderer(device, queue, cmdBuf, env.texturePool, env.samplerPool, false,
                          env.useTestShader, DefaultDisplay, DefaultDisplay, None, None, None);
    if CreateShaders(env) && env.shadersOk then
      match PoolLayout.SetupFont(env.font)
      case Success(layout) => blank.(isInitialized := true, font := Some(layout))
      case Failure(_) => blank
    else blank
  }
}
