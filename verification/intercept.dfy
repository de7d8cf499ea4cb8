/** The symbol interceptor: resolving a driver entry point by name either passes the driver's
    own pointer through or caches it as the "original" of a wrapper and hands out the wrapper. */
module Intercept {
  import opened Base

  /** The wrapper functions the overlay can substitute for driver entry points. */
  datatype Hook =
    | DeviceInit        // deviceInit
    | QueueInit         // queueInit
    | CmdBufInit        // cmdBufInit
    | Present           // presentTexture
    | TexturePool       // setTexturePool
    | SamplerPool       // setSamplerPool
    | Crop              // setCrop
    | GetProcAddress    // getProc

  /** A function pointer as the host sees it. */
  datatype Ptr = Null | Address(addr: nat) | Wrapper(hook: Hook)

  /** The cached originals (the `temp...Func` globals). A global that was never written reads
      as null, since globals are zero-initialised. */
  type Originals = map<Hook, Ptr>

  function Original(originals: Originals, h: Hook): Ptr {
    if h in originals then originals[h] else Null
  }

  /** The driver entry point each wrapper stands in for. */
  function Name(h: Hook): string {
    match h
    case DeviceInit => "nvnDeviceInitialize"
    case QueueInit => "nvnQueueInitialize"
    case CmdBufInit => "nvnCommandBufferInitialize"
    case Present => "nvnQueuePresentTexture"
    case TexturePool => "nvnCommandBufferSetTexturePool"
    case SamplerPool => "nvnCommandBufferSetSamplerPool"
    case Crop => "nvnWindowSetCrop"
    case GetProcAddress => "nvnDeviceGetProcAddress"
  }

  /** Names substituted when resolved through the device's getProcAddress. */
  const DeviceHookedNames: set<string> := {
    "nvnQueueInitialize", "nvnCommandBufferInitialize", "nvnQueuePresentTexture",
    "nvnDeviceInitialize", "nvnCommandBufferSetSamplerPool", "nvnCommandBufferSetTexturePool",
    "nvnWindowSetCrop"
  }

  /** Names substituted when resolved through the bootstrap loader. */
  const BootstrapHookedNames: set<string> := {"nvnDeviceInitialize", "nvnDeviceGetProcAddress"}

  /** Outcome of one resolution: the updated cache and the pointer handed to the host. */
  datatype Resolved = Resolved(originals: Originals, ptr: Ptr)

  /** Substitute wrapper `h` for the driver pointer `ptr`, remembering `ptr` as its original. */
  function Substitute(originals: Originals, h: Hook, ptr: Ptr): Resolved {
    Resolved(originals[h := ptr], Wrapper(h))
  }

  /** `getProc`: the driver is always asked first, with the tracked device (the `device`
      argument is not used); then a chain of name comparisons decides whether to substitute. */
  function GetProc(originals: Originals, trackedDevice: Handle, device: Handle, name: string,
                   resolve: (Handle, string) -> Ptr): (r: Resolved)
    ensures name !in DeviceHookedNames ==> r == Resolved(originals, resolve(trackedDevice, name))
    ensures name in DeviceHookedNames ==>
              && r.ptr.Wrapper?
              && Name(r.ptr.hook) == name
              && r.originals == originals[r.ptr.hook := resolve(trackedDevice, name)]
  {
    var ptr := resolve(trackedDevice, name);
    if name == "nvnQueueInitialize" then Substitute(originals, QueueInit, ptr)
    else if name == "nvnCommandBufferInitialize" then Substitute(originals, CmdBufInit, ptr)
    else if name == "nvnQueuePresentTexture" then Substitute(originals, Present, ptr)
    else if name == "nvnDeviceInitialize" then Substitute(originals, DeviceInit, ptr)
    else if name == "nvnCommandBufferSetSamplerPool" then Substitute(originals, SamplerPool, ptr)
    else if name == "nvnCommandBufferSetTexturePool" then Substitute(originals, TexturePool, ptr)
    else if name == "nvnWindowSetCrop" then Substitute(originals, Crop, ptr)
    else Resolved(originals, ptr)
  }

  /** `NvnBootstrapHook`: only device initialisation and getProcAddress are substituted. */
  function Bootstrap(originals: Originals, name: string, origFn: string -> Ptr): (r: Resolved)
    ensures name !in BootstrapHookedNames ==> r == Resolved(originals, origFn(name))
    ensures name in BootstrapHookedNames ==>
              && r.ptr.Wrapper?
              && Name(r.ptr.hook) == name
              && r.originals == originals[r.ptr.hook := origFn(name)]
  {
    var result := origFn(name);
    if name == "nvnDeviceInitialize" then Substitute(originals, DeviceInit, result)
    else if name == "nvnDeviceGetProcAddress" then Substitute(originals, GetProcAddress, result)
    else Resolved(originals, result)
  }

  /** Every wrapper is named after a distinct entry point, so the name decides the wrapper. */
  lemma NameInjective(h1: Hook, h2: Hook)
    ensures Name(h1) == Name(h2) <==> h1 == h2
  {
  }

  /** The wrappers reachable through the device's getProcAddress are exactly the seven named
      there, and the bootstrap reaches exactly two; only device initialisation is shared. */
  lemma HookedNamesAreWrapperNames()
    ensures DeviceHookedNames == set h: Hook | h != GetProcAddress :: Name(h)
    ensures BootstrapHookedNames == {Name(DeviceInit), Name(GetProcAddress)}
    ensures DeviceHookedNames * BootstrapHookedNames == {Name(DeviceInit)}
  {
    var all := set h: Hook | h != GetProcAddress :: Name(h);
    assert Name(QueueInit) in all && Name(CmdBufInit) in all && Name(Present) in all;
    assert Name(DeviceInit) in all && Name(SamplerPool) in all && Name(TexturePool) in all;
    assert Name(Crop) in all;
    assert "nvnDeviceGetProcAddress" !in DeviceHookedNames;
  }

  /** Resolving one name leaves the cached original of every wrapper for another name alone. */
  lemma GetProcKeepsOtherOriginals(originals: Originals, trackedDevice: Handle, device: Handle,
                                   name: string, resolve: (Handle, string) -> Ptr, h: Hook)
    requires Name(h) != name
    ensures Original(GetProc(originals, trackedDevice, device, name, resolve).originals, h)
            == Original(originals, h)
  {
  }
}
