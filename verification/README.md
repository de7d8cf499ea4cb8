# imgui-xeno: a verified model of the NVN overlay core

imgui-xeno draws an ImGui overlay on top of a Nintendo Switch game. It does this by
intercepting the game's NVN graphics driver entry points. This project models the
sequential decision logic of that overlay as pure Dafny functions over immutable records.
Every driver call becomes an event in an ordered trace. The model covers:

- **Symbol interception.** `getProc` and `NvnBootstrapHook` map an entry-point name to the
  driver's own pointer or to a wrapper, and cache the driver's pointer as the wrapper's
  "original" (module `Intercept`).
- **Command-buffer capture.** `cmdBufInit` counts command-buffer creations until the
  configured one, captures that buffer and runs `InitImGui` once. The host always receives
  the driver's own result (module `Overlay`, proofs in `OverlayProofs`).
- **Frame-boundary hook.** `presentTexture` ends the host's recording, lets the overlay draw,
  restores the host's saved texture and sampler pools in a submitted recording, reopens the
  host's recording and forwards the present. `setTexturePool`, `setSamplerPool` and `setCrop`
  save the host's bindings or resize the display on the way through (module `Overlay`).
- **Draw-list submission.** `renderDrawData` has early exits and grow-only vertex and index
  buffers. It keeps running byte offsets across command lists, skips commands whose clip
  rectangle is degenerate, and does not re-bind a texture that is already bound. It records
  and submits one command stream per frame (module `Submit`, proofs in `SubmitProofs`).
- **Callback registries.** `addDrawFunc` and `addInitFunc` keep ordered queues and reject
  duplicates (module `Registry`).
- **Layout arithmetic.** `setupFont` carves and page-aligns the descriptor pool (module
  `PoolLayout`). `createQuad` builds the six-vertex debug quad (module `Geometry`).
- **Debug texture-id selector.** `texIDSelector` is a counter state machine (module
  `TexSelector`).

The trace vocabulary and its reference definitions live in module `Driver`:

- the command-buffer recording protocol `Run`, which checks begin, end and submit on each
  buffer;
- the last pool bound on a buffer;
- `Select`, the projection of a trace onto one kind of event.

The draw-list reference definitions live in module `DrawLists`:

- `PlacedFrom`, the flattened command order;
- `Visible`, the visibility filter;
- `Dedup`, run-length de-duplication;
- `Sum`, running sums.

Most properties compare what the code emits against one of these independent definitions.

Conventions of the model:

- GPU objects, windows and command buffers are opaque handles (`nat`, with 0 for null).
- What foreign code reports becomes a parameter. This covers allocator readiness, pool and
  texture creation, shader setup, the draw data ImGui produces, and the value the original
  entry point returns.
- The overlay's `hasInitImGui` flag is represented by `imgui: Option<Renderer>`: the renderer
  is present exactly when initialisation succeeded.
- A present made before the host has bound a texture pool dereferences a null command buffer
  in the source. It is modelled as the failure `NullCommandBuffer`.
- Registering a callback twice trips an assertion in the source. It is modelled as the
  failure `AlreadyQueued`.

Behaviours of the code worth noting:

- **Null pointers.** For a hooked name, `getProc` caches whatever the driver returned (null
  included) and still hands out the wrapper. It does not pass a null through.
- **Re-caching.** The cached original is overwritten on every lookup of a hooked name.
- **Resolution.** `getProc` always resolves through the getProcAddress original cached by
  the bootstrap, with the device last seen by `deviceInit`, whatever device the host passes.
- **Crop.** `setCrop` sets the display size to the crop's extent `(w - x, h - y)`.
- **Pool binds.** The backend's own pool binds go through the driver's C++ procs, which are
  loaded with the original getProcAddress (`deviceInit`, `imgui_nvn.cpp:89`). They are plain
  driver calls (`Issue`), not calls through the overlay's wrappers (`Forward`), so they do
  not overwrite the host's saved pools.
- **Test-shader projection.** The test-shader path uploads the projection that was last
  computed, not one for the current display size.
- **texIDSelector.** `texIDSelector` is defined but never called in the source, so its model
  stands alone.

## Model

| member | source | states |
|---|---|---|
| Geometry.EnsureCapacity | src/imgui_backend/imgui_impl_nvn.cpp:622-650 | after the check the buffer holds at least the required bytes and never less than before; the buffer is kept exactly when it exists and is large enough, otherwise a fresh allocation's readiness is what the allocator reported |
| Geometry.EnsureEachGrowOnly | src/imgui_backend/imgui_impl_nvn.cpp:622-650 | over any series of frames capacity never shrinks and covers every requirement seen; a series that never exceeds the current capacity reallocates nothing |
| Geometry.QuadVertices | src/imgui_backend/imgui_impl_nvn.cpp:132-172 | the quad is six vertices of one colour, each at the origin plus its 0/1 texture coordinate times the extent, covering all four corners, with vertices 0/5 and 2/3 shared between the two triangles |
| Geometry.QuadWinding | src/imgui_backend/imgui_impl_nvn.cpp:164-171 | both triangles of the quad wind the same way and each covers half of the width-by-height rectangle |
| Geometry.CreateQuad | src/imgui_backend/imgui_impl_nvn.cpp:132-172 | the six slots from the start index hold the quad and every other vertex is unchanged |
| SubmitProofs.TestShaderWritesCreatedQuad | src/imgui_backend/imgui_impl_nvn.cpp:196-209 | the debug path writes at the start of the vertex buffer exactly what createQuad leaves in slots 0-5 for the display-centred 3x3 white quad, whatever the buffer held |
| Geometry.QuadOrigin | src/imgui_backend/imgui_impl_nvn.cpp:202-208 | the debug quad's origin is half the display extent minus the scale of 3, truncated toward zero by the float-to-int conversion |
| Intercept.GetProc | src/imgui_backend/imgui_nvn.cpp:115-142 | a name outside the seven hooked names returns the driver's pointer (resolved with the tracked device) and caches nothing; a hooked name returns the wrapper named after it and caches the driver's pointer as that wrapper's original |
| Intercept.Bootstrap | src/imgui_backend/imgui_nvn.cpp:153-168 | only nvnDeviceInitialize and nvnDeviceGetProcAddress are substituted and cached; every other name passes through with the cache untouched |
| Intercept.NameInjective | src/imgui_backend/imgui_nvn.cpp:118-139 | the name comparisons pick out a distinct wrapper for each hooked name |
| Intercept.HookedNamesAreWrapperNames | src/imgui_backend/imgui_nvn.cpp:115-168 | getProc substitutes exactly the seven wrappers other than getProcAddress itself, the bootstrap exactly two, and only device initialisation is substituted by both |
| Intercept.GetProcKeepsOtherOriginals | src/imgui_backend/imgui_nvn.cpp:115-142 | resolving one name never changes the original cached for a wrapper of another name |
| Registry.Add | src/imgui_backend/imgui_nvn.cpp:170-181 | a callback already queued is refused; otherwise it is appended at the end and the queue stays duplicate-free |
| Registry.AddAllOrder | src/imgui_backend/imgui_nvn.cpp:170-181 | from a duplicate-free queue, registering a series succeeds exactly when the combined queue is duplicate-free, and then the queue is the old one followed by the series in registration order |
| PoolLayout.AlignUp | src/imgui_backend/imgui_impl_nvn.cpp:292 | the aligned size is a multiple of 0x1000 and lies within one page above the requested size |
| PoolLayout.AlignUpLeast | src/imgui_backend/imgui_impl_nvn.cpp:292 | no smaller page multiple covers the requested size |
| PoolLayout.SetupFont | src/imgui_backend/imgui_impl_nvn.cpp:275-369 | setup succeeds exactly when all six creation steps succeed, and otherwise reports the first step that failed; on success the sampler descriptors start at 0, the texture descriptors follow them, the page-aligned pool covers both, the font pool covers the atlas bytes, and font texture and sampler sit in slot 257 |
| PoolLayout.DescriptorRangesDisjoint | src/imgui_backend/imgui_impl_nvn.cpp:290-305 | the sampler and texture descriptor ranges never share a byte and both lie inside the descriptor pool |
| Backend.InitBackend | src/imgui_backend/imgui_impl_nvn.cpp:432-478 | the renderer is ready exactly when the shader binary is non-empty, shader setup succeeds and font setup succeeds; it is ready exactly when it holds a font layout; it keeps the given device, queue and command buffer and starts at the 1600x900 display with no geometry buffers |
| DrawLists.Place | src/imgui_backend/imgui_impl_nvn.cpp:691-725 | every command of one list is kept, in order, and placed at that list's index bytes |
| DrawLists.SumPrefixMonotone | src/imgui_backend/imgui_impl_nvn.cpp:730-731 | the running offsets never decrease from one list to the next |
| Submit.CmdEvents | src/imgui_backend/imgui_impl_nvn.cpp:693-728 | a command emits nothing exactly when its clip is degenerate; otherwise the texture it leaves bound is its own |
| Submit.RenderTestShader | src/imgui_backend/imgui_impl_nvn.cpp:174-224 | the debug path grows the vertex buffer to hold the six-vertex quad without shrinking it, touches nothing else of the renderer, and records something exactly when the buffer is ready |
| Submit.RenderDrawData | src/imgui_backend/imgui_impl_nvn.cpp:592-737 | invalid draw data, no lists or an uninitialised backend produce no event and change nothing; otherwise both buffers cover the totals without shrinking, a buffer that is not ready ends the frame with no event, and a recorded frame starts with the preamble for the current display and ends with end-and-submit |
| SubmitProofs.CmdsRendered | src/imgui_backend/imgui_impl_nvn.cpp:693-728 | one list's commands issue viewport, scissor and draw for exactly its visible commands, in order |
| SubmitProofs.CmdsBinds | src/imgui_backend/imgui_impl_nvn.cpp:716-721 | one list binds the textures of its visible commands with runs of the bound handle collapsed, and leaves bound the last visible texture |
| SubmitProofs.ListsRendered | src/imgui_backend/imgui_impl_nvn.cpp:676-732 | lists from any position, started at the index bytes of the earlier lists, issue viewport, scissor and draw for their visible commands in the flattened order |
| SubmitProofs.ListsBinds | src/imgui_backend/imgui_impl_nvn.cpp:673-732 | lists from any position bind the textures of their visible commands de-duplicated against the handle carried in from the earlier lists |
| SubmitProofs.FrameDraws | src/imgui_backend/imgui_impl_nvn.cpp:704-727 | a recorded frame issues viewport, scissor and one draw for exactly the commands with a non-degenerate clip, in list then command order; each draw reads at its own index offset times 2 plus the index bytes of all earlier lists, with its own base vertex |
| SubmitProofs.FrameTextureBinds | src/imgui_backend/imgui_impl_nvn.cpp:673-721 | a recorded frame binds a texture exactly when a rendered command's handle differs from the last bound one, starting from handle 0 and carrying across lists (that each draw runs under its own command's texture is SubmitBindings.FrameDrawBindings) |
| SubmitBindings.ExpectedFollowsPlaced | src/imgui_backend/imgui_impl_nvn.cpp:676-724 | the per-list reference of draws with their bindings lists exactly the visible commands in the flattened order, each with its own texture |
| SubmitBindings.CmdsContexts | src/imgui_backend/imgui_impl_nvn.cpp:691-724 | within one list, every draw runs under its own command's texture and the list's vertex slice, and the list leaves bound the texture it reports |
| SubmitBindings.ListsContexts | src/imgui_backend/imgui_impl_nvn.cpp:673-732 | lists from any position, with any texture carried in, draw exactly the reference: each draw under its own command's texture and its own list's vertex slice |
| SubmitBindings.FrameDrawContexts | src/imgui_backend/imgui_impl_nvn.cpp:660-737 | folding the frame's binds over its trace, the draws with the texture and vertex slice in force at each are exactly the reference |
| SubmitBindings.FrameDrawBindings | src/imgui_backend/imgui_impl_nvn.cpp:673-727 | at any trace position holding a draw, counting the draws before it as k, the draw is that of the k-th visible command, the last texture bound before it (or handle 0) is that command's texture, and the last vertex slice bound is its list's |
| SubmitBindings.ExpectedSlices | src/imgui_backend/imgui_impl_nvn.cpp:682-685 | every draw of the reference runs under the vertex slice of one of the lists |
| SubmitProofs.SameTextureBindsOnce | src/imgui_backend/imgui_impl_nvn.cpp:716-727 | two visible commands on one texture bind it once and draw twice |
| SubmitProofs.DegenerateDrawsNothing | src/imgui_backend/imgui_impl_nvn.cpp:704-709 | a frame whose only command has a degenerate clip issues no viewport, scissor, bind or draw, but still begins recording |
| SubmitProofs.FrameSlices | src/imgui_backend/imgui_impl_nvn.cpp:672-731 | each list binds and copies its vertices and copies its indices at the byte sizes of all earlier lists, once per list, in list order |
| SubmitProofs.FrameCopiesFit | src/imgui_backend/imgui_impl_nvn.cpp:622-689 | when the draw data's totals equal the per-list sums, every vertex and index copy stays within the buffer it writes to |
| SubmitProofs.FrameRecordsOnce | src/imgui_backend/imgui_impl_nvn.cpp:660-736 | a recorded frame begins recording first and ends and submits last, with no other begin, end or submit |
| SubmitProofs.FrameProtocol | src/imgui_backend/imgui_impl_nvn.cpp:592-737 | on every path (early exit, debug quad or geometry) the overlay's command buffer is left closed when it was closed, is never ended or submitted out of turn, and every other command buffer is untouched |
| TexSelector.Press | src/imgui_backend/imgui_impl_nvn.cpp:93-119 | a button steps on a press, or on a hold once its counter passes 30; a hold counts, a release resets the counter and a press keeps it |
| TexSelector.Step | src/imgui_backend/imgui_impl_nvn.cpp:86-127 | one frame moves the id by at most one: up for Right, down for Left; each counter counts while held and resets on release |
| TexSelector.HoldLeftRepeats | src/imgui_backend/imgui_impl_nvn.cpp:93-104 | holding Left for n frames lowers the id once for every frame whose counter passes 30 and advances the down counter by n |
| TexSelector.HoldLeftFromRest | src/imgui_backend/imgui_impl_nvn.cpp:93-104 | from a reset counter, the first 30 frames of holding do nothing and every later frame steps once |
| Overlay.SetTexturePoolHook | src/imgui_backend/imgui_nvn.cpp:37-42 | the host's command buffer and texture pool are saved, nothing else changes, and the call is forwarded to the cached original |
| Overlay.SetSamplerPoolHook | src/imgui_backend/imgui_nvn.cpp:44-48 | only the host's sampler pool is saved and the call is forwarded to the cached original |
| Overlay.SetCropHook | src/imgui_backend/imgui_nvn.cpp:50-58 | the crop is always forwarded; only once the overlay is up does the display size become (w - x, h - y), and nothing else changes |
| Overlay.DeviceInitHook | src/imgui_backend/imgui_nvn.cpp:86-91 | the call is forwarded, the device is tracked, and the host receives the original's result |
| Overlay.QueueInitHook | src/imgui_backend/imgui_nvn.cpp:93-97 | the call is forwarded, the queue is tracked, and the host receives the original's result |
| Overlay.InitImGui | src/imgui_backend/imgui_nvn.cpp:209-266 | initialisation succeeds exactly when device, queue and command buffer are all non-null; it then holds a renderer built from those three and runs every init callback once in registration order; on failure nothing changes and nothing runs |
| Overlay.CmdBufInitHook | src/imgui_backend/imgui_nvn.cpp:100-113 | the creation is forwarded first and the host always receives the original's result; once the overlay is up nothing changes; before that the counter advances, and the buffer whose pre-increment count equals the configured id is captured and starts initialisation |
| Overlay.ProcDraw | src/imgui_backend/imgui_nvn.cpp:183-197 | the draw callbacks run in queue order before the frame's draw data is rendered |
| Overlay.PresentHook | src/imgui_backend/imgui_nvn.cpp:60-84 | a present fails exactly when no host command buffer was saved; otherwise the saved buffer and pools are left as at entry, the overlay stays up or down, the trace opens by ending the host's recording and closes by forwarding the present |
| Overlay.GetProcHook | src/imgui_backend/imgui_nvn.cpp:115-142 | resolution calls the cached getProcAddress original with the tracked device and changes only the cache, never the getProcAddress original itself; a hooked name yields its wrapper with the answer cached as its original, any other name yields the answer and changes nothing |
| Overlay.BootstrapHook | src/imgui_backend/imgui_nvn.cpp:153-168 | the bootstrap changes only the cache and substitutes only device initialisation and getProcAddress |
| Overlay.AddDrawFunc | src/imgui_backend/imgui_nvn.cpp:170-175 | a draw callback already queued is refused; otherwise it is appended and nothing else changes |
| Overlay.AddInitFunc | src/imgui_backend/imgui_nvn.cpp:177-181 | an init callback already queued is refused; otherwise it is appended and nothing else changes |
| OverlayProofs.CaptureAtId | src/imgui_backend/imgui_nvn.cpp:100-113 | over any series of creations before the overlay is up, the buffer at the configured index is captured and the overlay comes up exactly when device, queue and that buffer are non-null; counting stops after a success and goes on after a failure with no later capture; if the index is never reached nothing is captured (over series of any entry points: ApplyAllComesUpAtId and ApplyAllPassed) |
| OverlayProofs.CaptureFromStart | src/imgui_backend/imgui_nvn.cpp:100-113 | from load time, the overlay captures the configured creation and comes up exactly when device, queue and that buffer are non-null |
| OverlayProofs.ApplyLatched | src/imgui_backend/imgui_nvn.cpp:100-113 | once the overlay is up, no entry point takes it down, moves the counter or the captured buffer, or points the renderer at another device, queue or command buffer |
| OverlayProofs.ApplyAllLatched | src/imgui_backend/imgui_nvn.cpp:100-113 | the same holds over any series of entry points |
| OverlayProofs.ApplyBeforeUp | src/imgui_backend/imgui_nvn.cpp:100-113 | before the overlay is up, any entry point advances the counter by at most one, and only the creation at the configured index captures a buffer or brings the overlay up |
| OverlayProofs.ApplyAllPassed | src/imgui_backend/imgui_nvn.cpp:100-113 | once the counter has passed the configured index with the overlay down, no series of entry points of any kind brings it up or captures another buffer |
| OverlayProofs.ApplyAllComesUpAtId | src/imgui_backend/imgui_nvn.cpp:100-113 | from before the configured index, under any series of entry points, the overlay can only be up after exactly the configured creation, and until then nothing is captured |
| OverlayProofs.FailedCaptureIsFinal | src/imgui_backend/imgui_nvn.cpp:100-113 | a failed initialisation at the configured creation is final under any later entry points: the overlay stays down and keeps that buffer |
| OverlayProofs.ApplyAllKeepsQueuesDistinct | src/imgui_backend/imgui_nvn.cpp:170-181 | no series of entry points ever puts a callback into a queue twice |
| OverlayProofs.DrawCallbacksInOrder | src/imgui_backend/imgui_nvn.cpp:170-193 | registering draw callbacks succeeds exactly when none repeats, and a frame then runs them in registration order before rendering |
| OverlayProofs.PresentRestoresPools | src/imgui_backend/imgui_nvn.cpp:37-84 | after a present, the last texture and sampler pools bound on the host's command buffer are the host's own, whatever the overlay bound while drawing |
| OverlayProofs.PresentRecording | src/imgui_backend/imgui_nvn.cpp:60-84 | a present leaves the host's buffer recording as it found it, with no protocol violation; the overlay's own buffer is left closed; every other buffer is untouched |
| OverlayProofs.PresentRunsCallbacks | src/imgui_backend/imgui_nvn.cpp:60-84 | a present runs the draw callbacks once each, in queue order, exactly when the overlay is up, and none otherwise |
| OverlayProofs.CropSetsNextProjection | src/imgui_backend/imgui_nvn.cpp:50-84 | once the overlay is up, a crop sets the display to the crop's extent and the next present that renders geometry projects to (w - x, h - y) |
| OverlayProofs.PresentForwardsToDriver | src/imgui_backend/imgui_nvn.cpp:60-124 | after the host resolves nvnQueuePresentTexture through the overlay, its presents end in the driver's own present, as the cached getProcAddress answered it for the tracked device |
| OverlayProofs.ResolutionKeepsOtherForwards | src/imgui_backend/imgui_nvn.cpp:115-142 | resolving any other name never changes where a present is forwarded |
| OverlayProofs.ResolvesThroughBootstrapped | src/imgui_backend/imgui_nvn.cpp:115-164 | after the loader hands out the overlay's getProcAddress, every resolution goes through the function the loader answered: unhooked names come back as it answers them, hooked names as wrappers forwarding there |

## Left out

- GPU and driver objects are opaque handles and trace events. This covers memory pools,
  shader programs, textures, samplers, the uniform buffer and the render-state builders,
  whose behaviour lies in the driver.
- Shader loading is left out. `createShaders` reduces to "the binary is non-empty", and the
  outcome of `setupShaders` is a parameter. Binary-header offsets and allocation are foreign
  data formats.
- Backend.InitBackend: does not model `initTestShader`, which runs before `setupShaders`
  when `isUseTestShader` is set (`imgui_impl_nvn.cpp:466-467`) and compiles a shader at run
  time; its three assertions (`imgui_impl_nvn.cpp:64`, `:78`, `:79`) abort the whole process
  when the shader memory, program or shader binding fails, and that abort is not modelled.
- Floating point is left out: the `orthoRH_ZO` projection matrix (recorded only as the
  display size it was computed for), `ImVec2` positions and the float-to-int scissor casts.
  Clip rectangles and vertex positions are integers. The one truncation that matters, the
  debug quad's origin, is written out in `Geometry.QuadOrigin`.
- ImGui internals are left out: `NewFrame`, `Render`, font-atlas generation and the draw
  data. The draw data is an input to each frame.
- Callbacks are left out. They are opaque and appear in the trace as a single event each;
  what they draw or register is not modelled.
- The start of `procDraw` is left out (`newFrame`, `ImGui::NewFrame` and the mouse-cursor
  toggle), because it is input handling and ImGui state.
- Input polling, ini load/save, filesystem access and logging are left out as I/O. In
  `TexSelector` the button state is a per-frame input.
- `nvnLoadCPPProcs` in `deviceInit` is left out, because it is a foreign call.
- GPU timing is left out: fences, and freeing a resized buffer while the GPU may still read
  it. The model is CPU-sequential.
- C integer widths are left out. Sizes, counters and offsets are unbounded; the source's
  `int` counter and `size_t` byte sizes do not overflow in any realistic frame.
- The draw-demo build switch (`IMGUI_XENO_DRAW_DEMO`) is left out, because it only adds a
  callback.
- The constants defined in headers that are not part of this model are parameters:
  `MaxSampDescriptors`, `MaxTexDescriptors`, `IMGUI_XENO_COMMAND_BUFFER_ID` and the
  backend's `isUseTestShader` switch.
- The two backend-initialisation assertions are left out. They are unreachable under the
  `Option` representation of `hasInitImGui`.
- `InstallHooks` (empty) and `disableButtons` (input masking) are left out.
- Overlay.PresentHook: its own contract states only the state and the first and last
  events. The full event order and its consequences are stated in the `OverlayProofs`
  lemmas: pools restored, recording protocol, callbacks and forwarding.
- Overlay.GetProcHook: calling through a null cached getProcAddress (a lookup before the
  bootstrap handed out the overlay's own) crashes the source; the model instead answers with
  whatever `call` gives for the null pointer.
