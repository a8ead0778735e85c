# vulkan-guide engine: ownership and ordering protocol

This project models the `VulkanEngine` of the vulkan-guide tutorial engine
(`src/vk_engine.h`, `src/vk_engine.cpp`) in Dafny. It proves facts about the
protocol wrapped around the Vulkan, SDL, vk-bootstrap and VMA calls:

- the order in which calls are made;
- which calls are guarded by `VK_CHECK`;
- what the deletion queue records, and in which order it releases it.

Vulkan handles are opaque integers. Every API call is an event appended to
a ghost call trace (`VulkanEngine.trace`). The `VkResult` of each call, and
every output of a foreign library, is an input to the model.

Modules:

- `Vulkan`: handles, `VkResult`, `VK_CHECK` (`Check`) and the call events.
- `DeletionQueues`: the `DeletionQueue` class (`push_func`, `flush`) and
  reversal lemmas.
- `ShaderLoader`: the size arithmetic of `load_shader_module`, both as
  written and corrected.
- `Input`: SDL events, `isKeyDown`, quit handling and the shader toggle.
- `Boot`: the call schedule of every `init_*` stage and the release tags
  each stage registers. It also proves the order in which a flush releases
  them.
- `Teardown`: the calls that running a release tag makes, against the
  engine's handles.
- `Frame`: one `draw` as data. It covers the twelve calls of a frame, where
  `VK_CHECK` cuts the frame short, and the CPU-visible state of the render
  fence.
- `Engine`: the `VulkanEngine` class with the source's fields, and the
  imperative methods `Init`, the `init_*` stages, `Cleanup`, `Draw`,
  `PollEvents` and `Run`.

`VK_CHECK` aborts the process. The model represents the abort as a
`Status.Abort(err)` result after which no further call is made.

## Model

| member | source | states |
|---|---|---|
| Vulkan.Check | src/vk_engine.cpp:21-30 | a result passes exactly when it is VK_SUCCESS; any other code, positive status codes such as VK_TIMEOUT included, aborts carrying that code |
| Vulkan.CutByCheckAppend | src/vk_engine.cpp:21-30 | calls that all passed their checks, followed by calls cut short at their first failed check (or not cut at all), are together cut at that same failed check |
| Vulkan.AbortPointUnique | src/vk_engine.cpp:21-30 | two prefixes of one call sequence that each end at their first failed checked call are the same prefix: the calls an abort leaves are fixed by the replies |
| DeletionQueues.DeletionQueue.constructor | src/vk_engine.h:17-18 | a new deletion queue holds no release actions |
| DeletionQueues.DeletionQueue.PushFunc | src/vk_engine.h:20-22 | the new action goes at the back; every earlier entry stays where it was |
| DeletionQueues.PushAll | src/vk_engine.h:20-22 | n pushes leave the n actions at the back in push order |
| DeletionQueues.DeletionQueue.Flush | src/vk_engine.h:24-28 | the actions run in exactly the reverse of push order, newest first, and the queue is empty afterwards |
| DeletionQueues.ReversedMultiset | src/vk_engine.h:25-26 | the flush runs every queued action exactly once: the run order is a permutation of the queue |
| DeletionQueues.ReversedAt | src/vk_engine.h:25 | the k-th action run is the k-th one counted from the back of the queue |
| DeletionQueues.ReversedAppend | src/vk_engine.h:25 | flushing a queue filled in two rounds runs the second round before the first |
| DeletionQueues.ReversedReversed | src/vk_engine.h:25 | the run order, reversed again, is the push order |
| DeletionQueues.FlushTwice | src/vk_engine.h:24-28 | a second flush with no push in between runs nothing and leaves the queue empty |
| Engine.VulkanEngine.constructor | src/vk_engine.h:34-39 | a fresh engine is not initialised, is at frame 0, has a 1700 x 900 window extent and no window, selects shader 0, and has an empty deletion queue and an empty call trace |
| Engine.VulkanEngine.InitVulkan | src/vk_engine.cpp:67-108 | the instance requires API 1.1 with the default debug messenger; the surface is created for the window; the GPU has minimum version 1.1 and can present to that surface; the device, graphics queue and family and allocator are stored; the allocator's release is pushed |
| Engine.VulkanEngine.InitSwapchain | src/vk_engine.cpp:110-129 | a FIFO swapchain of the window extent on the surface; its images, views and format are stored; its release is pushed |
| Engine.VulkanEngine.InitCommands | src/vk_engine.cpp:131-143 | the pool is resettable and on the graphics family; the buffer is allocated from that pool; a failing pool aborts before the buffer is allocated; the pool's release is pushed only when both calls succeed |
| Engine.VulkanEngine.InitDefaultRenderpass | src/vk_engine.cpp:145-182 | the render pass has the single cleared, stored colour attachment in the swapchain format, going from undefined to present layout; it is checked; its release is pushed only on success |
| Engine.VulkanEngine.CreateFramebufferAt | src/vk_engine.cpp:199-208 | framebuffer i is made with the view at index i, the window extent and one layer, and stored at index i; the release of framebuffer i and view i is pushed only when the call succeeds |
| Engine.VulkanEngine.InitFramebuffers | src/vk_engine.cpp:183-211 | one framebuffer slot per swapchain image; framebuffers are created in index order; the stage succeeds iff every creation succeeds; it stops at the first failure; slots not yet reached stay null; one release per created framebuffer is pushed, in index order |
| Boot.FramebufferScheduleAt | src/vk_engine.cpp:195-202 | call k of the framebuffer stage creates framebuffer k with exactly the view at index k, the window extent and one layer; the stage makes one call per image |
| Boot.FramebufferSchedulePrefix | src/vk_engine.cpp:199-202 | the calls for the first k images are a prefix of the calls for all of them |
| Boot.FramebufferScheduleChecked | src/vk_engine.cpp:199-202 | when every framebuffer creation succeeds, no call of the stage fails its check |
| Boot.FramebufferScheduleCut | src/vk_engine.cpp:195-208 | the creations for the first `made` images, when all but the last succeeded, end at their first failed check exactly when the last one failed, and with that call's result |
| Boot.FramebufferDeletorsAt | src/vk_engine.cpp:199-208 | the k-th framebuffer release pushed releases framebuffer and view k |
| Boot.FramebufferDeletorsBounded | src/vk_engine.cpp:205-208 | every framebuffer release pushed names an image below the image count |
| Engine.VulkanEngine.InitSyncStructures | src/vk_engine.cpp:213-228 | the fence is created signaled, then the present semaphore, then the render semaphore, each checked; a successful fence creation leaves the fence signaled whatever the semaphores return; on success the engine holds the three handles returned; their release is pushed only when all three succeed |
| Engine.VulkanEngine.LoadShaders | src/vk_engine.cpp:232-268 | the four shader loads in source order (red frag, red vert, triangle frag, triangle vert), each through the corrected loader into an uninitialised variable; a failed load is not fatal |
| Engine.PipelineBuilder.constructor | src/vk_engine.cpp:274 | a new builder has an empty stage list |
| Engine.VulkanEngine.BuildPipelines | src/vk_engine.cpp:274-315 | both builds use the one layout, the render pass and the same fixed-function state; the triangle pipeline gets [vertex, fragment] of the coloured pair; the stage list is cleared in between; the red pipeline gets [vertex, fragment] of the red pair |
| Engine.VulkanEngine.InitPipelines | src/vk_engine.cpp:231-327 | a failed shader load does not abort; a failing layout aborts right after the loads, and that layout call is the stage's first failed checked call; otherwise both builds happen, no call of the stage fails its check, the four modules are destroyed and the pipelines' release is pushed |
| Engine.VulkanEngine.BuildAndRelease | src/vk_engine.cpp:274-326 | once the layout exists: the two builds, then the four shader-module destroys, and the pipelines' release pushed at the back of the queue |
| Boot.PipelineScheduleCut | src/vk_engine.cpp:231-327 | the pipeline stage is cut by VK_CHECK only at its layout: with a good layout no call fails its check (a failed shader load is reported, not checked); with a bad one the stage's calls are the loads and the layout, ending in that failure |
| Boot.PipelineScheduleShape | src/vk_engine.cpp:271-320 | the stage builds exactly two pipelines, both on the one layout with exactly the stages [vertex, fragment]; the four shader-module destroys are its last four calls, after both builds, and no other call destroys a module |
| Boot.ShaderModulesDestroyedOnce | src/vk_engine.cpp:317-320 | when the four loads yield distinct modules, each module is destroyed exactly once |
| Boot.LoadCallsAreCreates | src/vk_engine.cpp:232-268 | the loads make only shader-module creations |
| Engine.VulkanEngine.InitDevice | src/vk_engine.cpp:43-53 | the window, init_vulkan and init_swapchain make their calls in order and push the allocator's release, then the swapchain's; the engine then holds the window, instance, debug messenger, surface, GPU, device, graphics queue and family, allocator, swapchain, image format, images and views that were handed back |
| Boot.StagesStep | src/vk_engine.cpp:52-61 | after stage j the trace either holds every stage's calls up to and including j with no failed checked call, or it is a prefix of them that ends in its first failed VK_CHECKed call, every earlier checked call (in earlier stages too) having passed; a failed shader-module creation is not such a call |
| Boot.StagesStart | src/vk_engine.cpp:36-52 | before the first stage the trace is unchanged and nothing has failed |
| Boot.StagesRanLater | src/vk_engine.cpp:52-61 | after an abort in stage j no later stage adds a call: the trace is the outcome of every later stage count |
| Engine.VulkanEngine.InitRenderTargets | src/vk_engine.cpp:54-57 | init_commands, init_default_renderpass and init_framebuffers run in order; the part succeeds iff every checked call in it succeeds; on success the engine holds the returned pool, command buffer and render pass, framebuffer i is the handle of the i-th framebuffer reply, and the releases of the pool, the render pass and framebuffers 0..n-1 are pushed in that order |
| Engine.VulkanEngine.FramebufferStage | src/vk_engine.cpp:57 | init_framebuffers as a start-up stage: its calls, or a prefix of them ending in the first failed framebuffer creation with every earlier one successful; on success framebuffer i is the handle of the i-th reply |
| Engine.VulkanEngine.PipelineStage | src/vk_engine.cpp:61 | init_pipelines as the last start-up stage: it succeeds iff the layout succeeds; its calls, or the loads and the failed layout; on success the engine holds both pipelines and their release is pushed |
| Engine.VulkanEngine.InitFrameResources | src/vk_engine.cpp:59-61 | init_sync_structures, then init_pipelines; the part succeeds iff the fence, both semaphores and the layout succeed; on success the fence is signaled, the engine holds the returned fence, semaphores, layout and both pipelines, and the sync release is pushed, then the pipelines'; the command pool, buffer, render pass and framebuffers are left as they were |
| Engine.VulkanEngine.InitResources | src/vk_engine.cpp:54-64 | the checked stages run in order; the initialised flag is set iff all of them succeed; on success the pushed releases are exactly the start-up registrations and the engine holds every handle those stages returned |
| Engine.VulkanEngine.InitKeepingDevice | src/vk_engine.cpp:54-64 | the stages after init_swapchain leave the window, Vulkan and swapchain handles exactly as init_vulkan and init_swapchain stored them |
| Engine.VulkanEngine.MarkInitialized | src/vk_engine.cpp:63-64 | once every stage has registered, each pushed release names a handle the engine holds; the engine is then initialised and valid, and no handle or the fence state changes |
| Engine.VulkanEngine.Init | src/vk_engine.cpp:36-65 | start-up succeeds iff every checked call succeeds; the initialised flag is set iff it succeeds; the trace is a prefix of the whole start-up schedule; on an abort the calls made end in the first failed VK_CHECKed call, every earlier checked call passed, and nothing follows; a failed shader-module creation is not an abort; on success the whole schedule ran, the fence is signaled, the engine holds every handle the start-up calls returned (so the handles its releases and `draw` read are those), and the deletion queue holds allocator, swapchain, command pool, render pass, framebuffer/view 0..n-1, sync objects, pipelines; start-up never breaks the fence discipline of an earlier trace |
| Engine.VulkanEngine.BootHandlesHeld | src/vk_engine.h:34-73 | an engine holding the handles of a start-up holds, for its releases and for `draw`, exactly the records built from that start-up's replies |
| Engine.BootRan | src/vk_engine.cpp:52-61 | the eight stages' outcome in terms of the whole start-up schedule: all of it on success, on an abort a prefix ending in its first failed VK_CHECKed call with no failed checked call before it, and no fence reset out of turn |
| Engine.BootKeepsDiscipline | src/vk_engine.cpp:36-65 | any prefix of the start-up schedule appended to a trace keeps every fence reset right after its wait |
| Boot.BootMakesNoFrameCalls | src/vk_engine.cpp:36-65 | start-up makes no frame call: no fence wait or reset, no acquire, submit or present |
| Boot.FlushOrder | src/vk_engine.cpp:52-61 | flushing the start-up registrations releases pipelines, then sync objects, then framebuffer/view n-1 down to 0, then render pass, command pool, swapchain, allocator |
| Boot.FramebufferDeletorsReversed | src/vk_engine.cpp:199-208 | the framebuffer releases run from image n-1 down to image 0 |
| Boot.TeardownPositions | src/vk_engine.cpp:329-336 | framebuffer/view k is released after the pipelines and sync objects and before the render pass, the command pool, the swapchain and the allocator |
| Teardown.ReleaseCalls | src/vk_engine.cpp:322-326 | each release tag makes one to three calls, and all of them are destroys |
| Teardown.NewestFirstIsReversed | src/vk_engine.h:24-28 | running a queue newest first makes the same calls as running its reversal in order |
| Teardown.InitLedgerReleasable | src/vk_engine.cpp:52-61 | with one framebuffer and one view per image, every release start-up pushes names an existing handle |
| Teardown.InitLedgerTeardown | src/vk_engine.cpp:329-336 | flushing the start-up registrations makes exactly the calls of the teardown order |
| Engine.VulkanEngine.RunReleases | src/vk_engine.h:24-26 | each release, run in turn against the current fields, appends its destroy calls |
| Engine.VulkanEngine.FlushLedger | src/vk_engine.cpp:335 | the engine's flush makes the destroy calls of every registered release, newest first, and leaves the queue empty |
| Engine.VulkanEngine.Cleanup | src/vk_engine.cpp:329-344 | an uninitialised engine makes no call and keeps its queue; an initialised one first waits on the fence (its result is not checked); it then flushes the queue newest first and destroys device, surface, debug messenger, instance and window in that order; after a successful start-up the flush follows the teardown order; shutdown keeps every fence reset right after its wait |
| Engine.VulkanEngine.ShutdownKeepsDiscipline | src/vk_engine.cpp:331-343 | the shutdown calls (the wait, the flush's destroys and the five final destroys) keep every fence reset right after its wait |
| Teardown.ReleaseNewestFirstDestroys | src/vk_engine.h:24-28 | flushing releasable entries makes only destroy calls |
| Engine.VulkanEngine.BeginFrame | src/vk_engine.cpp:348-353 | the fence wait (one second) comes first, then the fence reset, then the acquire, which signals the present semaphore; any failure aborts with nothing after it; the fence is signaled after the wait and unsignaled after the reset |
| Engine.VulkanEngine.RecordFrame | src/vk_engine.cpp:355-390 | the command buffer is reset and begun for one submission; the render pass is begun on the framebuffer at the acquired index; the selected pipeline is bound; 3 vertices and 1 instance are drawn; the pass and the buffer are ended; each checked call aborts on failure |
| Engine.VulkanEngine.SubmitFrame | src/vk_engine.cpp:391-428 | the submit waits on the present semaphore at colour-attachment output and signals the render semaphore and the fence; the present waits on the render semaphore and shows the acquired index; a successful submit leaves the fence pending |
| Engine.VulkanEngine.Draw | src/vk_engine.cpp:346-432 | the frame makes its calls up to and including the first failing checked call; its outcome is that call's result; the frame counter goes up by exactly 1 iff the frame completes; the fence state follows the calls made; a wait may only succeed on a fence that is signaled or pending |
| Frame.FrameSchedule | src/vk_engine.cpp:346-428 | a frame has twelve calls, all frame calls; the four recording commands between begin and end report no result, so cannot fail |
| Frame.StepsRun | src/vk_engine.cpp:349-428 | a frame makes between 1 and 12 calls; it reaches the present exactly when every checked call before it succeeded; a shorter frame is an aborted one |
| Frame.FrameStatus | src/vk_engine.cpp:349-428 | a frame is Ok exactly when all eight checked calls succeed; an abort carries a failure code |
| Frame.FenceAfter | src/vk_engine.cpp:349-411 | a failed wait leaves the fence as it was; after a successful wait the fence is pending exactly when the frame got as far as its submit, and it always exists |
| Frame.AbortIsFinal | src/vk_engine.cpp:346-432 | every call of a frame before its last succeeded; the last failed exactly when the frame aborts, and the abort carries its result; a frame succeeds iff every checked call succeeds, and then it makes all twelve calls |
| Frame.FrameProtocol | src/vk_engine.cpp:379-428 | a successful frame: wait and reset on the render fence first; render pass on the acquired framebuffer; the selected pipeline; 3 vertices and 1 instance; a submit waiting on the semaphore the acquire signalled and signalling the render semaphore and fence; a present waiting on that semaphore for the acquired index |
| Frame.FrameKeepsFenceDiscipline | src/vk_engine.cpp:349-350 | every fence reset comes right after a successful wait on the same fence, and a frame keeps this true of the whole trace |
| Frame.ResetFreeKeepsDiscipline | src/vk_engine.cpp:349-350 | appending any part of a call list without a fence reset keeps every fence reset right after a successful wait on the same fence |
| Frame.FenceCycle | src/vk_engine.cpp:349-411 | a completed frame leaves the fence pending, so the next frame's wait can succeed; a frame whose wait and reset succeed but which then aborts before its submit completes (at the acquire, the command-buffer reset, begin or end, or the submit) leaves a fence nothing will signal |
| Input.IsKeyDown | src/vk_engine.cpp:434-436 | only a key-down event can be a key-down of a key: no quit, key-up or other event qualifies |
| Input.KeyDownOfOneKey | src/vk_engine.cpp:434-436 | an event is a key-down of at most one key code |
| Input.OnlyKeyDownCounts | src/vk_engine.cpp:434-436 | a space key-down is not a quit; a key-up of any key, Escape included, is neither a quit nor a toggle |
| Input.Toggle | src/vk_engine.cpp:452-453 | the toggle always changes the selection, which stays in {0, 1} |
| Input.ToggledParity | src/vk_engine.cpp:452-453 | after n toggles from s the selection is (s + n) mod 2 |
| Input.ToggledAdd | src/vk_engine.cpp:452-453 | toggling a times and then b times is toggling a + b times |
| Input.FirstQuitSpec | src/vk_engine.cpp:443-455 | the first quit batch holds a quit event and no earlier batch does |
| Input.RunLength | src/vk_engine.cpp:443-458 | the loop runs at most as many iterations as there are batches |
| Input.RunLengthBound | src/vk_engine.cpp:443-458 | with no quit in the first i batches the loop runs at least i iterations, and all of them when no batch quits |
| Engine.VulkanEngine.PollEvents | src/vk_engine.cpp:446-455 | the stop is requested iff some event of the batch is a window quit or an Escape key-down; the selection is toggled once per Space key-down |
| Engine.VulkanEngine.Iterate | src/vk_engine.cpp:443-457 | one iteration polls the whole batch, then draws one frame with the selection after that batch; a completed frame leaves the fence pending; the fence discipline is kept |
| Engine.RunControlStep | src/vk_engine.cpp:443-458 | after one more iteration: no earlier batch quit, the last frame's outcome is the status, and the iteration count stays within the loop's length |
| Engine.VulkanEngine.RunStep | src/vk_engine.cpp:443-458 | one iteration of the main loop keeps the loop invariant: frame count, selection, trace, fence discipline and a ready fence while no frame has aborted |
| Engine.VulkanEngine.RunLoop | src/vk_engine.cpp:443-458 | the loop leaves the draw handles unchanged; it stops after the batch that requests the stop, after an aborted frame, or when the input runs out |
| Engine.VulkanEngine.RunDone | src/vk_engine.cpp:443-458 | when the loop stops without an abort it has run exactly the loop's length |
| Engine.VulkanEngine.Run | src/vk_engine.cpp:437-459 | without an abort, the loop runs up to and including the first batch that quits (that frame is still drawn), or through all batches; an abort stops it at the failed frame; the frame counter counts completed frames; the selection is toggled once per space press polled; the trace is the frames' calls in order; the fence discipline is kept; starting from a ready fence (as `init` leaves it), every frame's wait is on a fence that can be signaled, and a run without an abort leaves the fence ready again |
| ShaderLoader.WordCount | src/vk_engine.cpp:467-468 | the buffer holds the largest number of whole 32-bit words that fits in the file |
| ShaderLoader.CodeSize | src/vk_engine.cpp:478 | the code size is a multiple of 4, at most the file size and less than 4 below it; it equals the file size iff the size is a multiple of 4 |
| ShaderLoader.ReadInBoundsIff | src/vk_engine.cpp:468-471 | reading the whole file into the buffer stays in bounds iff the file size is a multiple of 4 |
| ShaderLoader.LoadShaderModuleAsWritten | src/vk_engine.cpp:462-488 | fails when the file does not open or creation fails; writes the output module only on success; passes the word-truncated code size |
| ShaderLoader.AsWrittenOverrunWitness | src/vk_engine.cpp:467-478 | a 6-byte file overruns the 4-byte buffer, and the load still reports success with code size 4 |
| ShaderLoader.LoadShaderModule | src/vk_engine.cpp:462-488 | succeeds iff the file opens, its size is a positive multiple of 4 and creation succeeds; writes the output module only on success; any call it makes passes a positive code size and reads in bounds; on such files it agrees with the loader as written |
| ShaderLoader.EmptyFileAsWritten | src/vk_engine.cpp:467-482 | as written, an empty file is read in bounds and reaches the driver with code size 0, and loads iff the driver accepts it |
| ShaderLoader.EmptyFileRejected | src/vk_engine.cpp:467-482 | the corrected loader refuses an empty file without calling the driver and leaves the output variable untouched |

## Left out

- SDL (window creation and `SDL_PollEvent`) is not modelled. Its window handle is an input, and the events polled in each iteration are an input batch.
- vk-bootstrap and VMA are not modelled. Their outputs are inputs: instance, messenger, surface, GPU, device, queue and family, allocator, swapchain, images and views. `BootReplies.WellFormed` assumes one view and one framebuffer reply per image.
- The `vkinit::*` helpers and `PipelineBuilder::build_pipeline` are not part of this model. A build is one call event that carries its layout, render pass, stages and fixed-function state. The builder's result is an input.
- GPU execution of fences and semaphores is not modelled, because it is asynchronous hardware. Only the CPU-visible fence state (`FenceState`) and the order of calls are modelled.
- Floating-point values are not modelled: the clear-colour flash (`sin` of the frame number) and the viewport floats. The viewport and scissor are kept as the window extent.
- File I/O in `load_shader_module` is not modelled. A file is either unopenable or a byte length, and console output is dropped.
- The mesh declarations (`load_meshes`, `upload_mesh`, `_meshPipeline`, `_triangleMesh`) are not modelled. They have no implementation in the engine files.
- Debug-messenger and validation-layer setup are not modelled beyond the handle they yield.
- Engine.VulkanEngine.Draw: the contract assumes a successful acquire returns an index below the swapchain image count. The Vulkan specification guarantees this for `vkAcquireNextImageKHR`, so the model takes it as given, and `Run` requires it of its frame replies.
- Engine.VulkanEngine.Draw: `_frameNumber` is a C++ `int`, but the model counts frames with an unbounded integer, so signed overflow after 2^31 - 1 frames is not modelled.
- Engine.VulkanEngine.Init: `Valid()` is stated only when start-up succeeds, because `VK_CHECK` ends the process on a failure and no later state is observable.
- Engine.VulkanEngine.Run: the loop runs over finite input (one event batch and one set of frame replies per iteration), not an unbounded session. `drawn`, the number of iterations, is ghost.
- Engine.VulkanEngine.Iterate: the contract does not restate `Valid()`. The same holds for `RunStep` and `RunLoop`. None of the three changes a field that `Valid()` reads, and `Run` ensures `Valid()` again.
- Engine.VulkanEngine.LoadShaders: it uses the corrected loader (see Findings). For a file whose size is 0 or not a multiple of 4, the source still calls `vkCreateShaderModule` with the truncated code size and may load a module. The model instead refuses without a call and leaves the variable uninitialised, and that value then reaches both builds and a destroy.
- Engine.VulkanEngine.Draw: the wait reply is an input. The model only requires that a reported successful wait is on a fence that is signaled or pending (`FrameReady`); the one-second timeout itself is not modelled, so a wait on a ready fence may still report a timeout.
- `_selectedShader` is a file-scope global in the source. The model keeps it as an engine field, since only the engine reads or writes it.

## Findings

| source | as written | input that shows it | evidently intended | confidence | as-written member | corrected member |
|---|---|---|---|---|---|---|
| src/vk_engine.cpp:467-471 | `fileSize` bytes are read into a buffer of `fileSize / 4` 32-bit words, so a file whose size is not a multiple of 4 is written past the end of the buffer | a 6-byte SPIR-V file: 6 bytes are read into a 4-byte buffer, and the module is created from 4 bytes and reported loaded | reject a file whose size is not a whole number of words before reading it | not executed | ShaderLoader.AsWrittenOverrunWitness | ShaderLoader.LoadShaderModule |
| src/vk_engine.cpp:467-482 | an empty file passes the size checks and `vkCreateShaderModule` is called with `codeSize` 0, which the Vulkan specification's valid usage for `VkShaderModuleCreateInfo` forbids (`codeSize` must be greater than 0) | a zero-length shader file | refuse an empty file before calling the driver | not executed | ShaderLoader.EmptyFileAsWritten | ShaderLoader.LoadShaderModule |
