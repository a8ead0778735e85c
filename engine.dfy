/** The engine object: its fields, the init stages that fill them and register
    their teardown, `cleanup`, `draw` and the main loop `run`. Every Vulkan,
    SDL, vk-bootstrap and VMA call is appended to the ghost `trace`; the
    replies of those calls are inputs. */
module Engine {
  import opened Vulkan
  import opened DeletionQueues
  import opened ShaderLoader
  import opened Input
  import opened Boot
  import opened Frame
  import opened Teardown

  /** The part of the pipeline builder's state that `init_pipelines` sets:
      the shader stage list and the fixed-function description. */
  class PipelineBuilder {
    var shaderStages: seq<ShaderStage>
    var fixed: FixedFunction
    var pipelineLayout: Handle

    constructor ()
      ensures shaderStages == []
    {
      shaderStages := [];
    }
  }

  /** The calls of the first `n` iterations of `run` when none of them
      aborts: frame `k` binds the variant that the space key-downs of batches
      `0..k` have toggled `s0` to. */
  ghost function RunCalls(h: DrawHandles, s0: ShaderIndex, batches: seq<seq<Event>>, frames: seq<FrameReplies>, n: nat): seq<Call>
    requires n <= |batches| && n <= |frames|
  {
    if n == 0 then []
    else RunCalls(h, s0, batches, frames, n - 1) +
         FrameCalls(ContextFor(h, Toggled(s0, TotalSpaces(batches[..n])), frames[n - 1].imageIndex), frames[n - 1])
  }

  /** The loop's control after `i` iterations: no batch before the last one
      polled asked to stop, `quit` says whether that one did, every frame but
      the last one drawn succeeded, and `status` is the last frame's outcome. */
  ghost predicate RunControl(batches: seq<seq<Event>>, frames: seq<FrameReplies>, i: nat, quit: bool, status: Status)
  {
    i <= |batches| == |frames| &&
    (!quit ==> forall k :: 0 <= k < i ==> !QuitRequested(batches[k])) &&
    (quit ==> 0 < i && RunLength(batches) == i) &&
    i <= RunLength(batches) &&
    (forall k :: 0 <= k < i - 1 ==> FrameStatus(frames[k]).Ok?) &&
    (if i == 0 then status == Ok else status == FrameStatus(frames[i - 1]))
  }

  /** Polling batch `i` and drawing frame `i` moves the control on by one
      iteration. */
  lemma RunControlStep(batches: seq<seq<Event>>, frames: seq<FrameReplies>, i: nat, quit: bool, status: Status)
    requires RunControl(batches, frames, i, false, Ok) && i < |batches|
    requires (quit <==> QuitRequested(batches[i])) && status == FrameStatus(frames[i])
    ensures RunControl(batches, frames, i + 1, quit, status)
  {
    if quit {
      FirstQuitAt(batches, i);
    } else {
      RunLengthBound(batches, i + 1);
    }
  }

  /** One more iteration extends the run's calls by that frame's calls. */
  lemma RunCallsStep(h: DrawHandles, s0: ShaderIndex, batches: seq<seq<Event>>, frames: seq<FrameReplies>, i: nat,
                     sel: ShaderIndex, t0: seq<Call>)
    requires i < |batches| && i < |frames|
    requires sel == Toggled(s0, TotalSpaces(batches[..i + 1]))
    ensures t0 + RunCalls(h, s0, batches, frames, i + 1)
         == t0 + RunCalls(h, s0, batches, frames, i) + FrameCalls(ContextFor(h, sel, frames[i].imageIndex), frames[i])
  {
    AppendAssoc(t0, RunCalls(h, s0, batches, frames, i), FrameCalls(ContextFor(h, sel, frames[i].imageIndex), frames[i]));
  }

  /** The handles the release tags read after a start-up whose replies were `b`. */
  function BootOwned(b: BootReplies): OwnedHandles
  {
    OwnedHandles(b.vulkan.allocator, b.swapchain.swapchain, b.commands.pool.handle, b.renderPass.handle,
                 FramebufferHandles(b.framebuffers), b.swapchain.views,
                 b.sync.fence.handle, b.sync.presentSemaphore.handle, b.sync.renderSemaphore.handle,
                 b.pipelines.redTrianglePipeline, b.pipelines.trianglePipeline, b.pipelines.layout.handle)
  }

  /** The handles `draw` reads after a start-up whose replies were `b`. */
  function BootDrawHandles(b: BootReplies, extent: Extent2D): DrawHandles
  {
    DrawHandles(b.sync.fence.handle, b.swapchain.swapchain, b.sync.presentSemaphore.handle,
                b.sync.renderSemaphore.handle, b.commands.buffer.handle, b.renderPass.handle,
                FramebufferHandles(b.framebuffers), b.pipelines.trianglePipeline, b.pipelines.redTrianglePipeline,
                b.vulkan.graphicsQueue, extent)
  }

  /** Start-up, whole or cut short, resets no fence, so it keeps the fence
      discipline of the trace it extends. */
  lemma BootKeepsDiscipline(t: seq<Call>, t2: seq<Call>, b: BootReplies, extent: Extent2D)
    requires b.WellFormed() && t <= t2 <= t + BootSchedule(b, extent)
    ensures ResetFollowsWait(t) ==> ResetFollowsWait(t2)
  {
    if ResetFollowsWait(t) {
      BootMakesNoFrameCalls(b, extent);
      ResetFreeKeepsDiscipline(t, t2, BootSchedule(b, extent));
    }
  }

  /** What the eight start-up stages leave in the trace, in terms of the
      whole start-up schedule: all of it on success, a prefix ending in its
      first failed checked call on an abort, and in either case no fence
      reset out of turn. */
  lemma BootRan(t0: seq<Call>, t: seq<Call>, b: BootReplies, extent: Extent2D, status: Status)
    requires b.WellFormed() && StagesRan(t0, BootStages(b, extent), 8, t, status)
    ensures t0 <= t <= t0 + BootSchedule(b, extent)
    ensures CutByCheck(t[|t0|..], status)
    ensures status.Ok? ==> t == t0 + BootSchedule(b, extent)
    ensures ResetFollowsWait(t0) ==> ResetFollowsWait(t)
  {
    var ss := BootStages(b, extent);
    assert ss[..8] == ss;
    BootKeepsDiscipline(t0, t, b, extent);
  }

  class VulkanEngine {
    var isInitialized: bool
    var frameNumber: int
    var windowExtent: Extent2D
    var window: Handle

    var allocator: Handle
    var instance: Handle
    var debugMessenger: Handle
    var chosenGpu: Handle
    var device: Handle
    var surface: Handle

    var swapchain: Handle
    var swapchainImageFormat: int
    var swapchainImages: seq<Handle>
    var swapchainImageViews: seq<Handle>

    var graphicsQueue: Handle
    var graphicsQueueFamily: int
    var commandPool: Handle
    var mainCommandBuffer: Handle

    var renderPass: Handle
    var framebuffers: seq<Handle>

    var presentSemaphore: Handle
    var renderSemaphore: Handle
    var renderFence: Handle

    var trianglePipelineLayout: Handle
    var trianglePipeline: Handle
    var redTrianglePipeline: Handle

    const deletionQueue: DeletionQueue<Deletor>

    /** The file-scope `_selectedShader`: which pipeline variant `draw` binds. */
    var selectedShader: ShaderIndex

    /** What the CPU can observe of `renderFence`. */
    ghost var fenceState: FenceState
    /** Every call made so far, in order. */
    ghost var trace: seq<Call>

    /** The handles the release tags read. */
    function Owned(): OwnedHandles
      reads this`allocator, this`swapchain, this`commandPool, this`renderPass, this`framebuffers,
            this`swapchainImageViews, this`renderFence, this`presentSemaphore, this`renderSemaphore,
            this`redTrianglePipeline, this`trianglePipeline, this`trianglePipelineLayout
    {
      OwnedHandles(allocator, swapchain, commandPool, renderPass, framebuffers, swapchainImageViews,
                   renderFence, presentSemaphore, renderSemaphore,
                   redTrianglePipeline, trianglePipeline, trianglePipelineLayout)
    }

    /** Every release in the deletion queue names a handle the engine holds. */
    ghost predicate LedgerReleasable()
      reads deletionQueue`deletors, this`allocator, this`swapchain, this`commandPool, this`renderPass,
            this`framebuffers, this`swapchainImageViews, this`renderFence, this`presentSemaphore,
            this`renderSemaphore, this`redTrianglePipeline, this`trianglePipeline, this`trianglePipelineLayout
    {
      forall d :: d in deletionQueue.deletors ==> Releasable(Owned(), d)
    }

    ghost predicate Valid()
      reads this`swapchainImages, this`framebuffers, this`isInitialized,
            deletionQueue`deletors, this`allocator, this`swapchain, this`commandPool, this`renderPass,
            this`swapchainImageViews, this`renderFence, this`presentSemaphore, this`renderSemaphore,
            this`redTrianglePipeline, this`trianglePipeline, this`trianglePipelineLayout
    {
      |swapchainImages| == |swapchainImageViews| &&
      (framebuffers == [] || |framebuffers| == |swapchainImages|) &&
      (isInitialized ==> |framebuffers| == |swapchainImages|) &&
      LedgerReleasable()
    }

    /** The engine holds what the window system, vk-bootstrap and VMA handed
        back in `b`. */
    ghost predicate HoldsDevice(b: BootReplies)
      reads this`window, this`instance, this`debugMessenger, this`surface, this`chosenGpu, this`device,
            this`graphicsQueue, this`graphicsQueueFamily, this`allocator, this`swapchain,
            this`swapchainImageFormat, this`swapchainImages, this`swapchainImageViews
    {
      window == b.window && instance == b.vulkan.instance && debugMessenger == b.vulkan.debugMessenger &&
      surface == b.vulkan.surface && chosenGpu == b.vulkan.gpu && device == b.vulkan.device &&
      graphicsQueue == b.vulkan.graphicsQueue && graphicsQueueFamily == b.vulkan.queueFamily &&
      allocator == b.vulkan.allocator && swapchain == b.swapchain.swapchain &&
      swapchainImageFormat == b.swapchain.imageFormat && swapchainImages == b.swapchain.images &&
      swapchainImageViews == b.swapchain.views
    }

    /** The engine holds the command pool and buffer, the render pass and the
        framebuffers returned in `b`. */
    ghost predicate HoldsRenderTargets(b: BootReplies)
      reads this`commandPool, this`mainCommandBuffer, this`renderPass, this`framebuffers
    {
      commandPool == b.commands.pool.handle && mainCommandBuffer == b.commands.buffer.handle &&
      renderPass == b.renderPass.handle && framebuffers == FramebufferHandles(b.framebuffers)
    }

    /** The engine holds the fence, the semaphores, the layout and the
        pipelines returned in `b`. */
    ghost predicate HoldsFrameResources(b: BootReplies)
      reads this`renderFence, this`presentSemaphore, this`renderSemaphore,
            this`trianglePipelineLayout, this`trianglePipeline, this`redTrianglePipeline
    {
      renderFence == b.sync.fence.handle && presentSemaphore == b.sync.presentSemaphore.handle &&
      renderSemaphore == b.sync.renderSemaphore.handle && trianglePipelineLayout == b.pipelines.layout.handle &&
      trianglePipeline == b.pipelines.trianglePipeline && redTrianglePipeline == b.pipelines.redTrianglePipeline
    }

    /** The engine holds the handles the checked start-up calls returned in `b`. */
    ghost predicate HoldsResources(b: BootReplies)
      reads this`commandPool, this`mainCommandBuffer, this`renderPass, this`framebuffers,
            this`renderFence, this`presentSemaphore, this`renderSemaphore,
            this`trianglePipelineLayout, this`trianglePipeline, this`redTrianglePipeline
    {
      HoldsRenderTargets(b) && HoldsFrameResources(b)
    }

    /** An engine holding everything start-up returned releases and draws with
        exactly those handles. */
    lemma BootHandlesHeld(b: BootReplies)
      requires HoldsDevice(b) && HoldsResources(b)
      ensures Owned() == BootOwned(b) && DrawState() == BootDrawHandles(b, windowExtent)
    {
    }

    /** A fresh engine: not initialised, frame 0, a 1700 x 900 window extent,
        no window yet and an empty deletion queue. */
    constructor ()
      ensures Valid() && fresh(deletionQueue)
      ensures !isInitialized && frameNumber == 0 && windowExtent == Extent2D(1700, 900)
      ensures window == 0 && selectedShader == 0 && framebuffers == [] && swapchainImages == []
      ensures deletionQueue.deletors == [] && trace == [] && fenceState == NotCreated
    {
      isInitialized := false;
      frameNumber := 0;
      windowExtent := Extent2D(1700, 900);
      window := 0;
      swapchainImages, swapchainImageViews, framebuffers := [], [], [];
      selectedShader := 0;
      deletionQueue := new DeletionQueue();
      fenceState := NotCreated;
      trace := [];
    }

    /** `init_vulkan`: vk-bootstrap's instance (API 1.1, default debug
        messenger), the window's surface, a GPU of version 1.1 or later that
        can present to it, the device with its graphics queue and family, and
        the VMA allocator; registers the allocator's release. */
    method InitVulkan(v: VulkanReplies)
      modifies this`instance, this`debugMessenger, this`surface, this`chosenGpu, this`device,
               this`graphicsQueue, this`graphicsQueueFamily, this`allocator, this`trace, deletionQueue
      ensures instance == v.instance && debugMessenger == v.debugMessenger && surface == v.surface
      ensures chosenGpu == v.gpu && device == v.device && allocator == v.allocator
      ensures graphicsQueue == v.graphicsQueue && graphicsQueueFamily == v.queueFamily
      ensures trace == old(trace) + VulkanSchedule(window, v)
      ensures deletionQueue.deletors == old(deletionQueue.deletors) + [ReleaseAllocator]
    {
      instance, debugMessenger := v.instance, v.debugMessenger;
      surface := v.surface;
      chosenGpu := v.gpu;
      device := v.device;
      graphicsQueue, graphicsQueueFamily := v.graphicsQueue, v.queueFamily;
      allocator := v.allocator;
      trace := trace + [Create(CreateInstance(instance, debugMessenger, API_MAJOR, API_MINOR)),
                        Create(CreateSurface(window, instance, surface)),
                        Create(SelectPhysicalDevice(chosenGpu, surface, API_MAJOR, API_MINOR)),
                        Create(CreateDevice(chosenGpu, device)),
                        Create(CreateAllocator(chosenGpu, device, instance, allocator))];
      deletionQueue.PushFunc(ReleaseAllocator);
    }

    /** `init_swapchain`: a FIFO swapchain of the window's extent on the
        surface, with its images, views and format; registers its release. */
    method InitSwapchain(s: SwapchainReplies)
      requires |s.images| == |s.views|
      modifies this`swapchain, this`swapchainImages, this`swapchainImageViews, this`swapchainImageFormat,
               this`trace, deletionQueue
      ensures swapchain == s.swapchain && swapchainImageFormat == s.imageFormat
      ensures swapchainImages == s.images && swapchainImageViews == s.views
      ensures trace == old(trace) + SwapchainSchedule(surface, s, windowExtent)
      ensures deletionQueue.deletors == old(deletionQueue.deletors) + [ReleaseSwapchain]
    {
      trace := trace + [Create(CreateSwapchain(surface, Fifo, windowExtent, s.swapchain))];
      swapchain := s.swapchain;
      swapchainImages := s.images;
      swapchainImageViews := s.views;
      swapchainImageFormat := s.imageFormat;
      deletionQueue.PushFunc(ReleaseSwapchain);
    }

    /** `init_commands`: a resettable command pool on the graphics family and
        one command buffer from it, each VK_CHECKed; the pool's release is
        registered only when both succeed. */
    method InitCommands(c: CommandReplies) returns (status: Status)
      modifies this`commandPool, this`mainCommandBuffer, this`trace, deletionQueue
      ensures status.Ok? <==> c.pool.result == VK_SUCCESS && c.buffer.result == VK_SUCCESS
      ensures old(trace) <= trace <= old(trace) + CommandSchedule(graphicsQueueFamily, c)
      ensures CutByCheck(trace[|old(trace)|..], status)
      ensures c.pool.result == VK_SUCCESS ==> trace == old(trace) + CommandSchedule(graphicsQueueFamily, c)
      ensures c.pool.result != VK_SUCCESS ==> trace == old(trace) + CommandSchedule(graphicsQueueFamily, c)[..1]
      ensures commandPool == c.pool.handle
      ensures status.Ok? ==> mainCommandBuffer == c.buffer.handle
      ensures deletionQueue.deletors == old(deletionQueue.deletors) + (if status.Ok? then [ReleaseCommandPool] else [])
    {
      trace := trace + [Create(CreateCommandPool(c.pool.result, c.pool.handle, graphicsQueueFamily, true))];
      commandPool := c.pool.handle;
      status := Check(c.pool.result);
      if status.Abort? {
        return;
      }
      trace := trace + [Create(AllocateCommandBuffer(c.buffer.result, commandPool, c.buffer.handle))];
      mainCommandBuffer := c.buffer.handle;
      status := Check(c.buffer.result);
      if status.Abort? {
        return;
      }
      deletionQueue.PushFunc(ReleaseCommandPool);
    }

    /** `init_default_renderpass`: one colour attachment in the swapchain's
        format, one subpass; VK_CHECKed, and its release registered on success. */
    method InitDefaultRenderpass(rp: Created) returns (status: Status)
      modifies this`renderPass, this`trace, deletionQueue
      ensures status.Ok? <==> rp.result == VK_SUCCESS
      ensures trace == old(trace) + RenderPassSchedule(swapchainImageFormat, rp)
      ensures CutByCheck(trace[|old(trace)|..], status)
      ensures renderPass == rp.handle
      ensures deletionQueue.deletors == old(deletionQueue.deletors) + (if status.Ok? then [ReleaseRenderPass] else [])
    {
      trace := trace + [Create(CreateRenderPass(rp.result, rp.handle, DefaultColorAttachment(swapchainImageFormat)))];
      renderPass := rp.handle;
      status := Check(rp.result);
      if status.Ok? {
        deletionQueue.PushFunc(ReleaseRenderPass);
      }
    }

    /** One iteration of `init_framebuffers`: the framebuffer for image `i`,
        VK_CHECKed, with its release registered once it succeeds. */
    method CreateFramebufferAt(i: nat, reply: Created) returns (status: Status)
      requires i < |framebuffers| && i < |swapchainImageViews|
      modifies this`framebuffers, this`trace, deletionQueue
      ensures status == Check(reply.result)
      ensures framebuffers == old(framebuffers)[i := reply.handle]
      ensures trace == old(trace) + [FramebufferCall(renderPass, swapchainImageViews[i], reply, windowExtent)]
      ensures deletionQueue.deletors
           == old(deletionQueue.deletors) + (if status.Ok? then [ReleaseFramebufferAndView(i)] else [])
    {
      trace := trace + [FramebufferCall(renderPass, swapchainImageViews[i], reply, windowExtent)];
      framebuffers := framebuffers[i := reply.handle];
      status := Check(reply.result);
      if status.Ok? {
        deletionQueue.PushFunc(ReleaseFramebufferAndView(i));
      }
    }

    /** `init_framebuffers`: a vector of null handles, one per swapchain
        image, then for each image in turn a VK_CHECKed framebuffer on the
        view at the same index, registering its release after it succeeds.
        `made` is the number of framebuffer calls made. */
    method InitFramebuffers(replies: seq<Created>) returns (status: Status, ghost made: nat)
      requires |replies| == |swapchainImages| == |swapchainImageViews|
      modifies this`framebuffers, this`trace, deletionQueue
      ensures |framebuffers| == |swapchainImages|
      ensures status.Ok? <==> forall i :: 0 <= i < |replies| ==> replies[i].result == VK_SUCCESS
      ensures made <= |replies| && (status.Ok? ==> made == |replies|)
      ensures status.Abort? ==> 0 < made && forall i :: 0 <= i < made - 1 ==> replies[i].result == VK_SUCCESS
      ensures old(trace) <= trace && CutByCheck(trace[|old(trace)|..], status)
      ensures trace == old(trace) + FramebufferSchedule(renderPass, swapchainImageViews, replies[..made], windowExtent)
      ensures forall i :: 0 <= i < made ==> framebuffers[i] == replies[i].handle
      ensures forall i :: made <= i < |framebuffers| ==> framebuffers[i] == 0
      ensures deletionQueue.deletors == old(deletionQueue.deletors) + FramebufferDeletors(if status.Ok? then made else made - 1)
    {
      var n := |swapchainImages|;
      framebuffers := seq(n, _ => 0);
      var i := 0;
      status := Ok;
      while i < n && status.Ok?
        invariant 0 <= i <= n && |framebuffers| == n
        invariant forall k :: 0 <= k < i - 1 ==> replies[k].result == VK_SUCCESS
        invariant 0 < i ==> status == Check(replies[i - 1].result)
        invariant i == 0 ==> status == Ok
        invariant forall k :: 0 <= k < i ==> framebuffers[k] == replies[k].handle
        invariant forall k :: i <= k < n ==> framebuffers[k] == 0
        invariant trace == old(trace) + FramebufferSchedule(renderPass, swapchainImageViews, replies[..i], windowExtent)
        invariant deletionQueue.deletors == old(deletionQueue.deletors) + FramebufferDeletors(if status.Ok? then i else i - 1)
      {
        assert replies[..i + 1][..i] == replies[..i];
        status := CreateFramebufferAt(i, replies[i]);
        i := i + 1;
      }
      made := i;
      FramebufferScheduleCut(old(trace), renderPass, swapchainImageViews, replies, windowExtent, made, status);
      if status.Ok? {
        assert replies[..n] == replies;
      }
    }

    /** `init_sync_structures`: the render fence, created signaled, and the
        present and render semaphores, each VK_CHECKed; their release is
        registered when all three succeed. */
    method InitSyncStructures(s: SyncReplies) returns (status: Status)
      modifies this`renderFence, this`presentSemaphore, this`renderSemaphore, this`fenceState,
               this`trace, deletionQueue
      ensures status.Ok? <==> s.fence.result == VK_SUCCESS && s.presentSemaphore.result == VK_SUCCESS &&
                              s.renderSemaphore.result == VK_SUCCESS
      ensures old(trace) <= trace <= old(trace) + SyncSchedule(s)
      ensures CutByCheck(trace[|old(trace)|..], status)
      ensures status.Ok? ==> trace == old(trace) + SyncSchedule(s)
      ensures s.fence.result == VK_SUCCESS ==> fenceState == Signaled
      ensures status.Ok? ==> renderFence == s.fence.handle && presentSemaphore == s.presentSemaphore.handle &&
                             renderSemaphore == s.renderSemaphore.handle && fenceState == Signaled
      ensures deletionQueue.deletors == old(deletionQueue.deletors) + (if status.Ok? then [ReleaseSync] else [])
    {
      trace := trace + [Create(CreateFence(s.fence.result, s.fence.handle, true))];
      renderFence := s.fence.handle;
      status := Check(s.fence.result);
      if status.Abort? {
        return;
      }
      fenceState := Signaled;
      trace := trace + [Create(CreateSemaphore(s.presentSemaphore.result, s.presentSemaphore.handle))];
      presentSemaphore := s.presentSemaphore.handle;
      status := Check(s.presentSemaphore.result);
      if status.Abort? {
        return;
      }
      trace := trace + [Create(CreateSemaphore(s.renderSemaphore.result, s.renderSemaphore.handle))];
      renderSemaphore := s.renderSemaphore.handle;
      status := Check(s.renderSemaphore.result);
      if status.Abort? {
        return;
      }
      deletionQueue.PushFunc(ReleaseSync);
    }

    /** The four shader loads of `init_pipelines`, in source order, each into
        an uninitialised variable; a failed load is reported and otherwise
        ignored. */
    method LoadShaders(p: PipelineReplies) returns (redFrag: LoadResult, redVert: LoadResult, triFrag: LoadResult, triVert: LoadResult)
      modifies this`trace
      ensures redFrag == LoadRedFrag(p) && redVert == LoadRedVert(p)
      ensures triFrag == LoadTriFrag(p) && triVert == LoadTriVert(p)
      ensures trace == old(trace) + LoadCalls(p)
    {
      redFrag := LoadShaderModule(p.redFrag, Uninitialized);
      trace := trace + redFrag.calls;
      redVert := LoadShaderModule(p.redVert, Uninitialized);
      trace := trace + redVert.calls;
      triFrag := LoadShaderModule(p.triFrag, Uninitialized);
      trace := trace + triFrag.calls;
      triVert := LoadShaderModule(p.triVert, Uninitialized);
      trace := trace + triVert.calls;
      AppendAssoc(old(trace), redFrag.calls, redVert.calls);
      AppendAssoc(old(trace), redFrag.calls + redVert.calls, triFrag.calls);
      AppendAssoc(old(trace), redFrag.calls + redVert.calls + triFrag.calls, triVert.calls);
    }

    /** The two builds of `init_pipelines` from one builder: the layout and
        fixed-function state are set once; the stage list holds [vertex,
        fragment] of the first pair for the triangle pipeline, is cleared, and
        holds [vertex, fragment] of the second pair for the red one. */
    method BuildPipelines(triVert: ShaderModule, triFrag: ShaderModule, redVert: ShaderModule, redFrag: ShaderModule,
                          triangle: Handle, red: Handle)
      modifies this`trianglePipeline, this`redTrianglePipeline, this`trace
      ensures trianglePipeline == triangle && redTrianglePipeline == red
      ensures var fixed := PipelineFixedFunction(windowExtent);
        trace == old(trace) +
          [Create(BuildPipeline(triangle, trianglePipelineLayout, renderPass,
                         [ShaderStage(VertexStage, triVert), ShaderStage(FragmentStage, triFrag)], fixed)),
           Create(BuildPipeline(red, trianglePipelineLayout, renderPass,
                         [ShaderStage(VertexStage, redVert), ShaderStage(FragmentStage, redFrag)], fixed))]
    {
      var builder := new PipelineBuilder();
      builder.shaderStages := builder.shaderStages + [ShaderStage(VertexStage, triVert)];
      builder.shaderStages := builder.shaderStages + [ShaderStage(FragmentStage, triFrag)];
      builder.fixed := PipelineFixedFunction(windowExtent);
      builder.pipelineLayout := trianglePipelineLayout;
      var first := Create(BuildPipeline(triangle, builder.pipelineLayout, renderPass, builder.shaderStages, builder.fixed));
      trace := trace + [first];
      trianglePipeline := triangle;

      builder.shaderStages := [];
      builder.shaderStages := builder.shaderStages + [ShaderStage(VertexStage, redVert)];
      builder.shaderStages := builder.shaderStages + [ShaderStage(FragmentStage, redFrag)];
      var second := Create(BuildPipeline(red, builder.pipelineLayout, renderPass, builder.shaderStages, builder.fixed));
      trace := trace + [second];
      redTrianglePipeline := red;
      AppendAssoc(old(trace), [first], [second]);
      assert second.creation.stages == [ShaderStage(VertexStage, redVert), ShaderStage(FragmentStage, redFrag)];
      assert first.creation.stages == [ShaderStage(VertexStage, triVert), ShaderStage(FragmentStage, triFrag)];
      assert trace == old(trace) + [first, second];
    }

    /** `init_pipelines`: the shader loads, the VK_CHECKed pipeline layout, the
        two builds, the four module variables destroyed, and the pipelines'
        release registered. */
    method InitPipelines(p: PipelineReplies) returns (status: Status)
      modifies this`trianglePipelineLayout, this`trianglePipeline, this`redTrianglePipeline,
               this`trace, deletionQueue
      ensures status.Ok? <==> p.layout.result == VK_SUCCESS
      ensures status.Abort? ==>
        trace == old(trace) + LoadCalls(p) + [Create(CreatePipelineLayout(p.layout.result, p.layout.handle))]
      ensures old(trace) <= trace <= old(trace) + PipelineSchedule(p, renderPass, windowExtent)
      ensures CutByCheck(trace[|old(trace)|..], status)
      ensures status.Ok? ==> trace == old(trace) + PipelineSchedule(p, renderPass, windowExtent)
      ensures trianglePipelineLayout == p.layout.handle
      ensures status.Ok? ==> trianglePipeline == p.trianglePipeline && redTrianglePipeline == p.redTrianglePipeline
      ensures deletionQueue.deletors == old(deletionQueue.deletors) + (if status.Ok? then [ReleasePipelines] else [])
    {
      var redFrag, redVert, triFrag, triVert := LoadShaders(p);
      ghost var loaded := trace;
      PipelineScheduleCut(old(trace), p, renderPass, windowExtent);

      var layoutCall := Create(CreatePipelineLayout(p.layout.result, p.layout.handle));
      trace := trace + [layoutCall];
      trianglePipelineLayout := p.layout.handle;
      status := Check(p.layout.result);
      if status.Abort? {
        return;
      }

      ghost var builds := PipelineBuilds(p, renderPass, windowExtent);
      BuildAndRelease(p, redFrag.out, redVert.out, triFrag.out, triVert.out);
      assert builds == [layoutCall] + builds[1..];
      AppendAssoc(loaded, [layoutCall], builds[1..]);
    }

    /** The rest of `init_pipelines` once the layout exists: both builds,
        the four shader modules destroyed, and the pipelines' release queued. */
    method BuildAndRelease(p: PipelineReplies, redFrag: ShaderModule, redVert: ShaderModule,
                           triFrag: ShaderModule, triVert: ShaderModule)
      requires redFrag == LoadRedFrag(p).out && redVert == LoadRedVert(p).out
      requires triFrag == LoadTriFrag(p).out && triVert == LoadTriVert(p).out
      requires trianglePipelineLayout == p.layout.handle
      modifies this`trianglePipeline, this`redTrianglePipeline, this`trace, deletionQueue
      ensures trianglePipeline == p.trianglePipeline && redTrianglePipeline == p.redTrianglePipeline
      ensures trace == old(trace) + PipelineBuilds(p, renderPass, windowExtent)[1..] + ShaderDestroys(p)
      ensures deletionQueue.deletors == old(deletionQueue.deletors) + [ReleasePipelines]
    {
      BuildPipelines(triVert, triFrag, redVert, redFrag, p.trianglePipeline, p.redTrianglePipeline);
      trace := trace + ShaderDestroys(p);
      deletionQueue.PushFunc(ReleasePipelines);
    }

    /** The first part of `init`: the window, `init_vulkan` and
        `init_swapchain`, none of which is VK_CHECKed. */
    method InitDevice(b: BootReplies, ghost ss: seq<seq<Call>>)
      requires b.WellFormed() && |ss| == 8
      requires ss[0] == [Create(CreateWindow(b.window, windowExtent))] && ss[1] == VulkanSchedule(b.window, b.vulkan)
      requires ss[2] == SwapchainSchedule(b.vulkan.surface, b.swapchain, windowExtent)
      requires deletionQueue.deletors == []
      modifies this`window, this`instance, this`debugMessenger, this`surface, this`chosenGpu, this`device,
               this`graphicsQueue, this`graphicsQueueFamily, this`allocator,
               this`swapchain, this`swapchainImages, this`swapchainImageViews, this`swapchainImageFormat,
               this`trace, deletionQueue
      ensures trace == old(trace) + Flatten(ss[..3]) && StagesRan(old(trace), ss, 3, trace, Ok)
      ensures graphicsQueueFamily == b.vulkan.queueFamily && swapchainImageFormat == b.swapchain.imageFormat
      ensures swapchainImages == b.swapchain.images && swapchainImageViews == b.swapchain.views
      ensures deletionQueue.deletors == [ReleaseAllocator, ReleaseSwapchain]
      ensures HoldsDevice(b)
    {
      StagesStart(old(trace), ss);
      window := b.window;
      trace := trace + [Create(CreateWindow(window, windowExtent))];
      StagesStep(old(trace), ss, 0, old(trace), trace, Ok);
      ghost var mid := trace;
      InitVulkan(b.vulkan);
      StagesStep(old(trace), ss, 1, mid, trace, Ok);
      mid := trace;
      InitSwapchain(b.swapchain);
      StagesStep(old(trace), ss, 2, mid, trace, Ok);
    }

    /** The middle part of `init`: `init_commands`, `init_default_renderpass`
        and `init_framebuffers`, stopping at the first VK_CHECK failure. */
    method InitRenderTargets(b: BootReplies, ghost t0: seq<Call>, ghost ss: seq<seq<Call>>) returns (status: Status)
      requires b.WellFormed() && |ss| == 8
      requires ss[3] == CommandSchedule(b.vulkan.queueFamily, b.commands)
      requires ss[4] == RenderPassSchedule(b.swapchain.imageFormat, b.renderPass)
      requires ss[5] == FramebufferSchedule(b.renderPass.handle, b.swapchain.views, b.framebuffers, windowExtent)
      requires trace == t0 + Flatten(ss[..3]) && StagesRan(t0, ss, 3, trace, Ok)
      requires graphicsQueueFamily == b.vulkan.queueFamily && swapchainImageFormat == b.swapchain.imageFormat
      requires swapchainImages == b.swapchain.images && swapchainImageViews == b.swapchain.views
      modifies this`commandPool, this`mainCommandBuffer, this`renderPass, this`framebuffers, this`trace, deletionQueue
      ensures status.Ok? <==> (b.commands.pool.result == VK_SUCCESS && b.commands.buffer.result == VK_SUCCESS &&
                               b.renderPass.result == VK_SUCCESS &&
                               forall i :: 0 <= i < |b.framebuffers| ==> b.framebuffers[i].result == VK_SUCCESS)
      ensures StagesRan(t0, ss, 6, trace, status)
      ensures status.Ok? ==> renderPass == b.renderPass.handle && |framebuffers| == |swapchainImages|
      ensures status.Ok? ==> HoldsRenderTargets(b)
      ensures status.Ok? ==>
                deletionQueue.deletors
                == old(deletionQueue.deletors) + [ReleaseCommandPool, ReleaseRenderPass] + FramebufferDeletors(|swapchainImages|)
    {
      status := InitCommands(b.commands);
      StagesStep(t0, ss, 3, old(trace), trace, status);
      if status.Abort? {
        StagesRanLater(t0, ss, 4, 6, trace, status);
        return;
      }
      ghost var mid := trace;
      status := InitDefaultRenderpass(b.renderPass);
      StagesStep(t0, ss, 4, mid, trace, status);
      if status.Abort? {
        StagesRanLater(t0, ss, 5, 6, trace, status);
        return;
      }
      status := FramebufferStage(b.framebuffers, t0, ss);
    }

    /** `init_framebuffers` as the sixth start-up stage: its calls, or a
        prefix of them ending in the framebuffer that failed. */
    method FramebufferStage(replies: seq<Created>, ghost t0: seq<Call>, ghost ss: seq<seq<Call>>) returns (status: Status)
      requires |replies| == |swapchainImages| == |swapchainImageViews|
      requires |ss| == 8 && ss[5] == FramebufferSchedule(renderPass, swapchainImageViews, replies, windowExtent)
      requires trace == t0 + Flatten(ss[..5]) && StagesRan(t0, ss, 5, trace, Ok)
      modifies this`framebuffers, this`trace, deletionQueue
      ensures status.Ok? <==> forall i :: 0 <= i < |replies| ==> replies[i].result == VK_SUCCESS
      ensures StagesRan(t0, ss, 6, trace, status)
      ensures |framebuffers| == |swapchainImages|
      ensures status.Ok? ==> framebuffers == FramebufferHandles(replies)
      ensures status.Ok? ==> deletionQueue.deletors == old(deletionQueue.deletors) + FramebufferDeletors(|swapchainImages|)
    {
      ghost var made;
      status, made := InitFramebuffers(replies);
      FramebufferSchedulePrefix(renderPass, swapchainImageViews, replies, windowExtent, made);
      PrefixAfter(old(trace), trace[|old(trace)|..], ss[5]);
      if status.Ok? {
        assert replies[..made] == replies;
        assert framebuffers == FramebufferHandles(replies);
      }
      StagesStep(t0, ss, 5, old(trace), trace, status);
    }

    /** The last part of `init`: `init_sync_structures` and `init_pipelines`,
        stopping at the first VK_CHECK failure. */
    method InitFrameResources(b: BootReplies, ghost t0: seq<Call>, ghost ss: seq<seq<Call>>) returns (status: Status)
      requires b.WellFormed() && |ss| == 8
      requires ss[6] == SyncSchedule(b.sync) && ss[7] == PipelineSchedule(b.pipelines, b.renderPass.handle, windowExtent)
      requires trace == t0 + Flatten(ss[..6]) && StagesRan(t0, ss, 6, trace, Ok) && renderPass == b.renderPass.handle
      modifies this`renderFence, this`presentSemaphore, this`renderSemaphore, this`fenceState,
               this`trianglePipelineLayout, this`trianglePipeline, this`redTrianglePipeline, this`trace, deletionQueue
      ensures status.Ok? <==> (b.sync.fence.result == VK_SUCCESS && b.sync.presentSemaphore.result == VK_SUCCESS &&
                               b.sync.renderSemaphore.result == VK_SUCCESS && b.pipelines.layout.result == VK_SUCCESS)
      ensures StagesRan(t0, ss, 8, trace, status)
      ensures status.Ok? ==> fenceState == Signaled
      ensures status.Ok? ==> HoldsFrameResources(b)
      ensures unchanged(this`commandPool, this`mainCommandBuffer, this`renderPass, this`framebuffers)
      ensures status.Ok? ==> deletionQueue.deletors == old(deletionQueue.deletors) + [ReleaseSync, ReleasePipelines]
    {
      status := InitSyncStructures(b.sync);
      StagesStep(t0, ss, 6, old(trace), trace, status);
      if status.Abort? {
        StagesRanLater(t0, ss, 7, 8, trace, status);
        return;
      }
      status := PipelineStage(b.pipelines, t0, ss);
    }

    /** `init_pipelines` as the eighth stage of `init`. */
    method PipelineStage(p: PipelineReplies, ghost t0: seq<Call>, ghost ss: seq<seq<Call>>) returns (status: Status)
      requires |ss| == 8 && ss[7] == PipelineSchedule(p, renderPass, windowExtent)
      requires StagesRan(t0, ss, 7, trace, Ok)
      modifies this`trianglePipelineLayout, this`trianglePipeline, this`redTrianglePipeline, this`trace, deletionQueue
      ensures status.Ok? <==> p.layout.result == VK_SUCCESS
      ensures StagesRan(t0, ss, 8, trace, status)
      ensures trianglePipelineLayout == p.layout.handle
      ensures status.Ok? ==> trianglePipeline == p.trianglePipeline && redTrianglePipeline == p.redTrianglePipeline
      ensures deletionQueue.deletors == old(deletionQueue.deletors) + (if status.Ok? then [ReleasePipelines] else [])
    {
      status := InitPipelines(p);
      StagesStep(t0, ss, 7, old(trace), trace, status);
    }

    /** `init`: the window, then `init_vulkan`, `init_swapchain`,
        `init_commands`, `init_default_renderpass`, `init_framebuffers`,
        `init_sync_structures` and `init_pipelines` in that order, and only
        then `_isInitialized`. A VK_CHECK failure in any stage aborts, and no
        later call is made. */
    method Init(b: BootReplies) returns (status: Status)
      requires Valid() && !isInitialized && b.WellFormed()
      requires deletionQueue.deletors == [] && framebuffers == []
      modifies this`window, this`instance, this`debugMessenger, this`surface, this`chosenGpu, this`device,
               this`graphicsQueue, this`graphicsQueueFamily, this`allocator,
               this`swapchain, this`swapchainImages, this`swapchainImageViews, this`swapchainImageFormat,
               this`commandPool, this`mainCommandBuffer, this`renderPass, this`framebuffers,
               this`renderFence, this`presentSemaphore, this`renderSemaphore, this`fenceState,
               this`trianglePipelineLayout, this`trianglePipeline, this`redTrianglePipeline,
               this`isInitialized, this`trace, deletionQueue
      ensures status.Ok? <==> BootSucceeds(b)
      ensures isInitialized <==> status.Ok?
      ensures old(trace) <= trace <= old(trace) + BootSchedule(b, windowExtent)
      ensures CutByCheck(trace[|old(trace)|..], status)
      ensures status.Ok? ==> Valid() && trace == old(trace) + BootSchedule(b, windowExtent)
      ensures status.Ok? ==> deletionQueue.deletors == InitRegistrations(|b.swapchain.images|) && fenceState == Signaled
      ensures status.Ok? ==> HoldsDevice(b) && HoldsResources(b)
      ensures status.Ok? ==> Owned() == BootOwned(b) && DrawState() == BootDrawHandles(b, windowExtent)
      ensures ResetFollowsWait(old(trace)) ==> ResetFollowsWait(trace)
    {
      ghost var ss := BootStages(b, windowExtent);
      InitDevice(b, ss);
      status := InitKeepingDevice(b, old(trace), ss);
      BootRan(old(trace), trace, b, windowExtent, status);
      if status.Ok? {
        BootHandlesHeld(b);
      }
    }

    /** `InitResources` as `init` calls it: besides what the later stages do,
        the window, Vulkan and swapchain handles stored before them are left
        as they were. */
    method InitKeepingDevice(b: BootReplies, ghost t0: seq<Call>, ghost ss: seq<seq<Call>>) returns (status: Status)
      requires b.WellFormed() && |ss| == 8 && ss == BootStages(b, windowExtent)
      requires trace == t0 + Flatten(ss[..3]) && StagesRan(t0, ss, 3, trace, Ok) && !isInitialized
      requires graphicsQueueFamily == b.vulkan.queueFamily && swapchainImageFormat == b.swapchain.imageFormat
      requires swapchainImages == b.swapchain.images && swapchainImageViews == b.swapchain.views
      requires deletionQueue.deletors == [ReleaseAllocator, ReleaseSwapchain]
      modifies this`commandPool, this`mainCommandBuffer, this`renderPass, this`framebuffers,
               this`renderFence, this`presentSemaphore, this`renderSemaphore, this`fenceState,
               this`trianglePipelineLayout, this`trianglePipeline, this`redTrianglePipeline,
               this`isInitialized, this`trace, deletionQueue
      ensures status.Ok? <==> BootSucceeds(b)
      ensures isInitialized <==> status.Ok?
      ensures StagesRan(t0, ss, 8, trace, status)
      ensures status.Ok? ==> Valid() && deletionQueue.deletors == InitRegistrations(|swapchainImages|)
      ensures status.Ok? ==> fenceState == Signaled
      ensures status.Ok? ==> HoldsResources(b)
      ensures unchanged(this`window, this`instance, this`debugMessenger, this`surface, this`chosenGpu, this`device,
                        this`graphicsQueue, this`graphicsQueueFamily, this`allocator, this`swapchain,
                        this`swapchainImageFormat, this`swapchainImages, this`swapchainImageViews)
    {
      status := InitResources(b, t0, ss);
    }

    /** What `init` does once the device and swapchain exist: the checked
        stages, then `_isInitialized` when all of them succeed. */
    method InitResources(b: BootReplies, ghost t0: seq<Call>, ghost ss: seq<seq<Call>>) returns (status: Status)
      requires b.WellFormed() && |ss| == 8 && ss == BootStages(b, windowExtent)
      requires trace == t0 + Flatten(ss[..3]) && StagesRan(t0, ss, 3, trace, Ok) && !isInitialized
      requires graphicsQueueFamily == b.vulkan.queueFamily && swapchainImageFormat == b.swapchain.imageFormat
      requires swapchainImages == b.swapchain.images && swapchainImageViews == b.swapchain.views
      requires deletionQueue.deletors == [ReleaseAllocator, ReleaseSwapchain]
      modifies this`commandPool, this`mainCommandBuffer, this`renderPass, this`framebuffers,
               this`renderFence, this`presentSemaphore, this`renderSemaphore, this`fenceState,
               this`trianglePipelineLayout, this`trianglePipeline, this`redTrianglePipeline,
               this`isInitialized, this`trace, deletionQueue
      ensures status.Ok? <==> BootSucceeds(b)
      ensures isInitialized <==> status.Ok?
      ensures StagesRan(t0, ss, 8, trace, status)
      ensures status.Ok? ==> Valid() && deletionQueue.deletors == InitRegistrations(|swapchainImages|)
      ensures status.Ok? ==> fenceState == Signaled
      ensures status.Ok? ==> HoldsResources(b)
    {
      RegistrationsByStage(|swapchainImages|, deletionQueue.deletors);
      status := InitRenderTargets(b, t0, ss);
      if status.Abort? {
        StagesRanLater(t0, ss, 6, 8, trace, status);
        return;
      }
      status := InitFrameResources(b, t0, ss);
      if status.Ok? {
        MarkInitialized();
      }
    }

    /** The end of a successful `init`: every registered release names a
        handle the engine holds, and `_isInitialized` is set. */
    method MarkInitialized()
      requires deletionQueue.deletors == InitRegistrations(|swapchainImages|)
      requires |swapchainImages| == |swapchainImageViews| == |framebuffers|
      modifies this`isInitialized
      ensures isInitialized && Valid()
      ensures unchanged(this`commandPool, this`mainCommandBuffer, this`renderPass, this`framebuffers,
                        this`renderFence, this`presentSemaphore, this`renderSemaphore,
                        this`trianglePipelineLayout, this`trianglePipeline, this`redTrianglePipeline, this`fenceState)
    {
      InitLedgerReleasable(Owned(), |swapchainImages|);
      isInitialized := true;
    }

    /** The calls `cleanup` makes after the flush, in order. */
    function ShutdownCalls(): seq<Call>
      reads this`device, this`surface, this`debugMessenger, this`instance, this`window
    {
      [Destroy(DestroyDevice(device)), Destroy(DestroySurface(surface)), Destroy(DestroyDebugMessenger(debugMessenger)),
       Destroy(DestroyInstance(instance)), Destroy(DestroyWindow(window))]
    }

    /** Runs release tags in sequence order, each against the current fields. */
    method RunReleases(ran: seq<Deletor>)
      requires forall d :: d in ran ==> Releasable(Owned(), d)
      modifies this`trace
      ensures trace == old(trace) + ReleaseAll(Owned(), ran)
    {
      ghost var h := Owned();
      var i := 0;
      while i < |ran|
        invariant 0 <= i <= |ran|
        invariant forall d :: d in ran[..i] ==> Releasable(h, d)
        invariant trace == old(trace) + ReleaseAll(h, ran[..i])
      {
        ReleaseAllStep(h, ran, i);
        trace := trace + ReleaseCalls(h, ran[i]);
        i := i + 1;
      }
      assert ran[..|ran|] == ran;
    }

    /** The flush as the engine runs it: every registered release, newest
        first, against the current fields; the queue is left empty. */
    method FlushLedger()
      requires forall d :: d in deletionQueue.deletors ==> Releasable(Owned(), d)
      modifies this`trace, deletionQueue
      ensures deletionQueue.deletors == []
      ensures trace == old(trace) + ReleaseNewestFirst(Owned(), old(deletionQueue.deletors))
    {
      NewestFirstIsReversed(Owned(), deletionQueue.deletors);
      var ran := deletionQueue.Flush();
      RunReleases(ran);
    }

    /** The wait, the flush and the destroys of `cleanup` reset no fence, so
        they keep the fence discipline of the trace they extend. */
    lemma ShutdownKeepsDiscipline(t: seq<Call>, waitResult: VkResult, ds: seq<Deletor>)
      requires forall d :: d in ds ==> Releasable(Owned(), d)
      requires trace == t + [Frame(WaitForFence(waitResult, renderFence, ONE_SECOND_NS))]
                        + ReleaseNewestFirst(Owned(), ds) + ShutdownCalls()
      ensures ResetFollowsWait(t) ==> ResetFollowsWait(trace)
    {
      if ResetFollowsWait(t) {
        var u := [Frame(WaitForFence(waitResult, renderFence, ONE_SECOND_NS))]
                 + ReleaseNewestFirst(Owned(), ds) + ShutdownCalls();
        ReleaseNewestFirstDestroys(Owned(), ds);
        assert trace == t + u;
        ResetFreeKeepsDiscipline(t, trace, u);
      }
    }

    /** `cleanup`: nothing unless initialised; otherwise wait on the fence (its
        result is not checked), flush the deletion queue newest first, then
        destroy the device, surface, debug messenger, instance and window. */
    method Cleanup(waitResult: VkResult)
      requires Valid()
      modifies this`trace, deletionQueue
      ensures Valid()
      ensures !isInitialized ==> trace == old(trace) && deletionQueue.deletors == old(deletionQueue.deletors)
      ensures isInitialized ==>
        deletionQueue.deletors == [] &&
        trace == old(trace) + [Frame(WaitForFence(waitResult, renderFence, ONE_SECOND_NS))]
                 + ReleaseNewestFirst(Owned(), old(deletionQueue.deletors)) + ShutdownCalls()
      ensures isInitialized && old(deletionQueue.deletors) == InitRegistrations(|swapchainImages|) ==>
        trace == old(trace) + [Frame(WaitForFence(waitResult, renderFence, ONE_SECOND_NS))]
                 + ReleaseAll(Owned(), TeardownOrder(|swapchainImages|)) + ShutdownCalls()
      ensures ResetFollowsWait(old(trace)) ==> ResetFollowsWait(trace)
    {
      if !isInitialized {
        return;
      }
      trace := trace + [Frame(WaitForFence(waitResult, renderFence, ONE_SECOND_NS))];
      FlushLedger();
      trace := trace + ShutdownCalls();
      ShutdownKeepsDiscipline(old(trace), waitResult, old(deletionQueue.deletors));
      if old(deletionQueue.deletors) == InitRegistrations(|swapchainImages|) {
        InitLedgerTeardown(Owned(), |swapchainImages|);
      }
    }

    /** What `draw` needs of the engine: it is initialised and has one
        framebuffer per swapchain image. A valid initialised engine has it. */
    ghost predicate Drawable()
      reads this`isInitialized, this`framebuffers, this`swapchainImages
    {
      isInitialized && |framebuffers| == |swapchainImages|
    }

    /** The fields `draw` reads. */
    function DrawState(): DrawHandles
      reads this`renderFence, this`swapchain, this`presentSemaphore, this`renderSemaphore,
            this`mainCommandBuffer, this`renderPass, this`framebuffers, this`trianglePipeline,
            this`redTrianglePipeline, this`graphicsQueue, this`windowExtent
    {
      DrawHandles(renderFence, swapchain, presentSemaphore, renderSemaphore, mainCommandBuffer, renderPass,
                  framebuffers, trianglePipeline, redTrianglePipeline, graphicsQueue, windowExtent)
    }

    /** Records call `k` of a schedule whose first `k` calls the trace
        already holds since `t0`. */
    method Emit(c: Call, ghost t0: seq<Call>, ghost s: seq<Call>, ghost k: nat)
      requires k < |s| && c == s[k] && trace == t0 + s[..k]
      modifies this`trace
      ensures trace == t0 + s[..k + 1]
    {
      trace := trace + [c];
      assert s[..k + 1] == s[..k] + [s[k]];
    }

    /** The start of `draw`: wait on the render fence for one second, reset
        it, and acquire the next image, signalling the present semaphore. */
    method BeginFrame(r: FrameReplies, ghost c: FrameContext) returns (status: Status)
      requires c == ContextFor(DrawState(), selectedShader, r.imageIndex)
      modifies this`trace, this`fenceState
      ensures status.Abort? ==>
        status == FrameStatus(r) && trace == old(trace) + FrameCalls(c, r) &&
        fenceState == FenceAfter(old(fenceState), r)
      ensures status.Ok? ==>
        r.wait == VK_SUCCESS && r.reset == VK_SUCCESS && r.acquire == VK_SUCCESS &&
        trace == old(trace) + FrameSchedule(c, r)[..3] && fenceState == Unsignaled
    {
      ghost var s := FrameSchedule(c, r);
      assert trace == old(trace) + s[..0];
      Emit(Frame(WaitForFence(r.wait, renderFence, ONE_SECOND_NS)), old(trace), s, 0);
      status := Check(r.wait);
      if status.Abort? {
        return;
      }
      fenceState := Signaled;
      Emit(Frame(ResetFence(r.reset, renderFence)), old(trace), s, 1);
      status := Check(r.reset);
      if status.Abort? {
        return;
      }
      fenceState := Unsignaled;
      Emit(Frame(AcquireNextImage(r.acquire, swapchain, ONE_SECOND_NS, presentSemaphore, r.imageIndex)), old(trace), s, 2);
      status := Check(r.acquire);
    }

    /** The recording of `draw`: reset the command buffer and begin it for one
        submission, begin the render pass on the acquired framebuffer over the
        window extent, bind the selected pipeline, draw 3 vertices and 1
        instance, end the render pass and the buffer. */
    method RecordFrame(r: FrameReplies, ghost c: FrameContext, ghost t0: seq<Call>) returns (status: Status)
      requires c == ContextFor(DrawState(), selectedShader, r.imageIndex)
      requires r.wait == VK_SUCCESS && r.reset == VK_SUCCESS && r.acquire == VK_SUCCESS
      requires r.imageIndex < |framebuffers| && trace == t0 + FrameSchedule(c, r)[..3]
      modifies this`trace
      ensures status.Abort? ==> status == FrameStatus(r) && trace == t0 + FrameCalls(c, r)
      ensures status.Ok? <==> r.resetCmd == VK_SUCCESS && r.begin == VK_SUCCESS && r.end == VK_SUCCESS
      ensures status.Ok? ==> trace == t0 + FrameSchedule(c, r)[..10]
    {
      ghost var s := FrameSchedule(c, r);
      var cmd := mainCommandBuffer;
      Emit(Frame(ResetCommandBuffer(r.resetCmd, cmd)), t0, s, 3);
      status := Check(r.resetCmd);
      if status.Abort? {
        return;
      }
      Emit(Frame(BeginCommandBuffer(r.begin, cmd, true)), t0, s, 4);
      status := Check(r.begin);
      if status.Abort? {
        return;
      }
      var pipeline := if selectedShader == 0 then trianglePipeline else redTrianglePipeline;
      Emit(Frame(CmdBeginRenderPass(cmd, renderPass, framebuffers[r.imageIndex], windowExtent)), t0, s, 5);
      Emit(Frame(CmdBindPipeline(cmd, pipeline)), t0, s, 6);
      Emit(Frame(CmdDraw(cmd, 3, 1, 0, 0)), t0, s, 7);
      Emit(Frame(CmdEndRenderPass(cmd)), t0, s, 8);
      Emit(Frame(EndCommandBuffer(r.end, cmd)), t0, s, 9);
      status := Check(r.end);
    }

    /** The end of `draw`: submit the buffer waiting, at the colour-attachment
        output stage, on the present semaphore and signalling the render
        semaphore and fence; then present the acquired image once the render
        semaphore is signalled. */
    method SubmitFrame(r: FrameReplies, ghost c: FrameContext, ghost t0: seq<Call>) returns (status: Status)
      requires c == ContextFor(DrawState(), selectedShader, r.imageIndex)
      requires r.wait == VK_SUCCESS && r.reset == VK_SUCCESS && r.acquire == VK_SUCCESS
      requires r.resetCmd == VK_SUCCESS && r.begin == VK_SUCCESS && r.end == VK_SUCCESS
      requires trace == t0 + FrameSchedule(c, r)[..10]
      modifies this`trace, this`fenceState
      ensures status == FrameStatus(r) && trace == t0 + FrameCalls(c, r)
      ensures fenceState == (if r.submit == VK_SUCCESS then Pending else old(fenceState))
    {
      ghost var s := FrameSchedule(c, r);
      var cmd := mainCommandBuffer;
      Emit(Frame(QueueSubmit(r.submit, graphicsQueue, cmd, presentSemaphore, ColorAttachmentOutput,
                             renderSemaphore, renderFence)), t0, s, 10);
      status := Check(r.submit);
      if status.Abort? {
        return;
      }
      fenceState := Pending;
      Emit(Frame(QueuePresent(r.present, graphicsQueue, swapchain, renderSemaphore, r.imageIndex)), t0, s, 11);
      status := Check(r.present);
    }

    /** `draw`: one frame, as the three stages above in order; every checked
        call that fails aborts, and only a frame whose present succeeds is
        counted. */
    method Draw(r: FrameReplies) returns (status: Status)
      requires Drawable()
      requires r.acquire == VK_SUCCESS ==> r.imageIndex < |swapchainImages|
      requires r.wait == VK_SUCCESS ==> FrameReady(fenceState)
      modifies this`trace, this`frameNumber, this`fenceState
      ensures status == FrameStatus(r)
      ensures trace == old(trace) + FrameCalls(old(ContextFor(DrawState(), selectedShader, r.imageIndex)), r)
      ensures frameNumber == old(frameNumber) + (if status.Ok? then 1 else 0)
      ensures fenceState == FenceAfter(old(fenceState), r)
    {
      ghost var c := ContextFor(DrawState(), selectedShader, r.imageIndex);
      status := BeginFrame(r, c);
      if status.Abort? {
        return;
      }
      status := RecordFrame(r, c, old(trace));
      if status.Abort? {
        return;
      }
      status := SubmitFrame(r, c, old(trace));
      if status.Abort? {
        return;
      }
      frameNumber := frameNumber + 1;
    }

    /** The inner loop of `run`: drain one batch of events. A window quit or an
        Escape key-down requests the stop; each Space key-down toggles the
        selected shader. */
    method PollEvents(batch: seq<Event>) returns (quit: bool)
      modifies this`selectedShader
      ensures quit <==> QuitRequested(batch)
      ensures selectedShader == Toggled(old(selectedShader), SpaceCount(batch))
    {
      quit := false;
      var j := 0;
      while j < |batch|
        invariant 0 <= j <= |batch|
        invariant quit <==> exists k :: 0 <= k < j && IsQuit(batch[k])
        invariant selectedShader == Toggled(old(selectedShader), SpaceCount(batch[..j]))
      {
        var e := batch[j];
        if e.kind == QuitEvent || IsKeyDown(e, SDLK_ESCAPE) {
          quit := true;
        }
        if IsKeyDown(e, SDLK_SPACE) {
          selectedShader := Toggle(selectedShader);
        }
        assert batch[..j + 1][..j] == batch[..j];
        j := j + 1;
      }
      assert batch[..j] == batch;
    }

    /** One iteration of `run`'s loop: drain a batch of events, then draw. */
    method Iterate(batch: seq<Event>, r: FrameReplies) returns (quit: bool, status: Status)
      requires Drawable()
      requires r.acquire == VK_SUCCESS ==> r.imageIndex < |swapchainImages|
      requires r.wait == VK_SUCCESS ==> FrameReady(fenceState)
      modifies this`trace, this`frameNumber, this`fenceState, this`selectedShader
      ensures quit <==> QuitRequested(batch)
      ensures selectedShader == Toggled(old(selectedShader), SpaceCount(batch))
      ensures status == FrameStatus(r)
      ensures trace == old(trace) + FrameCalls(ContextFor(DrawState(), selectedShader, r.imageIndex), r)
      ensures frameNumber == old(frameNumber) + (if status.Ok? then 1 else 0)
      ensures status.Ok? ==> fenceState == Pending
      ensures ResetFollowsWait(old(trace)) ==> ResetFollowsWait(trace)
    {
      quit := PollEvents(batch);
      ghost var c := ContextFor(DrawState(), selectedShader, r.imageIndex);
      status := Draw(r);
      if ResetFollowsWait(old(trace)) {
        FrameKeepsFenceDiscipline(old(trace), c, r);
      }
      if status.Ok? {
        AbortIsFinal(c, r);
        FenceCycle(old(fenceState), r);
      }
    }

    /** What holds after `i` iterations of `run`'s loop that started from
        selection `s0`, trace `t0` and frame count `n0`, with `h` the handles
        `draw` reads: no earlier batch asked to stop, every earlier frame
        succeeded and `status` is the last one's outcome, the frames that
        succeeded are counted, the selection is toggled once per space
        key-down, and the trace holds every frame's calls. */
    ghost predicate RunInvariant(batches: seq<seq<Event>>, frames: seq<FrameReplies>, i: nat, quit: bool,
                                 status: Status, s0: ShaderIndex, t0: seq<Call>, n0: int, h: DrawHandles)
      reads this`selectedShader, this`trace, this`frameNumber, this`fenceState
    {
      RunControl(batches, frames, i, quit, status) &&
      frameNumber == n0 + (if status.Ok? then i else i - 1) &&
      selectedShader == Toggled(s0, TotalSpaces(batches[..i])) &&
      trace == t0 + RunCalls(h, s0, batches, frames, i) &&
      (ResetFollowsWait(t0) ==> ResetFollowsWait(trace)) &&
      (status.Ok? ==> FrameReady(fenceState)) &&
      (status.Ok? && 0 < i ==> fenceState == Pending)
    }

    /** One iteration of `run`'s loop keeps its invariant. */
    method RunStep(batches: seq<seq<Event>>, frames: seq<FrameReplies>, i: nat,
                   ghost s0: ShaderIndex, ghost t0: seq<Call>, ghost n0: int, ghost h: DrawHandles)
      returns (quit: bool, status: Status)
      requires i < |batches| && Drawable() && DrawState() == h
      requires forall k :: 0 <= k < |frames| && frames[k].acquire == VK_SUCCESS ==>
                 frames[k].imageIndex < |swapchainImages|
      requires RunInvariant(batches, frames, i, false, Ok, s0, t0, n0, h)
      modifies this`trace, this`frameNumber, this`fenceState, this`selectedShader
      ensures RunInvariant(batches, frames, i + 1, quit, status, s0, t0, n0, h)
    {
      quit, status := Iterate(batches[i], frames[i]);
      ToggledBatches(s0, batches, i);
      RunControlStep(batches, frames, i, quit, status);
      RunCallsStep(h, s0, batches, frames, i, selectedShader, t0);
    }

    /** Before the first iteration the invariant holds trivially. */
    lemma RunStart(batches: seq<seq<Event>>, frames: seq<FrameReplies>, h: DrawHandles)
      requires |frames| == |batches| && FrameReady(fenceState)
      ensures RunInvariant(batches, frames, 0, false, Ok, selectedShader, trace, frameNumber, h)
    {
      assert batches[..0] == [];
      assert trace + [] == trace;
    }

    /** When the loop stops, the invariant gives what `run` promises. */
    lemma RunDone(batches: seq<seq<Event>>, frames: seq<FrameReplies>, i: nat, quit: bool, status: Status,
                  s0: ShaderIndex, t0: seq<Call>, n0: int, h: DrawHandles)
      requires RunInvariant(batches, frames, i, quit, status, s0, t0, n0, h)
      requires quit || status.Abort? || i == |batches|
      ensures i <= RunLength(batches) && (status.Ok? ==> i == RunLength(batches))
      ensures forall k :: 0 <= k < i - 1 ==> FrameStatus(frames[k]).Ok?
      ensures status.Ok? ==> forall k :: 0 <= k < i ==> FrameStatus(frames[k]).Ok?
      ensures status.Abort? ==> 0 < i && status == FrameStatus(frames[i - 1])
      ensures frameNumber == n0 + (if status.Ok? then i else i - 1)
      ensures selectedShader == Toggled(s0, TotalSpaces(batches[..i]))
      ensures trace == t0 + RunCalls(h, s0, batches, frames, i)
      ensures ResetFollowsWait(t0) ==> ResetFollowsWait(trace)
      ensures status.Ok? ==> FrameReady(fenceState)
      ensures status.Ok? && 0 < i ==> fenceState == Pending
    {
      if status.Ok? && !quit {
        RunLengthBound(batches, i);
      }
    }

    /** `run`: poll a batch, then draw, until a batch requests the stop (its
        frame is still drawn) or a draw aborts. `drawn` counts the iterations;
        batch `i` of the input is drained before frame `i`, whose replies are
        `frames[i]`. */
    method Run(batches: seq<seq<Event>>, frames: seq<FrameReplies>) returns (status: Status, ghost drawn: nat)
      requires Valid() && isInitialized && |frames| == |batches| && FrameReady(fenceState)
      requires forall k :: 0 <= k < |frames| && frames[k].acquire == VK_SUCCESS ==>
                 frames[k].imageIndex < |swapchainImages|
      modifies this`trace, this`frameNumber, this`fenceState, this`selectedShader
      ensures Valid()
      ensures drawn <= RunLength(batches) && (status.Ok? ==> drawn == RunLength(batches))
      ensures forall k :: 0 <= k < drawn - 1 ==> FrameStatus(frames[k]).Ok?
      ensures status.Ok? ==> forall k :: 0 <= k < drawn ==> FrameStatus(frames[k]).Ok?
      ensures status.Abort? ==> 0 < drawn && status == FrameStatus(frames[drawn - 1])
      ensures frameNumber == old(frameNumber) + (if status.Ok? then drawn else drawn - 1)
      ensures selectedShader == Toggled(old(selectedShader), TotalSpaces(batches[..drawn]))
      ensures trace == old(trace) + RunCalls(DrawState(), old(selectedShader), batches, frames, drawn)
      ensures ResetFollowsWait(old(trace)) ==> ResetFollowsWait(trace)
      ensures status.Ok? ==> FrameReady(fenceState)
      ensures status.Ok? && 0 < drawn ==> fenceState == Pending
    {
      ghost var s0, t0, n0, h := selectedShader, trace, frameNumber, DrawState();
      RunStart(batches, frames, h);
      var quit;
      quit, status, drawn := RunLoop(batches, frames, s0, t0, n0, h);
      RunDone(batches, frames, drawn, quit, status, s0, t0, n0, h);
    }

    /** The loop of `run`, which stops after the batch that requests the
        stop, after a frame that aborts, or when the input runs out. */
    method RunLoop(batches: seq<seq<Event>>, frames: seq<FrameReplies>,
                   ghost s0: ShaderIndex, ghost t0: seq<Call>, ghost n0: int, ghost h: DrawHandles)
      returns (quit: bool, status: Status, ghost drawn: nat)
      requires Drawable() && DrawState() == h
      requires forall k :: 0 <= k < |frames| && frames[k].acquire == VK_SUCCESS ==>
                 frames[k].imageIndex < |swapchainImages|
      requires RunInvariant(batches, frames, 0, false, Ok, s0, t0, n0, h)
      modifies this`trace, this`frameNumber, this`fenceState, this`selectedShader
      ensures DrawState() == h && RunInvariant(batches, frames, drawn, quit, status, s0, t0, n0, h)
      ensures quit || status.Abort? || drawn == |batches|
    {
      quit := false;
      var i := 0;
      status := Ok;
      while !quit && status.Ok? && i < |batches|
        invariant Drawable() && DrawState() == h && RunInvariant(batches, frames, i, quit, status, s0, t0, n0, h)
        decreases |batches| - i
      {
        quit, status := RunStep(batches, frames, i, s0, t0, n0, h);
        i := i + 1;
      }
      drawn := i;
    }
  }
}
