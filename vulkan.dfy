/** Opaque Vulkan/SDL/VMA handles, VkResult codes, the VK_CHECK policy and the
    API calls the engine makes, each recorded as one event of a call trace. */
module Vulkan {

  /** An opaque handle (VkDevice, VkFence, SDL_Window*, VmaAllocator, ...). */
  type Handle = int

  /** A VkResult code; VK_SUCCESS is 0, positive codes are non-error statuses
      (VK_NOT_READY, VK_TIMEOUT, VK_SUBOPTIMAL_KHR), negative codes are errors. */
  type VkResult = int

  const VK_SUCCESS: VkResult := 0
  const VK_TIMEOUT: VkResult := 2
  const VK_SUBOPTIMAL_KHR: VkResult := 1000001003

  /** SEC_TO_NS(1): the one-second timeout passed to fence waits and acquires. */
  const ONE_SECOND_NS: nat := 1000000000

  /** Outcome of a step guarded by VK_CHECK: either it went on, or the
      process aborted with the offending result. */
  datatype Status = Ok | Abort(err: VkResult)

  /** VK_CHECK: any non-zero result, including positive status codes such as
      VK_TIMEOUT, aborts the process. */
  function Check(r: VkResult): (s: Status)
    ensures s.Ok? <==> r == VK_SUCCESS
    ensures s.Abort? ==> s.err == r
  {
    if r != VK_SUCCESS then Abort(r) else Ok
  }

  /** A creation call's reply: its VkResult and the handle it wrote. */
  datatype Created = Created(result: VkResult, handle: Handle)

  datatype Extent2D = Extent2D(width: nat, height: nat)

  datatype PresentMode = Fifo
  datatype LoadOp = LoadOpClear | LoadOpDontCare
  datatype StoreOp = StoreOpStore | StoreOpDontCare
  datatype ImageLayout = LayoutUndefined | LayoutColorAttachmentOptimal | LayoutPresentSrc

  /** The single colour attachment of the default render pass. */
  datatype ColorAttachment = ColorAttachment(
    format: int, samples: nat, loadOp: LoadOp, storeOp: StoreOp,
    stencilLoadOp: LoadOp, stencilStoreOp: StoreOp,
    initialLayout: ImageLayout, finalLayout: ImageLayout, subpassLayout: ImageLayout)

  datatype StageKind = VertexStage | FragmentStage

  /** A shader-module variable: written by a successful load, otherwise left
      uninitialised (the source declares it without an initial value). */
  datatype ShaderModule = Uninitialized | Module(handle: Handle)

  datatype ShaderStage = ShaderStage(kind: StageKind, shader: ShaderModule)

  datatype Topology = TriangleList
  datatype PolygonMode = Fill

  /** Fixed-function state of the pipeline builder that this model keeps. */
  datatype FixedFunction = FixedFunction(topology: Topology, polygonMode: PolygonMode, viewport: Extent2D, scissor: Extent2D)

  datatype WaitStage = ColorAttachmentOutput

  /** A call that makes something: the SDL window, the vk-bootstrap and VMA
      objects, and every Vulkan create, allocate or build. Calls whose result
      the source inspects carry it as `res`. */
  datatype Creation =
    | CreateWindow(window: Handle, extent: Extent2D)
    | CreateInstance(instance: Handle, messenger: Handle, apiMajor: nat, apiMinor: nat)
    | CreateSurface(window: Handle, instance: Handle, surface: Handle)
    | SelectPhysicalDevice(gpu: Handle, surface: Handle, minMajor: nat, minMinor: nat)
    | CreateDevice(gpu: Handle, device: Handle)
    | CreateAllocator(gpu: Handle, device: Handle, instance: Handle, allocator: Handle)
    | CreateSwapchain(surface: Handle, mode: PresentMode, extent: Extent2D, swapchain: Handle)
    | CreateCommandPool(res: VkResult, pool: Handle, queueFamily: int, resettable: bool)
    | AllocateCommandBuffer(res: VkResult, pool: Handle, cmd: Handle)
    | CreateRenderPass(res: VkResult, renderPass: Handle, attachment: ColorAttachment)
    | CreateFramebuffer(res: VkResult, framebuffer: Handle, renderPass: Handle, attachments: seq<Handle>, extent: Extent2D, layers: nat)
    | CreateFence(res: VkResult, fence: Handle, signaled: bool)
    | CreateSemaphore(res: VkResult, semaphore: Handle)
    | CreateShaderModule(res: VkResult, shader: Handle, codeSize: nat)
    | CreatePipelineLayout(res: VkResult, layout: Handle)
    | BuildPipeline(pipeline: Handle, layout: Handle, renderPass: Handle, stages: seq<ShaderStage>, fixed: FixedFunction)

  /** A call that destroys something. */
  datatype Destruction =
    | DestroyShaderModule(moduleVar: ShaderModule)
    | DestroyAllocator(allocator: Handle)
    | DestroySwapchain(swapchain: Handle)
    | DestroyCommandPool(pool: Handle)
    | DestroyRenderPass(renderPass: Handle)
    | DestroyFramebuffer(framebuffer: Handle)
    | DestroyImageView(view: Handle)
    | DestroyFence(fence: Handle)
    | DestroySemaphore(semaphore: Handle)
    | DestroyPipeline(pipeline: Handle)
    | DestroyPipelineLayout(layout: Handle)
    | DestroyDevice(device: Handle)
    | DestroySurface(surface: Handle)
    | DestroyDebugMessenger(messenger: Handle)
    | DestroyInstance(instance: Handle)
    | DestroyWindow(window: Handle)

  /** A call made while drawing one frame. */
  datatype FrameCall =
    | WaitForFence(res: VkResult, fence: Handle, timeout: nat)
    | ResetFence(res: VkResult, fence: Handle)
    | AcquireNextImage(res: VkResult, swapchain: Handle, timeout: nat, signal: Handle, index: nat)
    | ResetCommandBuffer(res: VkResult, cmd: Handle)
    | BeginCommandBuffer(res: VkResult, cmd: Handle, oneTimeSubmit: bool)
    | CmdBeginRenderPass(cmd: Handle, renderPass: Handle, framebuffer: Handle, area: Extent2D)
    | CmdBindPipeline(cmd: Handle, pipeline: Handle)
    | CmdDraw(cmd: Handle, vertexCount: nat, instanceCount: nat, firstVertex: nat, firstInstance: nat)
    | CmdEndRenderPass(cmd: Handle)
    | EndCommandBuffer(res: VkResult, cmd: Handle)
    | QueueSubmit(res: VkResult, queue: Handle, cmd: Handle, wait: Handle, waitStage: WaitStage, signal: Handle, fence: Handle)
    | QueuePresent(res: VkResult, queue: Handle, swapchain: Handle, wait: Handle, index: nat)

  /** One call into SDL, vk-bootstrap, VMA or Vulkan, by the part of the
      engine's life it belongs to. */
  datatype Call = Create(creation: Creation) | Destroy(destruction: Destruction) | Frame(frameCall: FrameCall)

  predicate IsShaderLoad(c: Call) { c.Create? && c.creation.CreateShaderModule? }
  predicate IsPipelineBuild(c: Call) { c.Create? && c.creation.BuildPipeline? }
  predicate IsShaderDestroy(c: Call) { c.Destroy? && c.destruction.DestroyShaderModule? }

  /** The VkResult a call returned; a call whose result the source does not
      inspect counts as VK_SUCCESS. */
  function Result(c: Call): VkResult
  {
    match c
    case Create(CreateCommandPool(res, _, _, _)) => res
    case Create(AllocateCommandBuffer(res, _, _)) => res
    case Create(CreateRenderPass(res, _, _)) => res
    case Create(CreateFramebuffer(res, _, _, _, _, _)) => res
    case Create(CreateFence(res, _, _)) => res
    case Create(CreateSemaphore(res, _)) => res
    case Create(CreateShaderModule(res, _, _)) => res
    case Create(CreatePipelineLayout(res, _)) => res
    case Frame(WaitForFence(res, _, _)) => res
    case Frame(ResetFence(res, _)) => res
    case Frame(AcquireNextImage(res, _, _, _, _)) => res
    case Frame(ResetCommandBuffer(res, _)) => res
    case Frame(BeginCommandBuffer(res, _, _)) => res
    case Frame(EndCommandBuffer(res, _)) => res
    case Frame(QueueSubmit(res, _, _, _, _, _, _)) => res
    case Frame(QueuePresent(res, _, _, _, _)) => res
    case _ => VK_SUCCESS
  }

  /** True when the call returned a result and that result was not VK_SUCCESS. */
  predicate Failed(c: Call)
  {
    Result(c) != VK_SUCCESS
  }

  /** A failed call that VK_CHECK guards. Every call with a result is
      checked except the shader-module creation, whose failure
      `load_shader_module` reports without aborting (cleanup's fence wait,
      also unchecked, is never asked about). */
  predicate CheckFailed(c: Call)
  {
    Failed(c) && !IsShaderLoad(c)
  }

  /** No VK_CHECKed call among `t` failed. */
  predicate NoCheckFailed(t: seq<Call>)
  {
    forall c :: c in t ==> !CheckFailed(c)
  }

  /** What VK_CHECK leaves of the calls of a step: if the step went on, none
      of its checked calls failed; if it aborted, its last call is the first
      checked call that failed, and the abort carries that call's result. */
  predicate CutByCheck(t: seq<Call>, s: Status)
  {
    if s.Ok? then NoCheckFailed(t)
    else t != [] && CheckFailed(t[|t| - 1]) && Result(t[|t| - 1]) == s.err && NoCheckFailed(t[..|t| - 1])
  }

  /** Calls that passed every check, followed by a step cut by VK_CHECK, are
      cut by VK_CHECK in the same way. */
  lemma CutByCheckAppend(a: seq<Call>, b: seq<Call>, s: Status)
    requires NoCheckFailed(a) && CutByCheck(b, s)
    ensures CutByCheck(a + b, s)
  {
    if s.Abort? {
      assert (a + b)[..|a + b| - 1] == a + b[..|b| - 1];
    }
  }

  /** At most one prefix of a call schedule is cut short by VK_CHECK: the one
      that ends at the schedule's first failing checked call. So the calls an
      abort leaves are fixed by the replies alone. */
  lemma AbortPointUnique(s: seq<Call>, t1: seq<Call>, t2: seq<Call>, e1: VkResult, e2: VkResult)
    requires t1 <= s && t2 <= s && CutByCheck(t1, Abort(e1)) && CutByCheck(t2, Abort(e2))
    ensures t1 == t2
  {
  }

  lemma AppendAssoc<T>(a: seq<T>, b: seq<T>, c: seq<T>)
    ensures a + (b + c) == (a + b) + c
  {
  }

  /** A common front keeps the prefix order. */
  lemma PrefixAfter<T>(t0: seq<T>, a: seq<T>, b: seq<T>)
    requires a <= b
    ensures t0 + a <= t0 + b
  {
    assert (t0 + b)[..|t0 + a|] == t0 + b[..|a|];
  }

  /** A trace between `mid` and `mid + s` is `mid` followed by a prefix of `s`. */
  lemma PrefixSplit<T>(mid: seq<T>, t: seq<T>, s: seq<T>)
    requires mid <= t <= mid + s
    ensures t == mid + t[|mid|..] && t[|mid|..] <= s
  {
    assert t[|mid|..] == (mid + s)[|mid|..|t|];
  }

  /** `t` is a prefix of `a + b` whenever it is a prefix of `a`. */
  lemma PrefixOfAppend<T>(t: seq<T>, a: seq<T>, b: seq<T>)
    requires t <= a
    ensures t <= a + b
  {
    assert (a + b)[..|t|] == a[..|t|];
  }
}
