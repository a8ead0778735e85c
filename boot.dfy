/** The start-up sequence of the engine as data: the replies the window
    system, vk-bootstrap, VMA and the driver give each init stage, the calls
    each stage makes in order, the release tags each stage registers, and the
    order in which flushing those tags releases the resources. */
module Boot {
  import opened Vulkan
  import opened DeletionQueues
  import opened ShaderLoader

  /** A release action on the deletion queue. The source's closures capture
      `this`, so they read the engine's handles when they run; the tags keep
      only what a closure captures by value (the framebuffer index). */
  datatype Deletor =
    | ReleaseAllocator
    | ReleaseSwapchain
    | ReleaseCommandPool
    | ReleaseRenderPass
    | ReleaseFramebufferAndView(index: nat)
    | ReleaseSync
    | ReleasePipelines

  /** Outputs of vk-bootstrap and VMA in `init_vulkan`, taken as given. */
  datatype VulkanReplies = VulkanReplies(
    instance: Handle, debugMessenger: Handle, surface: Handle, gpu: Handle,
    device: Handle, graphicsQueue: Handle, queueFamily: int, allocator: Handle)

  /** Outputs of vk-bootstrap's swapchain builder in `init_swapchain`. */
  datatype SwapchainReplies = SwapchainReplies(
    swapchain: Handle, imageFormat: int, images: seq<Handle>, views: seq<Handle>)

  datatype CommandReplies = CommandReplies(pool: Created, buffer: Created)

  datatype SyncReplies = SyncReplies(fence: Created, presentSemaphore: Created, renderSemaphore: Created)

  /** Replies for `init_pipelines`: the four shader files in load order, the
      pipeline layout, and the pipelines the builder returns. */
  datatype PipelineReplies = PipelineReplies(
    redFrag: ShaderReply, redVert: ShaderReply, triFrag: ShaderReply, triVert: ShaderReply,
    layout: Created, trianglePipeline: Handle, redTrianglePipeline: Handle)

  /** Everything the outside world answers during `init`. */
  datatype BootReplies = BootReplies(
    window: Handle, vulkan: VulkanReplies, swapchain: SwapchainReplies,
    commands: CommandReplies, renderPass: Created, framebuffers: seq<Created>,
    sync: SyncReplies, pipelines: PipelineReplies)
  {
    /** vk-bootstrap yields one view per image; the driver is asked for one
        framebuffer per image. */
    predicate WellFormed()
    {
      |swapchain.images| == |swapchain.views| == |framebuffers|
    }
  }

  /** Vulkan 1.1, required of the instance and of the physical device. */
  const API_MAJOR: nat := 1
  const API_MINOR: nat := 1

  /** The colour attachment of `init_default_renderpass`: cleared on load,
      stored, undefined on entry and presentable on exit. */
  function DefaultColorAttachment(format: int): ColorAttachment
  {
    ColorAttachment(format, 1, LoadOpClear, StoreOpStore, LoadOpDontCare, StoreOpDontCare,
                    LayoutUndefined, LayoutPresentSrc, LayoutColorAttachmentOptimal)
  }

  function VulkanSchedule(window: Handle, v: VulkanReplies): seq<Call>
  {
    [Create(CreateInstance(v.instance, v.debugMessenger, API_MAJOR, API_MINOR)),
     Create(CreateSurface(window, v.instance, v.surface)),
     Create(SelectPhysicalDevice(v.gpu, v.surface, API_MAJOR, API_MINOR)),
     Create(CreateDevice(v.gpu, v.device)),
     Create(CreateAllocator(v.gpu, v.device, v.instance, v.allocator))]
  }

  function SwapchainSchedule(surface: Handle, s: SwapchainReplies, extent: Extent2D): seq<Call>
  {
    [Create(CreateSwapchain(surface, Fifo, extent, s.swapchain))]
  }

  function CommandSchedule(queueFamily: int, c: CommandReplies): seq<Call>
  {
    [Create(CreateCommandPool(c.pool.result, c.pool.handle, queueFamily, true)),
     Create(AllocateCommandBuffer(c.buffer.result, c.pool.handle, c.buffer.handle))]
  }

  function RenderPassSchedule(format: int, rp: Created): seq<Call>
  {
    [Create(CreateRenderPass(rp.result, rp.handle, DefaultColorAttachment(format)))]
  }

  /** The framebuffer creation call for image `i`: one attachment, the view
      at the same index, the window's extent and one layer. */
  function FramebufferCall(renderPass: Handle, view: Handle, reply: Created, extent: Extent2D): Call
  {
    Create(CreateFramebuffer(reply.result, reply.handle, renderPass, [view], extent, 1))
  }

  /** The calls of `init_framebuffers` for the first |replies| images. */
  function FramebufferSchedule(renderPass: Handle, views: seq<Handle>, replies: seq<Created>, extent: Extent2D): seq<Call>
    requires |replies| <= |views|
  {
    if replies == [] then []
    else
      var n := |replies| - 1;
      FramebufferSchedule(renderPass, views, replies[..n], extent)
        + [FramebufferCall(renderPass, views[n], replies[n], extent)]
  }

  /** Framebuffer `k` is created with exactly the view at index `k`. */
  lemma {:induction false} FramebufferScheduleAt(renderPass: Handle, views: seq<Handle>, replies: seq<Created>, extent: Extent2D, k: nat)
    requires |replies| <= |views| && k < |replies|
    ensures |FramebufferSchedule(renderPass, views, replies, extent)| == |replies|
    ensures FramebufferSchedule(renderPass, views, replies, extent)[k]
         == Create(CreateFramebuffer(replies[k].result, replies[k].handle, renderPass, [views[k]], extent, 1))
  {
    var n := |replies| - 1;
    FramebufferScheduleLength(renderPass, views, replies[..n], extent);
    if k < n {
      FramebufferScheduleAt(renderPass, views, replies[..n], extent, k);
    }
  }

  lemma {:induction false} FramebufferScheduleLength(renderPass: Handle, views: seq<Handle>, replies: seq<Created>, extent: Extent2D)
    requires |replies| <= |views|
    ensures |FramebufferSchedule(renderPass, views, replies, extent)| == |replies|
  {
    if replies != [] {
      FramebufferScheduleLength(renderPass, views, replies[..|replies| - 1], extent);
    }
  }

  /** The calls for the first `k` images are a prefix of the calls for all of them. */
  lemma {:induction false} FramebufferSchedulePrefix(renderPass: Handle, views: seq<Handle>, replies: seq<Created>, extent: Extent2D, k: nat)
    requires |replies| <= |views| && k <= |replies|
    ensures FramebufferSchedule(renderPass, views, replies[..k], extent) <= FramebufferSchedule(renderPass, views, replies, extent)
  {
    if k < |replies| {
      var n := |replies| - 1;
      assert replies[..n][..k] == replies[..k];
      FramebufferSchedulePrefix(renderPass, views, replies[..n], extent, k);
      PrefixOfAppend(FramebufferSchedule(renderPass, views, replies[..k], extent),
                     FramebufferSchedule(renderPass, views, replies[..n], extent),
                     [FramebufferCall(renderPass, views[n], replies[n], extent)]);
    } else {
      assert replies[..k] == replies;
    }
  }

  /** Framebuffer creations that all succeeded pass every check. */
  lemma {:induction false} FramebufferScheduleChecked(renderPass: Handle, views: seq<Handle>, replies: seq<Created>, extent: Extent2D)
    requires |replies| <= |views|
    requires forall k :: 0 <= k < |replies| ==> replies[k].result == VK_SUCCESS
    ensures NoCheckFailed(FramebufferSchedule(renderPass, views, replies, extent))
  {
    if replies != [] {
      var n := |replies| - 1;
      FramebufferScheduleChecked(renderPass, views, replies[..n], extent);
    }
  }

  /** The framebuffer calls of the first `made` images, appended to `t0`,
      when every one before the last succeeded: they are cut by VK_CHECK at
      the last one, and the stage went on iff that one succeeded too. */
  lemma FramebufferScheduleCut(t0: seq<Call>, renderPass: Handle, views: seq<Handle>, replies: seq<Created>,
                               extent: Extent2D, made: nat, status: Status)
    requires made <= |replies| <= |views|
    requires forall k :: 0 <= k < made - 1 ==> replies[k].result == VK_SUCCESS
    requires if made == 0 then status == Ok else status == Check(replies[made - 1].result)
    ensures CutByCheck((t0 + FramebufferSchedule(renderPass, views, replies[..made], extent))[|t0|..], status)
  {
    assert (t0 + FramebufferSchedule(renderPass, views, replies[..made], extent))[|t0|..]
        == FramebufferSchedule(renderPass, views, replies[..made], extent);
    if made == 0 {
      assert replies[..made] == [];
    } else {
      var pre := replies[..made - 1];
      assert replies[..made][..made - 1] == pre;
      FramebufferScheduleChecked(renderPass, views, pre, extent);
      var call := FramebufferCall(renderPass, views[made - 1], replies[made - 1], extent);
      assert FramebufferSchedule(renderPass, views, replies[..made], extent)
          == FramebufferSchedule(renderPass, views, pre, extent) + [call];
      CutByCheckAppend(FramebufferSchedule(renderPass, views, pre, extent), [call], status);
    }
  }

  function SyncSchedule(s: SyncReplies): seq<Call>
  {
    [Create(CreateFence(s.fence.result, s.fence.handle, true)),
     Create(CreateSemaphore(s.presentSemaphore.result, s.presentSemaphore.handle)),
     Create(CreateSemaphore(s.renderSemaphore.result, s.renderSemaphore.handle))]
  }

  /** The fixed-function state both pipelines are built with. */
  function PipelineFixedFunction(extent: Extent2D): FixedFunction
  {
    FixedFunction(TriangleList, Fill, extent, extent)
  }

  /** The four shader loads of `init_pipelines`, in source order; a failed
      load leaves its variable uninitialised. */
  function LoadRedFrag(p: PipelineReplies): LoadResult { LoadShaderModule(p.redFrag, Uninitialized) }
  function LoadRedVert(p: PipelineReplies): LoadResult { LoadShaderModule(p.redVert, Uninitialized) }
  function LoadTriFrag(p: PipelineReplies): LoadResult { LoadShaderModule(p.triFrag, Uninitialized) }
  function LoadTriVert(p: PipelineReplies): LoadResult { LoadShaderModule(p.triVert, Uninitialized) }

  function LoadCalls(p: PipelineReplies): seq<Call>
  {
    LoadRedFrag(p).calls + LoadRedVert(p).calls + LoadTriFrag(p).calls + LoadTriVert(p).calls
  }

  /** The calls of `init_pipelines` after the loads: the layout, then two
      builds from one builder whose stage list is cleared in between. */
  function PipelineBuilds(p: PipelineReplies, renderPass: Handle, extent: Extent2D): seq<Call>
  {
    var fixed := PipelineFixedFunction(extent);
    [Create(CreatePipelineLayout(p.layout.result, p.layout.handle)),
     Create(BuildPipeline(p.trianglePipeline, p.layout.handle, renderPass,
                   [ShaderStage(VertexStage, LoadTriVert(p).out), ShaderStage(FragmentStage, LoadTriFrag(p).out)], fixed)),
     Create(BuildPipeline(p.redTrianglePipeline, p.layout.handle, renderPass,
                   [ShaderStage(VertexStage, LoadRedVert(p).out), ShaderStage(FragmentStage, LoadRedFrag(p).out)], fixed))]
  }

  /** The four shader-module variables destroyed once both pipelines exist. */
  function ShaderDestroys(p: PipelineReplies): seq<Call>
  {
    [Destroy(DestroyShaderModule(LoadRedFrag(p).out)),
     Destroy(DestroyShaderModule(LoadRedVert(p).out)),
     Destroy(DestroyShaderModule(LoadTriFrag(p).out)),
     Destroy(DestroyShaderModule(LoadTriVert(p).out))]
  }

  /** Every call of `init_pipelines`, in order. */
  function PipelineSchedule(p: PipelineReplies, renderPass: Handle, extent: Extent2D): seq<Call>
  {
    LoadCalls(p) + PipelineBuilds(p, renderPass, extent) + ShaderDestroys(p)
  }

  /** The loads make no build or destroy calls. */
  lemma LoadCallsAreCreates(p: PipelineReplies)
    ensures forall c :: c in LoadCalls(p) ==> IsShaderLoad(c)
  {
    var a, b, c, d := LoadRedFrag(p).calls, LoadRedVert(p).calls, LoadTriFrag(p).calls, LoadTriVert(p).calls;
    assert forall x :: x in a ==> IsShaderLoad(x);
    assert forall x :: x in b ==> IsShaderLoad(x);
    assert forall x :: x in c ==> IsShaderLoad(x);
    assert forall x :: x in d ==> IsShaderLoad(x);
  }

  /** `init_pipelines` is cut by VK_CHECK only at its layout: a failed
      shader load is reported, not aborted on, so with a good layout every
      call passes, and with a bad one the stage ends right after the loads. */
  lemma PipelineScheduleCut(t0: seq<Call>, p: PipelineReplies, renderPass: Handle, extent: Extent2D)
    ensures p.layout.result == VK_SUCCESS ==>
      CutByCheck((t0 + PipelineSchedule(p, renderPass, extent))[|t0|..], Ok)
    ensures p.layout.result != VK_SUCCESS ==>
      CutByCheck((t0 + LoadCalls(p) + [Create(CreatePipelineLayout(p.layout.result, p.layout.handle))])[|t0|..],
                 Abort(p.layout.result))
  {
    LoadCallsAreCreates(p);
    var layout := Create(CreatePipelineLayout(p.layout.result, p.layout.handle));
    if p.layout.result == VK_SUCCESS {
      assert (t0 + PipelineSchedule(p, renderPass, extent))[|t0|..] == PipelineSchedule(p, renderPass, extent);
      assert NoCheckFailed(LoadCalls(p)) && NoCheckFailed(PipelineBuilds(p, renderPass, extent));
      assert NoCheckFailed(ShaderDestroys(p));
    } else {
      assert (t0 + LoadCalls(p) + [layout])[|t0|..] == LoadCalls(p) + [layout];
      assert (LoadCalls(p) + [layout])[..|LoadCalls(p) + [layout]| - 1] == LoadCalls(p);
    }
  }

  /** `init_pipelines` builds exactly two pipelines, both with the one layout
      and the stages [vertex, fragment], and destroys each of the four module
      variables exactly once, after both builds. */
  lemma PipelineScheduleShape(p: PipelineReplies, renderPass: Handle, extent: Extent2D)
    ensures var s := PipelineSchedule(p, renderPass, extent);
      var n := |s|;
      n >= 7 &&
      (forall i :: 0 <= i < n && IsPipelineBuild(s[i]) ==> i == n - 6 || i == n - 5) &&
      IsPipelineBuild(s[n - 6]) && IsPipelineBuild(s[n - 5]) &&
      var first, second := s[n - 6].creation, s[n - 5].creation;
      first.layout == second.layout == p.layout.handle &&
      first.pipeline == p.trianglePipeline && second.pipeline == p.redTrianglePipeline &&
      |first.stages| == |second.stages| == 2 &&
      first.stages[0].kind == second.stages[0].kind == VertexStage &&
      first.stages[1].kind == second.stages[1].kind == FragmentStage &&
      (forall i :: 0 <= i < n && IsShaderDestroy(s[i]) ==> n - 4 <= i) &&
      s[n - 4..] == [Destroy(DestroyShaderModule(LoadRedFrag(p).out)), Destroy(DestroyShaderModule(LoadRedVert(p).out)),
                     Destroy(DestroyShaderModule(LoadTriFrag(p).out)), Destroy(DestroyShaderModule(LoadTriVert(p).out))]
  {
    LoadCallsAreCreates(p);
  }

  /** When the four loads succeed with distinct handles, each module is
      destroyed exactly once. */
  lemma ShaderModulesDestroyedOnce(p: PipelineReplies, renderPass: Handle, extent: Extent2D, m: ShaderModule)
    requires LoadRedFrag(p).out.Module? && LoadRedVert(p).out.Module? && LoadTriFrag(p).out.Module? && LoadTriVert(p).out.Module?
    requires LoadRedFrag(p).out != LoadRedVert(p).out && LoadRedFrag(p).out != LoadTriFrag(p).out
    requires LoadRedFrag(p).out != LoadTriVert(p).out && LoadRedVert(p).out != LoadTriFrag(p).out
    requires LoadRedVert(p).out != LoadTriVert(p).out && LoadTriFrag(p).out != LoadTriVert(p).out
    requires m == LoadRedFrag(p).out || m == LoadRedVert(p).out || m == LoadTriFrag(p).out || m == LoadTriVert(p).out
    ensures multiset(PipelineSchedule(p, renderPass, extent))[Destroy(DestroyShaderModule(m))] == 1
  {
    var l, builds := LoadCalls(p), PipelineBuilds(p, renderPass, extent);
    var x := Destroy(DestroyShaderModule(m));
    assert x !in l by { LoadCallsAreCreates(p); }
    assert x !in builds;
    DestroysCountOnce(LoadRedFrag(p).out, LoadRedVert(p).out, LoadTriFrag(p).out, LoadTriVert(p).out, m);
    CountAfterAbsentPrefix(l + builds, ShaderDestroys(p), x);
  }

  lemma DestroysCountOnce(a: ShaderModule, b: ShaderModule, c: ShaderModule, d: ShaderModule, m: ShaderModule)
    requires a != b && a != c && a != d && b != c && b != d && c != d
    requires m == a || m == b || m == c || m == d
    ensures multiset([Destroy(DestroyShaderModule(a)), Destroy(DestroyShaderModule(b)), Destroy(DestroyShaderModule(c)), Destroy(DestroyShaderModule(d))])[Destroy(DestroyShaderModule(m))] == 1
  {
  }

  lemma CountAfterAbsentPrefix<T>(pre: seq<T>, post: seq<T>, x: T)
    requires x !in pre
    ensures multiset(pre + post)[x] == multiset(post)[x]
  {
    assert multiset(pre + post) == multiset(pre) + multiset(post);
  }

  /** The framebuffer handles the replies hand back, by image index. */
  function FramebufferHandles(replies: seq<Created>): (hs: seq<Handle>)
    ensures |hs| == |replies|
  {
    seq(|replies|, i requires 0 <= i < |replies| => replies[i].handle)
  }

  /** The release tags `init_framebuffers` pushes for images 0 .. n-1, in push order. */
  function FramebufferDeletors(n: nat): (ds: seq<Deletor>)
    ensures |ds| == n
  {
    if n == 0 then [] else FramebufferDeletors(n - 1) + [ReleaseFramebufferAndView(n - 1)]
  }

  /** The same tags newest first: image n-1 down to image 0. */
  function FramebufferDeletorsDown(n: nat): (ds: seq<Deletor>)
    ensures |ds| == n
    ensures forall d :: d in ds ==> d.ReleaseFramebufferAndView? && d.index < n
  {
    if n == 0 then [] else [ReleaseFramebufferAndView(n - 1)] + FramebufferDeletorsDown(n - 1)
  }

  /** Entry `k` of the push order releases image `k`. */
  lemma {:induction false} FramebufferDeletorsAt(n: nat, k: nat)
    requires k < n
    ensures FramebufferDeletors(n)[k] == ReleaseFramebufferAndView(k)
  {
    if k < n - 1 {
      FramebufferDeletorsAt(n - 1, k);
    }
  }

  /** Every framebuffer tag refers to an image below `n`. */
  lemma FramebufferDeletorsBounded(n: nat)
    ensures forall d :: d in FramebufferDeletors(n) && d.ReleaseFramebufferAndView? ==> d.index < n
  {
    forall d | d in FramebufferDeletors(n) && d.ReleaseFramebufferAndView?
      ensures d.index < n
    {
      var k :| 0 <= k < n && FramebufferDeletors(n)[k] == d;
      FramebufferDeletorsAt(n, k);
    }
  }

  /** The tags for the first `k` images are a prefix of the tags for all `n`. */
  lemma {:induction false} FramebufferDeletorsPrefix(k: nat, n: nat)
    requires k <= n
    ensures FramebufferDeletors(k) <= FramebufferDeletors(n)
  {
    if k < n {
      FramebufferDeletorsPrefix(k, n - 1);
      PrefixOfAppend(FramebufferDeletors(k), FramebufferDeletors(n - 1), [ReleaseFramebufferAndView(n - 1)]);
    }
  }

  /** Everything `init` registers, in registration order, for n swapchain images. */
  function InitRegistrations(n: nat): seq<Deletor>
  {
    [ReleaseAllocator, ReleaseSwapchain, ReleaseCommandPool, ReleaseRenderPass]
      + FramebufferDeletors(n) + [ReleaseSync, ReleasePipelines]
  }

  /** The registrations of the stages, one group after another, are the
      registrations of `init`. */
  lemma RegistrationsByStage(n: nat, d: seq<Deletor>)
    requires d == [ReleaseAllocator, ReleaseSwapchain]
    ensures d + [ReleaseCommandPool, ReleaseRenderPass] + FramebufferDeletors(n) + [ReleaseSync, ReleasePipelines]
            == InitRegistrations(n)
  {
    assert d + [ReleaseCommandPool, ReleaseRenderPass] == [ReleaseAllocator, ReleaseSwapchain, ReleaseCommandPool, ReleaseRenderPass];
  }

  /** The order in which flushing releases what `init` registered. */
  function TeardownOrder(n: nat): (ds: seq<Deletor>)
    ensures forall d :: d in ds && d.ReleaseFramebufferAndView? ==> d.index < n
  {
    [ReleasePipelines, ReleaseSync] + FramebufferDeletorsDown(n)
      + [ReleaseRenderPass, ReleaseCommandPool, ReleaseSwapchain, ReleaseAllocator]
  }

  lemma {:induction false} FramebufferDeletorsReversed(n: nat)
    ensures Reversed(FramebufferDeletors(n)) == FramebufferDeletorsDown(n)
  {
    if n > 0 {
      FramebufferDeletorsReversed(n - 1);
      ReversedAppend(FramebufferDeletors(n - 1), [ReleaseFramebufferAndView(n - 1)]);
      assert Reversed([ReleaseFramebufferAndView(n - 1)]) == [ReleaseFramebufferAndView(n - 1)];
    }
  }

  /** Flushing the ledger `init` builds releases pipelines, then the sync
      objects, then framebuffer/view n-1 down to 0, then the render pass,
      command pool, swapchain and allocator. */
  lemma FlushOrder(n: nat)
    ensures Reversed(InitRegistrations(n)) == TeardownOrder(n)
  {
    var front: seq<Deletor> := [ReleaseAllocator, ReleaseSwapchain, ReleaseCommandPool, ReleaseRenderPass];
    var back: seq<Deletor> := [ReleaseSync, ReleasePipelines];
    var fbs := FramebufferDeletors(n);
    ReversedAppend(front + fbs, back);
    ReversedAppend(front, fbs);
    FramebufferDeletorsReversed(n);
    ReversedPair(ReleaseSync, ReleasePipelines);
    ReversedQuad(ReleaseAllocator, ReleaseSwapchain, ReleaseCommandPool, ReleaseRenderPass);
  }

  lemma ReversedPair<T>(a: T, b: T)
    ensures Reversed([a, b]) == [b, a]
  {
    assert [a, b][1..] == [b];
    assert Reversed([b]) == [b];
  }

  lemma ReversedQuad<T>(a: T, b: T, c: T, d: T)
    ensures Reversed([a, b, c, d]) == [d, c, b, a]
  {
    ReversedAppend([a, b], [c, d]);
    ReversedPair(a, b);
    ReversedPair(c, d);
    assert [a, b] + [c, d] == [a, b, c, d];
  }

  lemma {:induction false} FramebufferDeletorsDownAt(n: nat, k: nat)
    requires k < n
    ensures FramebufferDeletorsDown(n)[n - 1 - k] == ReleaseFramebufferAndView(k)
  {
    if k < n - 1 {
      FramebufferDeletorsDownAt(n - 1, k);
    }
  }

  /** In the flush order, framebuffer/view `k` is released after the pipelines
      and sync objects and before the render pass its framebuffer refers to
      and the swapchain its view was made from. */
  lemma TeardownPositions(n: nat, k: nat)
    requires k < n
    ensures var t := TeardownOrder(n);
      |t| == n + 6 &&
      t[0] == ReleasePipelines && t[1] == ReleaseSync &&
      t[n + 1 - k] == ReleaseFramebufferAndView(k) &&
      t[n + 2] == ReleaseRenderPass && t[n + 3] == ReleaseCommandPool &&
      t[n + 4] == ReleaseSwapchain && t[n + 5] == ReleaseAllocator
  {
    FramebufferDeletorsDownAt(n, k);
  }

  /** The calls of each start-up stage in `init`'s order, assuming no
      VK_CHECK aborts: the window, then the seven `init_*` stages. */
  function BootStages(b: BootReplies, extent: Extent2D): (ss: seq<seq<Call>>)
    requires b.WellFormed()
    ensures |ss| == 8
  {
    [[Create(CreateWindow(b.window, extent))],
     VulkanSchedule(b.window, b.vulkan),
     SwapchainSchedule(b.vulkan.surface, b.swapchain, extent),
     CommandSchedule(b.vulkan.queueFamily, b.commands),
     RenderPassSchedule(b.swapchain.imageFormat, b.renderPass),
     FramebufferSchedule(b.renderPass.handle, b.swapchain.views, b.framebuffers, extent),
     SyncSchedule(b.sync),
     PipelineSchedule(b.pipelines, b.renderPass.handle, extent)]
  }

  /** The stages' calls one after the other. */
  function Flatten(ss: seq<seq<Call>>): seq<Call>
  {
    if ss == [] then [] else Flatten(ss[..|ss| - 1]) + ss[|ss| - 1]
  }

  /** Running one more stage appends its calls. */
  lemma FlattenStep(ss: seq<seq<Call>>, j: nat)
    requires j < |ss|
    ensures Flatten(ss[..j + 1]) == Flatten(ss[..j]) + ss[j]
  {
    assert ss[..j + 1][..j] == ss[..j];
  }

  /** The stages before `j` followed by part of stage `j` are a prefix of all
      the stages' calls. */
  lemma {:induction false} FlattenPrefix(ss: seq<seq<Call>>, j: nat, part: seq<Call>)
    requires j < |ss| && part <= ss[j]
    ensures Flatten(ss[..j]) + part <= Flatten(ss)
  {
    var n := |ss| - 1;
    if j == n {
      assert ss[..n] == ss[..|ss| - 1];
    } else {
      assert ss[..n][..j] == ss[..j];
      assert ss[..n][j] == ss[j];
      FlattenPrefix(ss[..n], j, part);
      PrefixOfAppend(Flatten(ss[..j]) + part, Flatten(ss[..n]), ss[n]);
    }
  }

  /** A stage that ran to its end leaves the trace at the next stage boundary. */
  lemma StageDone(t0: seq<Call>, ss: seq<seq<Call>>, j: nat, t: seq<Call>)
    requires j < |ss| && t == t0 + Flatten(ss[..j]) + ss[j]
    ensures t == t0 + Flatten(ss[..j + 1])
  {
    FlattenStep(ss, j);
    AppendAssoc(t0, Flatten(ss[..j]), ss[j]);
  }

  /** Where start-up stands once the stages before `j` have run from trace
      `t0`: the trace is a prefix of those stages' calls, cut by VK_CHECK;
      while every check has passed it holds exactly their calls, and after
      an abort it ends in the first checked call that failed. */
  ghost predicate StagesRan(t0: seq<Call>, ss: seq<seq<Call>>, j: nat, t: seq<Call>, status: Status)
  {
    j <= |ss| && t0 <= t <= t0 + Flatten(ss[..j]) &&
    (status.Ok? ==> t == t0 + Flatten(ss[..j])) &&
    CutByCheck(t[|t0|..], status)
  }

  /** Before any stage has run, nothing has failed. */
  lemma StagesStart(t0: seq<Call>, ss: seq<seq<Call>>)
    ensures StagesRan(t0, ss, 0, t0, Ok)
  {
    assert ss[..0] == [];
  }

  /** Stage `j`, started at its boundary with every earlier check passed,
      made its calls or a prefix of them ending in its first failed checked
      call: start-up now stands after stage `j`. */
  lemma StagesStep(t0: seq<Call>, ss: seq<seq<Call>>, j: nat, mid: seq<Call>, t: seq<Call>, status: Status)
    requires j < |ss| && StagesRan(t0, ss, j, mid, Ok)
    requires mid <= t <= mid + ss[j]
    requires CutByCheck(t[|mid|..], status)
    requires status.Ok? ==> t == mid + ss[j]
    ensures StagesRan(t0, ss, j + 1, t, status)
  {
    FlattenStep(ss, j);
    AppendAssoc(t0, Flatten(ss[..j]), ss[j]);
    assert t[|t0|..] == mid[|t0|..] + t[|mid|..];
    CutByCheckAppend(mid[|t0|..], t[|mid|..], status);
    if status.Ok? {
      StageDone(t0, ss, j, t);
    }
  }

  /** An abort after stage `j` leaves start-up where it is: the trace is
      also within the calls of any later stage count. */
  lemma StagesRanLater(t0: seq<Call>, ss: seq<seq<Call>>, j: nat, k: nat, t: seq<Call>, status: Status)
    requires StagesRan(t0, ss, j, t, status) && status.Abort? && j <= k <= |ss|
    ensures StagesRan(t0, ss, k, t, status)
  {
    if j < k {
      assert ss[..k][..j] == ss[..j];
      FlattenPrefix(ss[..k], j, []);
      assert Flatten(ss[..j]) + [] == Flatten(ss[..j]);
      PrefixAfter(t0, Flatten(ss[..j]), Flatten(ss[..k]));
    }
  }

  /** No call of `s` belongs to drawing a frame. */
  predicate NoFrameCalls(s: seq<Call>)
  {
    forall c :: c in s ==> !c.Frame?
  }

  /** The framebuffer stage only creates. */
  lemma {:induction false} FramebufferScheduleNoFrame(renderPass: Handle, views: seq<Handle>, replies: seq<Created>, extent: Extent2D)
    requires |replies| <= |views|
    ensures NoFrameCalls(FramebufferSchedule(renderPass, views, replies, extent))
  {
    if replies != [] {
      FramebufferScheduleNoFrame(renderPass, views, replies[..|replies| - 1], extent);
    }
  }

  /** Stages that make no frame call make none one after the other. */
  lemma {:induction false} FlattenNoFrame(ss: seq<seq<Call>>)
    requires forall j :: 0 <= j < |ss| ==> NoFrameCalls(ss[j])
    ensures NoFrameCalls(Flatten(ss))
  {
    if ss != [] {
      var n := |ss| - 1;
      assert forall j :: 0 <= j < n ==> ss[..n][j] == ss[j];
      FlattenNoFrame(ss[..n]);
    }
  }

  /** Start-up makes no frame call: it only creates and destroys. */
  lemma BootMakesNoFrameCalls(b: BootReplies, extent: Extent2D)
    requires b.WellFormed()
    ensures NoFrameCalls(BootSchedule(b, extent))
  {
    var ss := BootStages(b, extent);
    FramebufferScheduleNoFrame(b.renderPass.handle, b.swapchain.views, b.framebuffers, extent);
    LoadCallsAreCreates(b.pipelines);
    FlattenNoFrame(ss);
  }

  /** The whole start-up call sequence, assuming no VK_CHECK aborts. */
  function BootSchedule(b: BootReplies, extent: Extent2D): seq<Call>
    requires b.WellFormed()
  {
    Flatten(BootStages(b, extent))
  }

  /** Every VK_CHECKed call of `init` succeeds: the command pool and buffer,
      the render pass, each framebuffer, the fence and both semaphores, and
      the pipeline layout. The shader loads and the builder are not checked. */
  predicate BootSucceeds(b: BootReplies)
  {
    b.commands.pool.result == VK_SUCCESS && b.commands.buffer.result == VK_SUCCESS &&
    b.renderPass.result == VK_SUCCESS &&
    (forall i :: 0 <= i < |b.framebuffers| ==> b.framebuffers[i].result == VK_SUCCESS) &&
    b.sync.fence.result == VK_SUCCESS && b.sync.presentSemaphore.result == VK_SUCCESS &&
    b.sync.renderSemaphore.result == VK_SUCCESS &&
    b.pipelines.layout.result == VK_SUCCESS
  }
}
