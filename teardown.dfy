/** What running the release tags does: each tag destroys the engine handles
    it names, read at the moment it runs. The handles are passed as a value
    because the flush changes none of them. */
module Teardown {
  import opened Vulkan
  import opened DeletionQueues
  import opened Boot

  /** The engine handles a release tag can read. */
  datatype OwnedHandles = OwnedHandles(
    allocator: Handle, swapchain: Handle, commandPool: Handle, renderPass: Handle,
    framebuffers: seq<Handle>, imageViews: seq<Handle>,
    renderFence: Handle, presentSemaphore: Handle, renderSemaphore: Handle,
    redTrianglePipeline: Handle, trianglePipeline: Handle, trianglePipelineLayout: Handle)

  /** A tag can run against `h`: a framebuffer tag names an existing index. */
  predicate Releasable(h: OwnedHandles, d: Deletor)
  {
    d.ReleaseFramebufferAndView? ==> d.index < |h.framebuffers| && d.index < |h.imageViews|
  }

  /** The calls one release tag makes. */
  function ReleaseCalls(h: OwnedHandles, d: Deletor): (cs: seq<Call>)
    requires Releasable(h, d)
    ensures 1 <= |cs| <= 3
    ensures forall c :: c in cs ==> c.Destroy?
  {
    match d
    case ReleaseAllocator => [Destroy(DestroyAllocator(h.allocator))]
    case ReleaseSwapchain => [Destroy(DestroySwapchain(h.swapchain))]
    case ReleaseCommandPool => [Destroy(DestroyCommandPool(h.commandPool))]
    case ReleaseRenderPass => [Destroy(DestroyRenderPass(h.renderPass))]
    case ReleaseFramebufferAndView(i) => [Destroy(DestroyFramebuffer(h.framebuffers[i])), Destroy(DestroyImageView(h.imageViews[i]))]
    case ReleaseSync => [Destroy(DestroyFence(h.renderFence)), Destroy(DestroySemaphore(h.presentSemaphore)), Destroy(DestroySemaphore(h.renderSemaphore))]
    case ReleasePipelines =>
      [Destroy(DestroyPipeline(h.redTrianglePipeline)), Destroy(DestroyPipeline(h.trianglePipeline)), Destroy(DestroyPipelineLayout(h.trianglePipelineLayout))]
  }

  /** The calls a sequence of tags makes when run in sequence order. */
  function ReleaseAll(h: OwnedHandles, ds: seq<Deletor>): seq<Call>
    requires forall d :: d in ds ==> Releasable(h, d)
  {
    if ds == [] then [] else ReleaseAll(h, ds[..|ds| - 1]) + ReleaseCalls(h, ds[|ds| - 1])
  }

  /** The calls a ledger makes when its tags run newest first. */
  function ReleaseNewestFirst(h: OwnedHandles, ds: seq<Deletor>): seq<Call>
    requires forall d :: d in ds ==> Releasable(h, d)
  {
    if ds == [] then [] else ReleaseNewestFirst(h, ds[1..]) + ReleaseCalls(h, ds[0])
  }

  /** Running a ledger newest first only destroys. */
  lemma {:induction false} ReleaseNewestFirstDestroys(h: OwnedHandles, ds: seq<Deletor>)
    requires forall d :: d in ds ==> Releasable(h, d)
    ensures forall c :: c in ReleaseNewestFirst(h, ds) ==> c.Destroy?
  {
    if ds != [] {
      assert forall d :: d in ds[1..] ==> d in ds;
      ReleaseNewestFirstDestroys(h, ds[1..]);
    }
  }

  /** Running one more tag of `ds` appends that tag's calls. */
  lemma ReleaseAllStep(h: OwnedHandles, ds: seq<Deletor>, i: nat)
    requires i < |ds|
    requires forall d :: d in ds ==> Releasable(h, d)
    ensures Releasable(h, ds[i])
    ensures forall d :: d in ds[..i + 1] ==> Releasable(h, d)
    ensures ReleaseAll(h, ds[..i + 1]) == ReleaseAll(h, ds[..i]) + ReleaseCalls(h, ds[i])
  {
    assert ds[i] in ds;
    assert forall d :: d in ds[..i + 1] ==> d in ds;
    assert ds[..i + 1][..i] == ds[..i];
  }

  /** Every tag of the reversal of a releasable ledger is releasable. */
  lemma ReversedReleasable(h: OwnedHandles, ds: seq<Deletor>)
    requires forall d :: d in ds ==> Releasable(h, d)
    ensures forall d :: d in Reversed(ds) ==> Releasable(h, d)
  {
    ReversedMultiset(ds);
    forall d | d in Reversed(ds)
      ensures Releasable(h, d)
    {
      assert d in multiset(Reversed(ds));
    }
  }

  /** Running a ledger newest first is running its reversal in order. */
  lemma {:induction false} NewestFirstIsReversed(h: OwnedHandles, ds: seq<Deletor>)
    requires forall d :: d in ds ==> Releasable(h, d)
    ensures forall d :: d in Reversed(ds) ==> Releasable(h, d)
    ensures ReleaseNewestFirst(h, ds) == ReleaseAll(h, Reversed(ds))
  {
    ReversedReleasable(h, ds);
    if ds != [] {
      var rest := Reversed(ds[1..]);
      assert Reversed(ds) == rest + [ds[0]];
      NewestFirstIsReversed(h, ds[1..]);
      assert Reversed(ds)[..|Reversed(ds)| - 1] == rest;
    }
  }

  /** With one framebuffer and one view per image, every tag `init`
      registers is releasable. */
  lemma InitLedgerReleasable(h: OwnedHandles, n: nat)
    requires |h.framebuffers| == n == |h.imageViews|
    ensures forall d :: d in InitRegistrations(n) ==> Releasable(h, d)
  {
    FramebufferDeletorsBounded(n);
  }

  /** Running the tags `init` registers newest first runs TeardownOrder. */
  lemma InitLedgerTeardown(h: OwnedHandles, n: nat)
    requires |h.framebuffers| == n == |h.imageViews|
    ensures forall d :: d in InitRegistrations(n) ==> Releasable(h, d)
    ensures ReleaseNewestFirst(h, InitRegistrations(n)) == ReleaseAll(h, TeardownOrder(n))
  {
    InitLedgerReleasable(h, n);
    FlushOrder(n);
    NewestFirstIsReversed(h, InitRegistrations(n));
  }
}
