/** One call of `draw` as data: the calls it makes, in order, for the replies
    the driver gives; where VK_CHECK cuts the frame short; and what the CPU
    can observe of the render fence afterwards. */
module Frame {
  import opened Vulkan

  /** The driver's replies to the checked calls of one frame, and the image
      index acquisition hands back. */
  datatype FrameReplies = FrameReplies(
    wait: VkResult, reset: VkResult, acquire: VkResult, imageIndex: nat,
    resetCmd: VkResult, begin: VkResult, end: VkResult, submit: VkResult, present: VkResult)
  {
    predicate AllSucceeded()
    {
      wait == VK_SUCCESS && reset == VK_SUCCESS && acquire == VK_SUCCESS && resetCmd == VK_SUCCESS &&
      begin == VK_SUCCESS && end == VK_SUCCESS && submit == VK_SUCCESS && present == VK_SUCCESS
    }
  }

  /** The engine handles one frame uses; `framebuffer` is the one at the
      acquired index and `pipeline` the selected variant. */
  datatype FrameContext = FrameContext(
    fence: Handle, swapchain: Handle, presentSemaphore: Handle, renderSemaphore: Handle,
    cmd: Handle, renderPass: Handle, framebuffer: Handle, pipeline: Handle, queue: Handle,
    extent: Extent2D)

  /** The engine fields `draw` reads, as a value. */
  datatype DrawHandles = DrawHandles(
    fence: Handle, swapchain: Handle, presentSemaphore: Handle, renderSemaphore: Handle, cmd: Handle,
    renderPass: Handle, framebuffers: seq<Handle>, trianglePipeline: Handle, redTrianglePipeline: Handle,
    queue: Handle, extent: Extent2D)

  /** The context of a frame: `selected` 0 binds the triangle pipeline and
      any other value the red one; `index` picks the framebuffer, and an
      index past the framebuffers picks none (the acquire then failed, so
      no recorded call uses it). */
  function ContextFor(h: DrawHandles, selected: int, index: nat): FrameContext
  {
    FrameContext(h.fence, h.swapchain, h.presentSemaphore, h.renderSemaphore, h.cmd, h.renderPass,
                 if index < |h.framebuffers| then h.framebuffers[index] else 0,
                 if selected == 0 then h.trianglePipeline else h.redTrianglePipeline,
                 h.queue, h.extent)
  }

  /** The twelve calls of a frame, assuming no VK_CHECK aborts. All are
      frame calls, and the four recording commands between the begin and
      the end of the command buffer report no result, so cannot fail. */
  function FrameSchedule(c: FrameContext, r: FrameReplies): (s: seq<Call>)
    ensures |s| == 12 && forall i :: 0 <= i < |s| ==> s[i].Frame?
    ensures forall i :: 5 <= i <= 8 ==> !Failed(s[i])
  {
    [Frame(WaitForFence(r.wait, c.fence, ONE_SECOND_NS)),
     Frame(ResetFence(r.reset, c.fence)),
     Frame(AcquireNextImage(r.acquire, c.swapchain, ONE_SECOND_NS, c.presentSemaphore, r.imageIndex)),
     Frame(ResetCommandBuffer(r.resetCmd, c.cmd)),
     Frame(BeginCommandBuffer(r.begin, c.cmd, true)),
     Frame(CmdBeginRenderPass(c.cmd, c.renderPass, c.framebuffer, c.extent)),
     Frame(CmdBindPipeline(c.cmd, c.pipeline)),
     Frame(CmdDraw(c.cmd, 3, 1, 0, 0)),
     Frame(CmdEndRenderPass(c.cmd)),
     Frame(EndCommandBuffer(r.end, c.cmd)),
     Frame(QueueSubmit(r.submit, c.queue, c.cmd, c.presentSemaphore, ColorAttachmentOutput, c.renderSemaphore, c.fence)),
     Frame(QueuePresent(r.present, c.queue, c.swapchain, c.renderSemaphore, r.imageIndex))]
  }

  /** How many calls of the schedule are made: up to and including the first
      checked call that fails. The present is reached exactly when every
      earlier checked call succeeded, and a shorter frame is an aborted one. */
  function StepsRun(r: FrameReplies): (n: nat)
    ensures 1 <= n <= 12
    ensures n == 12 <==> (r.wait == VK_SUCCESS && r.reset == VK_SUCCESS && r.acquire == VK_SUCCESS &&
                          r.resetCmd == VK_SUCCESS && r.begin == VK_SUCCESS && r.end == VK_SUCCESS &&
                          r.submit == VK_SUCCESS)
    ensures n < 12 ==> FrameStatus(r).Abort?
  {
    if r.wait != VK_SUCCESS then 1
    else if r.reset != VK_SUCCESS then 2
    else if r.acquire != VK_SUCCESS then 3
    else if r.resetCmd != VK_SUCCESS then 4
    else if r.begin != VK_SUCCESS then 5
    else if r.end != VK_SUCCESS then 10
    else if r.submit != VK_SUCCESS then 11
    else 12
  }

  /** The result VK_CHECK aborts a frame with, or `Ok`: a frame is `Ok`
      exactly when all eight checked calls succeed, and an abort carries
      a failure code. */
  function FrameStatus(r: FrameReplies): (s: Status)
    ensures s.Ok? <==> r.AllSucceeded()
    ensures s.Abort? ==> s.err != VK_SUCCESS
  {
    if r.wait != VK_SUCCESS then Abort(r.wait)
    else if r.reset != VK_SUCCESS then Abort(r.reset)
    else if r.acquire != VK_SUCCESS then Abort(r.acquire)
    else if r.resetCmd != VK_SUCCESS then Abort(r.resetCmd)
    else if r.begin != VK_SUCCESS then Abort(r.begin)
    else if r.end != VK_SUCCESS then Abort(r.end)
    else if r.submit != VK_SUCCESS then Abort(r.submit)
    else if r.present != VK_SUCCESS then Abort(r.present)
    else Ok
  }

  /** The calls a frame actually makes. */
  function FrameCalls(c: FrameContext, r: FrameReplies): seq<Call>
  {
    FrameSchedule(c, r)[..StepsRun(r)]
  }

  /** VK_CHECK stops the frame at the first failing call: every call made
      before the last one succeeded, the last one failed exactly when the
      frame aborts with its result, and a frame that succeeds makes all twelve. */
  lemma AbortIsFinal(c: FrameContext, r: FrameReplies)
    ensures var s := FrameCalls(c, r);
      1 <= |s| <= 12 &&
      (forall i :: 0 <= i < |s| - 1 ==> !Failed(s[i])) &&
      (Failed(s[|s| - 1]) <==> FrameStatus(r).Abort?) &&
      (FrameStatus(r).Abort? ==> Result(s[|s| - 1]) == FrameStatus(r).err) &&
      (FrameStatus(r).Ok? <==> r.AllSucceeded()) &&
      (FrameStatus(r).Ok? ==> s == FrameSchedule(c, r))
  {
    var s, k := FrameSchedule(c, r), StepsRun(r);
    assert FrameCalls(c, r) == s[..k];
    forall i | 0 <= i < k - 1
      ensures !Failed(s[..k][i])
    {
      assert s[..k][i] == s[i];
    }
  }

  /** Each successful frame: the wait, the reset and the acquire come first,
      in that order; recording targets the given framebuffer and pipeline
      and draws 3 vertices, 1 instance; the submit waits, at the
      colour-attachment-output stage, on the semaphore the acquire signals,
      and signals the semaphore the present waits on and the fence the next
      frame waits on; the present shows the acquired index. */
  lemma FrameProtocol(c: FrameContext, r: FrameReplies)
    requires r.AllSucceeded()
    ensures var s := FrameCalls(c, r);
      |s| == 12 &&
      s[0] == Frame(WaitForFence(VK_SUCCESS, c.fence, ONE_SECOND_NS)) &&
      s[1] == Frame(ResetFence(VK_SUCCESS, c.fence)) &&
      s[2].Frame? && s[10].Frame? && s[11].Frame? &&
      var acquire, submit, present := s[2].frameCall, s[10].frameCall, s[11].frameCall;
      acquire.AcquireNextImage? && acquire.signal == c.presentSemaphore &&
      s[5] == Frame(CmdBeginRenderPass(c.cmd, c.renderPass, c.framebuffer, c.extent)) &&
      s[6] == Frame(CmdBindPipeline(c.cmd, c.pipeline)) &&
      s[7] == Frame(CmdDraw(c.cmd, 3, 1, 0, 0)) &&
      submit.QueueSubmit? && submit.wait == acquire.signal && submit.waitStage == ColorAttachmentOutput &&
      submit.signal == c.renderSemaphore && submit.fence == c.fence &&
      present.QueuePresent? && present.wait == submit.signal && present.index == acquire.index == r.imageIndex
  {
  }

  /** The call resets a fence. */
  predicate IsFenceReset(c: Call)
  {
    c.Frame? && c.frameCall.ResetFence?
  }

  /** The fence discipline: every reset of a fence comes immediately after a
      successful wait on that same fence. */
  ghost predicate ResetFollowsWait(t: seq<Call>)
  {
    forall k :: 0 <= k < |t| && IsFenceReset(t[k]) ==>
      0 < k && t[k - 1] == Frame(WaitForFence(VK_SUCCESS, t[k].frameCall.fence, ONE_SECOND_NS))
  }

  lemma ResetFollowsWaitAppend(t: seq<Call>, u: seq<Call>)
    requires ResetFollowsWait(t) && ResetFollowsWait(u)
    requires u != [] ==> !IsFenceReset(u[0])
    ensures ResetFollowsWait(t + u)
  {
    var tu := t + u;
    forall k | 0 <= k < |tu| && IsFenceReset(tu[k])
      ensures 0 < k && tu[k - 1] == Frame(WaitForFence(VK_SUCCESS, tu[k].frameCall.fence, ONE_SECOND_NS))
    {
      if k >= |t| {
        assert tu[k] == u[k - |t|];
        if k > |t| {
          assert tu[k - 1] == u[k - 1 - |t|];
        }
      }
    }
  }

  /** A frame appended to a trace that keeps the fence discipline keeps it. */
  lemma FrameKeepsFenceDiscipline(t: seq<Call>, c: FrameContext, r: FrameReplies)
    requires ResetFollowsWait(t)
    ensures ResetFollowsWait(t + FrameCalls(c, r))
  {
    var s := FrameCalls(c, r);
    assert ResetFollowsWait(s) by {
      forall k | 0 <= k < |s| && IsFenceReset(s[k])
        ensures 0 < k && s[k - 1] == Frame(WaitForFence(VK_SUCCESS, s[k].frameCall.fence, ONE_SECOND_NS))
      {
        assert k == 1;
      }
    }
    ResetFollowsWaitAppend(t, s);
  }

  /** Calls that reset no fence keep the fence discipline of the trace they
      extend, and so does any prefix of them. */
  lemma ResetFreeKeepsDiscipline(t: seq<Call>, t2: seq<Call>, s: seq<Call>)
    requires ResetFollowsWait(t) && t <= t2 <= t + s
    requires forall c :: c in s ==> !IsFenceReset(c)
    ensures ResetFollowsWait(t2)
  {
    PrefixSplit(t, t2, s);
    var u := t2[|t|..];
    assert forall k :: 0 <= k < |u| ==> u[k] == s[k];
    assert forall k :: 0 <= k < |u| ==> !IsFenceReset(u[k]);
    ResetFollowsWaitAppend(t, u);
  }

  /** What the CPU can observe of the render fence. `Pending` means a
      submission that will signal it is in flight. */
  datatype FenceState = NotCreated | Signaled | Unsignaled | Pending

  /** A frame may start when its wait can succeed: the fence is signaled, or
      a submission in flight will signal it. */
  predicate FrameReady(f: FenceState)
  {
    f == Signaled || f == Pending
  }

  /** The fence after a frame: a successful wait leaves it signaled, a
      successful reset unsignaled, a successful submit pending. */
  function FenceAfter(f: FenceState, r: FrameReplies): (g: FenceState)
    ensures r.wait != VK_SUCCESS ==> g == f
    ensures r.wait == VK_SUCCESS ==> (g == Pending <==> StepsRun(r) == 12)
    ensures r.wait == VK_SUCCESS ==> g != NotCreated
  {
    if r.wait != VK_SUCCESS then f
    else if r.reset != VK_SUCCESS then Signaled
    else if r.acquire != VK_SUCCESS || r.resetCmd != VK_SUCCESS || r.begin != VK_SUCCESS ||
            r.end != VK_SUCCESS || r.submit != VK_SUCCESS then Unsignaled
    else Pending
  }

  /** A frame that completes leaves the fence pending, so the next frame's
      wait can succeed; a frame that aborts after its reset and before its
      submit leaves a fence nobody will signal. */
  lemma FenceCycle(f: FenceState, r: FrameReplies)
    ensures r.AllSucceeded() ==> FenceAfter(f, r) == Pending && FrameReady(FenceAfter(f, r))
    ensures r.wait == VK_SUCCESS && r.reset == VK_SUCCESS &&
            !(r.acquire == VK_SUCCESS && r.resetCmd == VK_SUCCESS && r.begin == VK_SUCCESS &&
              r.end == VK_SUCCESS && r.submit == VK_SUCCESS)
            ==> !FrameReady(FenceAfter(f, r))
  {
  }
}
