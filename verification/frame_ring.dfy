/** The two-slot frame ring of the render sub-app: the GPU resources created
    at start-up (`setup_piet_renderer`) and the per-frame wait, record,
    submit and present cycle (`render_frame`). */
module FrameRing {
  import opened Common
  import opened Gpu

  /** `NUM_FRAMES`: how many frames may be in flight at once. */
  const NumFrames: nat := 2

  /** Every per-slot timestamp query pool is created with room for 8 queries. */
  const QueryPoolCapacity: nat := 8

  /** A fixed-size `[Option<T>; NUM_FRAMES]` array. */
  type Slots<T> = s: seq<Option<T>> | |s| == NumFrames witness [None, None]

  datatype Session = Session(id: nat)

  datatype Swapchain = Swapchain(id: nat)

  datatype Renderer = Renderer(id: nat)

  /** `RenderResources`: the semaphore and query pool of each slot, the
      per-slot command buffer and submission, and the shared session,
      swapchain and renderer. */
  datatype RenderResources = RenderResources(
    presentSemaphores: seq<Semaphore>,
    queryPools: seq<QueryPool>,
    cmdBufs: Slots<CmdBuf>,
    submitted: Slots<Submission>,
    session: Session,
    swapchain: Swapchain,
    renderer: Renderer)

  /** The render-world resources `render_frame` works on: the non-send
      `Option<RenderResources>`, the `RenderFrame` counter and the drawing
      context. */
  datatype RenderState = RenderState(resources: Option<RenderResources>, currentFrame: nat, ctx: seq<DrawOp>)

  /** What the backend answers during one frame: which calls fail, whether
      waiting on the slot's prior submission hands its command buffer back
      (`wait` yields an `Option<CmdBuf>`), and the swapchain image and
      acquisition semaphore `swapchain.next()` yields. */
  datatype FrameEnv = FrameEnv(failing: set<Call>, recycles: bool, image: nat, acquireSem: Semaphore)

  /** A completed frame: the new state, the backend afterwards, and whether
      the upload error message was printed. */
  datatype FrameOut = FrameOut(state: RenderState, gpu: Backend, uploadFailed: bool)

  /** The slot a frame uses. */
  function Slot(frame: nat): nat
  {
    frame % NumFrames
  }

  /** The operations issued between two states of the backend. */
  function Issued(before: Backend, after: Backend): seq<Op>
    requires before.trace <= after.trace
  {
    after.trace[|before.trace|..]
  }

  // ---------------------------------------------------------------------
  // Start-up
  // ---------------------------------------------------------------------

  /** Creates `n` handles one after another, as `(0..n).map(..).collect()`
      does: the first failing creation panics and ends the collection. */
  function CreateMany(n: nat, g: Backend, failing: set<Call>, call: Call, mk: nat -> Op): (r: Result<(seq<nat>, Backend), Fault>)
    ensures r.Ok? ==>
      && |r.value.0| == n
      && r.value.1.next == g.next + n
      && (forall i :: 0 <= i < n ==> r.value.0[i] == g.next + i)
      && g.trace <= r.value.1.trace
      && |r.value.1.trace| == |g.trace| + n
      && (forall i :: |g.trace| <= i < |r.value.1.trace| ==> r.value.1.trace[i] == mk(g.next + (i - |g.trace|)))
    ensures r.Err? <==> n > 0 && call in failing
    ensures r.Err? ==> r.error == GpuError(call)
    decreases n
  {
    if n == 0 then Ok(([], g))
    else if call in failing then Err(GpuError(call))
    else
      match CreateMany(n - 1, Backend(g.next + 1, g.trace + [mk(g.next)]), failing, call, mk)
      case Err(e) => Err(e)
      case Ok(rest) => Ok(([g.next] + rest.0, rest.1))
  }

  function MakePool(id: nat): QueryPool
  {
    QueryPool(id, QueryPoolCapacity)
  }

  function CreatePoolOp(id: nat): Op
  {
    CreateQueryPool(MakePool(id))
  }

  function CreateSemaphoreOp(id: nat): Op
  {
    CreateSemaphore(Semaphore(id))
  }

  /** The resources `setup_piet_renderer` puts into the render world: two
      query pools, then two present semaphores, empty command-buffer and
      submission slots, frame counter 0 and a new drawing context. */
  function Setup(g: Backend, failing: set<Call>, session: Session, swapchain: Swapchain, renderer: Renderer): (r: Result<(RenderState, Backend), Fault>)
    ensures r.Ok? ==>
      var st := r.value.0;
      && st.currentFrame == 0
      && st.ctx == []
      && st.resources.Some?
      && st.resources.value.cmdBufs == [None, None]
      && st.resources.value.submitted == [None, None]
      && |st.resources.value.queryPools| == NumFrames
      && |st.resources.value.presentSemaphores| == NumFrames
      && (forall i :: 0 <= i < NumFrames ==> st.resources.value.queryPools[i].capacity == QueryPoolCapacity)
      && st.resources.value.queryPools[0] != st.resources.value.queryPools[1]
      && st.resources.value.presentSemaphores[0] != st.resources.value.presentSemaphores[1]
      && (forall i :: 0 <= i < NumFrames ==> g.next <= st.resources.value.presentSemaphores[i].id < r.value.1.next)
      && g.trace <= r.value.1.trace
    ensures r.Err? <==> CreateQueryPoolCall in failing || CreateSemaphoreCall in failing
  {
    var pools :- CreateMany(NumFrames, g, failing, CreateQueryPoolCall, CreatePoolOp);
    var sems :- CreateMany(NumFrames, pools.1, failing, CreateSemaphoreCall, CreateSemaphoreOp);
    var resources := RenderResources(
      [Semaphore(sems.0[0]), Semaphore(sems.0[1])],
      [MakePool(pools.0[0]), MakePool(pools.0[1])],
      [None, None],
      [None, None],
      session, swapchain, renderer);
    Ok((RenderState(Some(resources), 0, []), sems.1))
  }

  // ---------------------------------------------------------------------
  // One frame
  // ---------------------------------------------------------------------

  /** The commands recorded into a frame's buffer: the renderer's work, then
      the swapchain image is moved to a blit target, the render target is
      blitted onto it, and it is moved to the present layout. */
  function Recording(buf: CmdBuf, pool: QueryPool, slot: nat, image: nat): seq<Op>
  {
    [ Begin(buf), Record(buf, pool, slot),
      Barrier(buf, image, Undefined, BlitDst), Blit(buf, image),
      Barrier(buf, image, BlitDst, Present), Finish(buf) ]
  }

  /** The first step of a frame that panics, in the order the frame takes
      them: the wait and the query fetch (whose pool is indexed just
      before) only when the slot held a submission; the swapchain image;
      the allocation only when no buffer was recycled; the query pool
      indexed for recording; the present semaphore indexed for the
      submission; the submission; the presentation. */
  function FirstFault(waits: bool, allocates: bool, poolOk: bool, semOk: bool, failing: set<Call>): Option<Fault>
  {
    if waits && WaitCall in failing then Some(GpuError(WaitCall))
    else if waits && !poolOk then Some(IndexOutOfBounds)
    else if waits && FetchCall in failing then Some(GpuError(FetchCall))
    else if AcquireCall in failing then Some(GpuError(AcquireCall))
    else if allocates && AllocateCall in failing then Some(GpuError(AllocateCall))
    else if !poolOk then Some(IndexOutOfBounds)
    else if !semOk then Some(IndexOutOfBounds)
    else if SubmitCall in failing then Some(GpuError(SubmitCall))
    else if PresentCall in failing then Some(GpuError(PresentCall))
    else None
  }

  /** True when every `Begin` in `ops` records `buf`, every `Submit` submits
      `sub`, and every `Begin` comes before every `Submit`. */
  ghost predicate RecordsThenSubmits(ops: seq<Op>, buf: CmdBuf, sub: Submission)
  {
    && Begin(buf) in ops
    && (forall j :: 0 <= j < |ops| && ops[j].Begin? ==> ops[j].buf == buf)
    && (forall j :: 0 <= j < |ops| && ops[j].Submit? ==> ops[j].sub == sub)
    && (forall i, j :: 0 <= i < |ops| && 0 <= j < |ops| && ops[i].Begin? && ops[j].Submit? ==> i < j)
  }

  /** The work of a frame that does not panic: the buffer recorded (the one
      the prior submission hands back, else the slot's buffer, else a fresh
      one), the submission made, and the operations issued before, during
      and after recording. */
  datatype FramePlan = FramePlan(buf: CmdBuf, sub: Submission, pre: seq<Op>, post: seq<Op>)
  {
    function Ops(pool: QueryPool, slot: nat, image: nat): seq<Op>
    {
      pre + Recording(buf, pool, slot, image) + post
    }
  }

  /** The slot's buffer after the wait: what waiting on a prior submission
      answers (its own buffer, or none) replaces the slot's buffer; with no
      prior submission the slot's buffer stays. */
  function Recycled(res: RenderResources, slot: nat, recycles: bool): Option<CmdBuf>
    requires slot < NumFrames
  {
    match res.submitted[slot]
    case Some(prior) => if recycles then Some(prior.cmdBuf) else None
    case None => res.cmdBufs[slot]
  }

  function PlanFrame(st: RenderState, res: RenderResources, slot: nat, g: Backend, env: FrameEnv): FramePlan
    requires slot < NumFrames && slot < |res.queryPools| && slot < |res.presentSemaphores|
  {
    var prior := res.submitted[slot];
    var recycled := Recycled(res, slot, env.recycles);
    var buf := if recycled.Some? then recycled.value else CmdBuf(g.next);
    var subId := if recycled.Some? then g.next else g.next + 1;
    var sub := Submission(subId, buf, res.presentSemaphores[slot]);
    var retireOps := if prior.Some? then [Wait(prior.value), FetchQueryPool(res.queryPools[slot])] else [];
    var allocOps := if recycled.Some? then [] else [Allocate(buf)];
    FramePlan(
      buf, sub,
      retireOps + [Upload(st.ctx, slot), Acquire(env.image, env.acquireSem)] + allocOps,
      [Submit(sub, [env.acquireSem]), PresentImage(env.image, [res.presentSemaphores[slot]])])
  }

  /** `render_frame`. */
  function RenderFrame(st: RenderState, g: Backend, env: FrameEnv): (r: Result<FrameOut, Fault>)
    ensures st.resources.None? ==> r == Err(MissingResource("RenderResources"))
    // the counter advances by one, the resources are back, the context is reset
    ensures r.Ok? ==>
      && st.resources.Some?
      && r.value.state.resources.Some?
      && r.value.state.currentFrame == st.currentFrame + 1
      && r.value.state.ctx == []
    // the semaphores, query pools, session, swapchain and renderer are kept
    ensures r.Ok? ==>
      var res := st.resources.value;
      var res' := r.value.state.resources.value;
      res' == res.(cmdBufs := res'.cmdBufs, submitted := res'.submitted)
    // only the selected slot changes: its buffer is taken, a submission stored
    ensures r.Ok? ==>
      var slot := Slot(st.currentFrame);
      var res := st.resources.value;
      var res' := r.value.state.resources.value;
      && slot < |res.presentSemaphores|
      && slot < |res.queryPools|
      && res'.cmdBufs[slot] == None
      && res'.submitted[slot].Some?
      && res'.submitted[slot].value.signal == res.presentSemaphores[slot]
      && (forall k :: 0 <= k < NumFrames && k != slot ==>
            res'.cmdBufs[k] == res.cmdBufs[k] && res'.submitted[k] == res.submitted[k])
    // the backend's history only grows; the new submission is a fresh handle
    ensures r.Ok? ==>
      var sub := r.value.state.resources.value.submitted[Slot(st.currentFrame)].value;
      && g.trace <= r.value.gpu.trace
      && g.next <= sub.id < r.value.gpu.next
    // an upload failure is reported and nothing else
    ensures r.Ok? ==> r.value.uploadFailed == (UploadCall in env.failing)
  {
    if st.resources.None? then Err(MissingResource("RenderResources"))
    else
      var res := st.resources.value;
      var slot := Slot(st.currentFrame);
      var fault := FirstFault(res.submitted[slot].Some?, Recycled(res, slot, env.recycles).None?,
                              slot < |res.queryPools|, slot < |res.presentSemaphores|, env.failing);
      if fault.Some? then Err(fault.value)
      else
        var plan := PlanFrame(st, res, slot, g, env);
        var res' := res.(cmdBufs := res.cmdBufs[slot := None], submitted := res.submitted[slot := Some(plan.sub)]);
        var g' := Backend(plan.sub.id + 1, g.trace + plan.Ops(res.queryPools[slot], slot, env.image));
        Ok(FrameOut(RenderState(Some(res'), st.currentFrame + 1, []), g', UploadCall in env.failing))
  }

  /** When a frame panics, and what it uploads. */
  lemma {:induction false} FramePanics(st: RenderState, g: Backend, env: FrameEnv)
    ensures var r := RenderFrame(st, g, env);
      r.Ok? ==>
        && g.trace <= r.value.gpu.trace
        && Upload(st.ctx, Slot(st.currentFrame)) in Issued(g, r.value.gpu)
    ensures var r := RenderFrame(st, g, env);
      st.resources.Some? ==>
        var res := st.resources.value;
        var slot := Slot(st.currentFrame);
        var waits := res.submitted[slot].Some?;
        (r.Err? <==>
           || slot >= |res.queryPools| || slot >= |res.presentSemaphores|
           || (waits && (WaitCall in env.failing || FetchCall in env.failing))
           || AcquireCall in env.failing
           || ((if waits then !env.recycles else res.cmdBufs[slot].None?) && AllocateCall in env.failing)
           || SubmitCall in env.failing
           || PresentCall in env.failing)
    ensures var r := RenderFrame(st, g, env);
      st.resources.Some? && r.Err? ==>
        r.error == IndexOutOfBounds || (r.error.GpuError? && r.error.call in env.failing && r.error.call != UploadCall)
  {
    var r := RenderFrame(st, g, env);
    if r.Ok? {
      var res := st.resources.value;
      var slot := Slot(st.currentFrame);
      var plan := PlanFrame(st, res, slot, g, env);
      var ops := plan.Ops(res.queryPools[slot], slot, env.image);
      assert r.value.gpu.trace == g.trace + ops;
      assert Issued(g, r.value.gpu) == ops;
      assert Upload(st.ctx, slot) in plan.pre;
    }
  }

  /** What one frame asks of the backend, in order: a prior submission in
      the selected slot is waited on before anything else, and a buffer it
      hands back is the one recorded and submitted; with nothing to recycle,
      a fresh buffer is allocated first. Recording precedes submission. */
  lemma {:induction false} FrameOrder(st: RenderState, g: Backend, env: FrameEnv)
    requires RenderFrame(st, g, env).Ok?
    ensures var out := RenderFrame(st, g, env).value;
      var sub := out.state.resources.value.submitted[Slot(st.currentFrame)].value;
      && g.trace <= out.gpu.trace
      && RecordsThenSubmits(Issued(g, out.gpu), sub.cmdBuf, sub)
    ensures var out := RenderFrame(st, g, env).value;
      var slot := Slot(st.currentFrame);
      var prior := st.resources.value.submitted[slot];
      var sub := out.state.resources.value.submitted[slot].value;
      prior.Some? ==>
        && g.trace <= out.gpu.trace
        && |Issued(g, out.gpu)| > 0
        && Issued(g, out.gpu)[0] == Wait(prior.value)
        && (env.recycles ==> sub.cmdBuf == prior.value.cmdBuf)
        && (!env.recycles ==>
              && g.next <= sub.cmdBuf.id < out.gpu.next
              && Allocate(sub.cmdBuf) in Issued(g, out.gpu))
    ensures var out := RenderFrame(st, g, env).value;
      var slot := Slot(st.currentFrame);
      var res := st.resources.value;
      var sub := out.state.resources.value.submitted[slot].value;
      res.submitted[slot].None? ==>
        && (res.cmdBufs[slot].Some? ==> sub.cmdBuf == res.cmdBufs[slot].value)
        && (res.cmdBufs[slot].None? ==>
              && g.trace <= out.gpu.trace
              && g.next <= sub.cmdBuf.id < out.gpu.next
              && Allocate(sub.cmdBuf) in Issued(g, out.gpu))
  {
    var res := st.resources.value;
    var slot := Slot(st.currentFrame);
    var plan := PlanFrame(st, res, slot, g, env);
    FrameFacts(g, plan.Ops(res.queryPools[slot], slot, env.image), plan.pre, plan.buf, res.queryPools[slot], slot, env.image,
               plan.post, plan.sub, env.acquireSem, res.presentSemaphores[slot]);
  }

  /** The shape of one frame's operations gives `RecordsThenSubmits`. */
  lemma {:induction false} FrameFacts(g: Backend, ops: seq<Op>, pre: seq<Op>, buf: CmdBuf, pool: QueryPool, slot: nat, image: nat,
                   post: seq<Op>, sub: Submission, acquired: Semaphore, presentOn: Semaphore)
    requires ops == pre + Recording(buf, pool, slot, image) + post
    requires forall j :: 0 <= j < |pre| ==> !pre[j].Begin? && !pre[j].Submit?
    requires post == [Submit(sub, [acquired]), PresentImage(image, [presentOn])]
    ensures Issued(g, g.(trace := g.trace + ops)) == ops
    ensures RecordsThenSubmits(ops, buf, sub)
  {
    var t := g.trace + ops;
    assert t[|g.trace|..] == ops;
    var rec := Recording(buf, pool, slot, image);
    assert ops[|pre|] == Begin(buf);
    forall j | 0 <= j < |ops| && ops[j].Begin?
      ensures ops[j].buf == buf && j == |pre|
    {
    }
    forall j | 0 <= j < |ops| && ops[j].Submit?
      ensures ops[j].sub == sub && j == |pre| + |rec|
    {
    }
  }
}
