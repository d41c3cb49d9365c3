/** Runs of the frame ring: the counter and slot rotation over many frames,
    and the safety property the ring exists for, stated over the backend's
    history: a command buffer is never begun again while a submission that
    used it has not been waited on. */
module FrameSafety {
  import opened Common
  import opened Gpu
  import opened FrameRing

  /** Some `Wait(s)` lies strictly between positions `i` and `j` of `t`. */
  ghost predicate WaitedBetween(t: seq<Op>, s: Submission, i: int, j: int)
  {
    exists k :: i < k < j && 0 <= k < |t| && t[k] == Wait(s)
  }

  /** Whenever a buffer is begun, every earlier submission of that buffer
      has been waited on in between. */
  ghost predicate NoPrematureReuse(t: seq<Op>)
  {
    forall i, j :: 0 <= i < j < |t| && t[i].Submit? && t[j] == Begin(t[i].sub.cmdBuf) ==>
      WaitedBetween(t, t[i].sub, i, j)
  }

  /** `s` is still held by one of the two slots. */
  predicate HeldBy(s: Submission, a: Option<Submission>, b: Option<Submission>)
  {
    a == Some(s) || b == Some(s)
  }

  /** Every submission in `t` has been waited on since, or is still held. */
  ghost predicate AccountedFor(t: seq<Op>, a: Option<Submission>, b: Option<Submission>)
  {
    forall i :: 0 <= i < |t| && t[i].Submit? ==>
      WaitedBetween(t, t[i].sub, i, |t|) || HeldBy(t[i].sub, a, b)
  }

  /** Every buffer submitted in `t` is numbered below `next`. */
  ghost predicate SubmittedBelow(t: seq<Op>, next: nat)
  {
    forall i :: 0 <= i < |t| && t[i].Submit? ==> t[i].sub.cmdBuf.id < next
  }

  /** The invariant that holds between frames. */
  ghost predicate Inv(st: RenderState, g: Backend)
  {
    && st.resources.Some?
    && var res := st.resources.value;
    // command buffers only live inside a frame or inside a submission
    && (forall k :: 0 <= k < NumFrames ==> res.cmdBufs[k] == None)
    // handed-out buffers are older than the next fresh handle
    && (forall k :: 0 <= k < NumFrames && res.submitted[k].Some? ==> res.submitted[k].value.cmdBuf.id < g.next)
    && SubmittedBelow(g.trace, g.next)
    // the two slots' submissions use different buffers
    && (res.submitted[0].Some? && res.submitted[1].Some? ==> res.submitted[0].value.cmdBuf != res.submitted[1].value.cmdBuf)
    // a submission not yet waited on is still held by its slot
    && AccountedFor(g.trace, res.submitted[0], res.submitted[1])
    && NoPrematureReuse(g.trace)
  }

  /** The resources `Setup` produces satisfy the invariant, starting from a
      backend that has not recorded or submitted anything. */
  lemma {:induction false} SetupEstablishesInv(g: Backend, failing: set<Call>, session: Session, swapchain: Swapchain, renderer: Renderer)
    requires forall i :: 0 <= i < |g.trace| ==> !g.trace[i].Submit? && !g.trace[i].Begin?
    requires Setup(g, failing, session, swapchain, renderer).Ok?
    ensures var r := Setup(g, failing, session, swapchain, renderer).value;
      Inv(r.0, r.1)
  {
    var r := Setup(g, failing, session, swapchain, renderer).value;
    var t := r.1.trace;
    forall i | 0 <= i < |t|
      ensures !t[i].Submit? && !t[i].Begin?
    {
      if i < |g.trace| {
        assert t[i] == g.trace[i];
      } else {
        var pools := CreateMany(NumFrames, g, failing, CreateQueryPoolCall, CreatePoolOp).value;
        if i < |pools.1.trace| {
          assert t[i] == pools.1.trace[i];
        }
      }
    }
  }

  /** What the invariant needs to know about one frame, in terms of the
      history before it (`t`), the operations it issued (`ops`), the
      selected slot's prior submission, the other slot's submission, and
      the new submission. */
  ghost predicate StepFacts(t: seq<Op>, ops: seq<Op>, prior: Option<Submission>, other: Option<Submission>, sub: Submission, next: nat)
  {
    && RecordsThenSubmits(ops, sub.cmdBuf, sub)
    && (prior.Some? ==> |ops| > 0 && ops[0] == Wait(prior.value) && (sub.cmdBuf == prior.value.cmdBuf || next <= sub.cmdBuf.id))
    && (prior.None? ==> next <= sub.cmdBuf.id)
    && (other.Some? ==> other.value.cmdBuf != sub.cmdBuf)
  }

  /** A frame accounts for every submission: the prior one is waited on,
      the other slot keeps its own, the new one is held. */
  lemma {:induction false} AccountedStep(t: seq<Op>, ops: seq<Op>, prior: Option<Submission>, other: Option<Submission>, sub: Submission, next: nat)
    requires AccountedFor(t, prior, other)
    requires StepFacts(t, ops, prior, other, sub, next)
    ensures AccountedFor(t + ops, Some(sub), other)
  {
    var t' := t + ops;
    forall i | 0 <= i < |t'| && t'[i].Submit?
      ensures WaitedBetween(t', t'[i].sub, i, |t'|) || HeldBy(t'[i].sub, Some(sub), other)
    {
      if i < |t| {
        var s := t[i].sub;
        assert t'[i] == t[i];
        if WaitedBetween(t, s, i, |t|) {
          var k :| i < k < |t| && 0 <= k < |t| && t[k] == Wait(s);
          assert t'[k] == Wait(s);
        } else if prior == Some(s) {
          assert t'[|t|] == ops[0];
        }
      } else {
        assert t'[i] == ops[i - |t|];
      }
    }
  }

  /** A frame begins its buffer only once every earlier submission of that
      buffer has been waited on. */
  lemma {:induction false} ReuseStep(t: seq<Op>, ops: seq<Op>, prior: Option<Submission>, other: Option<Submission>, sub: Submission, next: nat)
    requires NoPrematureReuse(t)
    requires AccountedFor(t, prior, other)
    requires SubmittedBelow(t, next)
    requires StepFacts(t, ops, prior, other, sub, next)
    ensures NoPrematureReuse(t + ops)
  {
    var t' := t + ops;
    var b := sub.cmdBuf;
    forall i, j | 0 <= i < j < |t'| && t'[i].Submit? && t'[j] == Begin(t'[i].sub.cmdBuf)
      ensures WaitedBetween(t', t'[i].sub, i, j)
    {
      var s := t'[i].sub;
      if j < |t| {
        assert t'[i] == t[i] && t'[j] == t[j];
        var k :| i < k < j && 0 <= k < |t| && t[k] == Wait(s);
        assert t'[k] == Wait(s);
      } else {
        assert t'[j] == ops[j - |t|];
        if i >= |t| {
          assert false;
        }
        assert t'[i] == t[i];
        if WaitedBetween(t, s, i, |t|) {
          var k :| i < k < |t| && 0 <= k < |t| && t[k] == Wait(s);
          assert t'[k] == Wait(s);
        } else {
          assert prior == Some(s);
          assert t'[|t|] == ops[0];
        }
      }
    }
  }

  /** A frame keeps every submitted buffer below the next fresh handle. */
  lemma {:induction false} BelowStep(t: seq<Op>, ops: seq<Op>, sub: Submission, next: nat, next': nat)
    requires SubmittedBelow(t, next)
    requires next <= next' && sub.cmdBuf.id < next'
    requires forall j :: 0 <= j < |ops| && ops[j].Submit? ==> ops[j].sub == sub
    ensures SubmittedBelow(t + ops, next')
  {
    var t' := t + ops;
    forall i | 0 <= i < |t'| && t'[i].Submit?
      ensures t'[i].sub.cmdBuf.id < next'
    {
      if i >= |t| {
        assert t'[i] == ops[i - |t|];
      } else {
        assert t'[i] == t[i];
      }
    }
  }

  /** The facts one frame establishes, read off `RenderFrame`'s contract
      and `FrameOrder`. */
  lemma {:induction false} FrameStepFacts(st: RenderState, g: Backend, env: FrameEnv)
    requires Inv(st, g)
    requires RenderFrame(st, g, env).Ok?
    ensures var out := RenderFrame(st, g, env).value;
      var slot := Slot(st.currentFrame);
      var res := st.resources.value;
      var res' := out.state.resources.value;
      && g.trace <= out.gpu.trace
      && g.next <= out.gpu.next
      && res'.submitted[slot].Some?
      && res'.submitted[slot].value.cmdBuf.id < out.gpu.next
      && res'.submitted[1 - slot] == res.submitted[1 - slot]
      && (forall k :: 0 <= k < NumFrames ==> res'.cmdBufs[k] == None)
      && StepFacts(g.trace, Issued(g, out.gpu), res.submitted[slot], res.submitted[1 - slot], res'.submitted[slot].value, g.next)
  {
    FrameOrder(st, g, env);
  }

  /** One frame keeps the invariant. */
  lemma {:induction false} FramePreservesInv(st: RenderState, g: Backend, env: FrameEnv)
    requires Inv(st, g)
    requires RenderFrame(st, g, env).Ok?
    ensures var out := RenderFrame(st, g, env).value;
      Inv(out.state, out.gpu)
  {
    var out := RenderFrame(st, g, env).value;
    FrameStepFacts(st, g, env);
    var res := st.resources.value;
    var res' := out.state.resources.value;
    var slot := Slot(st.currentFrame);
    var prior := res.submitted[slot];
    var other := res.submitted[1 - slot];
    var sub := res'.submitted[slot].value;
    var ops := Issued(g, out.gpu);
    assert out.gpu.trace == g.trace + ops;
    assert AccountedFor(g.trace, prior, other) by {
      assert forall s :: HeldBy(s, res.submitted[0], res.submitted[1]) == HeldBy(s, prior, other);
    }
    AccountedStep(g.trace, ops, prior, other, sub, g.next);
    ReuseStep(g.trace, ops, prior, other, sub, g.next);
    BelowStep(g.trace, ops, sub, g.next, out.gpu.next);
    assert forall s :: HeldBy(s, res'.submitted[0], res'.submitted[1]) == HeldBy(s, Some(sub), other);
  }

  /** `render_frame` called once per tick, one backend answer per frame:
      every frame's outcome, up to the first panic. */
  function Run(st: RenderState, g: Backend, envs: seq<FrameEnv>): (r: Result<seq<FrameOut>, Fault>)
    ensures r.Ok? ==> |r.value| == |envs|
    decreases |envs|
  {
    if envs == [] then Ok([])
    else
      match RenderFrame(st, g, envs[0])
      case Err(e) => Err(e)
      case Ok(out) =>
        match Run(out.state, out.gpu, envs[1..])
        case Err(e) => Err(e)
        case Ok(rest) => Ok([out] + rest)
  }

  /** A run of at least one frame is its first frame followed by the run
      from that frame's outcome. */
  lemma {:induction false} RunUnfolds(st: RenderState, g: Backend, envs: seq<FrameEnv>)
    requires envs != [] && Run(st, g, envs).Ok?
    ensures RenderFrame(st, g, envs[0]).Ok?
    ensures var out := RenderFrame(st, g, envs[0]).value;
      var outs := Run(st, g, envs).value;
      && Run(out.state, out.gpu, envs[1..]).Ok?
      && outs[0] == out
      && outs == [out] + Run(out.state, out.gpu, envs[1..]).value
      && (forall k :: 1 <= k < |outs| ==> outs[k] == Run(out.state, out.gpu, envs[1..]).value[k - 1])
  {
  }

  /** The state frame `k` of a run starts from. */
  function StateBefore(st: RenderState, outs: seq<FrameOut>, k: nat): RenderState
    requires k <= |outs|
  {
    if k == 0 then st else outs[k - 1].state
  }

  /** The backend frame `k` of a run starts from. */
  function GpuBefore(g: Backend, outs: seq<FrameOut>, k: nat): Backend
    requires k <= |outs|
  {
    if k == 0 then g else outs[k - 1].gpu
  }

  /** A frame that started from `before` on backend `bg` advanced the
      counter by one and stored a fresh submission, one numbered from the
      backend's `next` on, in `slot`, and left the other slot's submission
      as it was. */
  ghost predicate StoredIn(before: RenderState, bg: Backend, out: FrameOut, slot: nat)
  {
    && slot < NumFrames
    && before.resources.Some?
    && out.state.resources.Some?
    && out.state.currentFrame == before.currentFrame + 1
    && out.state.resources.value.submitted[slot].Some?
    && bg.next <= out.state.resources.value.submitted[slot].value.id < out.gpu.next
    && out.state.resources.value.submitted[1 - slot] == before.resources.value.submitted[1 - slot]
  }

  /** Every frame of `outs`, run from `st` on `g`, stored a fresh
      submission in the slot its counter selected. */
  ghost predicate Rotates(st: RenderState, g: Backend, outs: seq<FrameOut>)
    decreases |outs|
  {
    outs == [] ||
      (StoredIn(st, g, outs[0], Slot(st.currentFrame)) && Rotates(outs[0].state, outs[0].gpu, outs[1..]))
  }

  /** A run rotates through the slots. */
  lemma {:induction false} RunRotates(st: RenderState, g: Backend, envs: seq<FrameEnv>)
    requires Run(st, g, envs).Ok?
    ensures Rotates(st, g, Run(st, g, envs).value)
    decreases |envs|
  {
    if envs != [] {
      RunUnfolds(st, g, envs);
      var out := RenderFrame(st, g, envs[0]).value;
      FrameStored(st, g, envs[0]);
      RunRotates(out.state, out.gpu, envs[1..]);
    }
  }

  /** `Rotates`, frame by frame. */
  lemma {:induction false} RotatesAt(st: RenderState, g: Backend, outs: seq<FrameOut>)
    requires Rotates(st, g, outs)
    ensures forall k :: 0 <= k < |outs| ==>
      && outs[k].state.currentFrame == st.currentFrame + k + 1
      && StoredIn(StateBefore(st, outs, k), GpuBefore(g, outs, k), outs[k], Slot(st.currentFrame + k))
    decreases |outs|
  {
    if outs != [] {
      var out := outs[0];
      var rest := outs[1..];
      RotatesAt(out.state, out.gpu, rest);
      forall k | 1 <= k < |outs|
        ensures outs[k].state.currentFrame == st.currentFrame + k + 1
        ensures StoredIn(StateBefore(st, outs, k), GpuBefore(g, outs, k), outs[k], Slot(st.currentFrame + k))
      {
        assert outs[k] == rest[k - 1];
        assert StateBefore(st, outs, k) == StateBefore(out.state, rest, k - 1);
        assert GpuBefore(g, outs, k) == GpuBefore(out.gpu, rest, k - 1);
        assert out.state.currentFrame + (k - 1) == st.currentFrame + k;
      }
    }
  }

  /** Frame `k` of a run leaves the counter at `f + k + 1` and stores a
      fresh submission in slot `(f + k) % 2`, leaving the other slot alone. */
  lemma {:induction false} RunRotatesSlots(st: RenderState, g: Backend, envs: seq<FrameEnv>)
    requires Run(st, g, envs).Ok?
    ensures var outs := Run(st, g, envs).value;
      forall k :: 0 <= k < |outs| ==>
        && outs[k].state.currentFrame == st.currentFrame + k + 1
        && StoredIn(StateBefore(st, outs, k), GpuBefore(g, outs, k), outs[k], Slot(st.currentFrame + k))
  {
    RunRotates(st, g, envs);
    RotatesAt(st, g, Run(st, g, envs).value);
  }

  /** A completed frame stores a fresh submission in its slot. */
  lemma {:induction false} FrameStored(st: RenderState, g: Backend, env: FrameEnv)
    requires RenderFrame(st, g, env).Ok?
    ensures StoredIn(st, g, RenderFrame(st, g, env).value, Slot(st.currentFrame))
  {
    assert Slot(st.currentFrame) == 0 || Slot(st.currentFrame) == 1;
  }

  /** Start-up vectors of the right size: what a frame needs to complete
      when no backend call fails. */
  ghost predicate Provisioned(st: RenderState)
  {
    && st.resources.Some?
    && |st.resources.value.queryPools| == NumFrames
    && |st.resources.value.presentSemaphores| == NumFrames
  }

  /** When no backend call fails (an upload failure is only reported), a
      run from provisioned resources completes every frame. */
  lemma {:induction false} RunCompletes(st: RenderState, g: Backend, envs: seq<FrameEnv>)
    requires Provisioned(st)
    requires forall i :: 0 <= i < |envs| ==> envs[i].failing <= {UploadCall}
    ensures Run(st, g, envs).Ok?
    decreases |envs|
  {
    if envs != [] {
      assert envs[0].failing <= {UploadCall};
      assert Slot(st.currentFrame) < NumFrames;
      var out := RenderFrame(st, g, envs[0]).value;
      assert Provisioned(out.state);
      RunCompletes(out.state, out.gpu, envs[1..]);
    }
  }

  /** Start-up succeeds when creating the pools and semaphores succeeds,
      and a run after it then completes every frame as long as no backend
      call fails. */
  lemma {:induction false} SetupThenRunCompletes(g: Backend, failing: set<Call>, session: Session, swapchain: Swapchain, renderer: Renderer, envs: seq<FrameEnv>)
    requires CreateQueryPoolCall !in failing && CreateSemaphoreCall !in failing
    requires forall i :: 0 <= i < |envs| ==> envs[i].failing <= {UploadCall}
    ensures Setup(g, failing, session, swapchain, renderer).Ok?
    ensures var init := Setup(g, failing, session, swapchain, renderer).value;
      Run(init.0, init.1, envs).Ok?
  {
    var init := Setup(g, failing, session, swapchain, renderer).value;
    RunCompletes(init.0, init.1, envs);
  }

  /** A run from a state satisfying the invariant keeps it at every frame. */
  lemma {:induction false} RunPreservesInv(st: RenderState, g: Backend, envs: seq<FrameEnv>)
    requires Inv(st, g)
    requires Run(st, g, envs).Ok?
    ensures var outs := Run(st, g, envs).value;
      forall k :: 0 <= k < |outs| ==> Inv(outs[k].state, outs[k].gpu)
    decreases |envs|
  {
    if envs != [] {
      RunUnfolds(st, g, envs);
      var out := RenderFrame(st, g, envs[0]).value;
      FramePreservesInv(st, g, envs[0]);
      RunPreservesInv(out.state, out.gpu, envs[1..]);
    }
  }

  /** The ring's safety theorem: start the renderer on a backend that has
      not recorded or submitted anything yet and render any number of
      frames; at no point is a command buffer begun while a submission that
      used it is still unwaited. */
  lemma {:induction false} NoReuseBeforeWait(g: Backend, failing: set<Call>, session: Session, swapchain: Swapchain, renderer: Renderer, envs: seq<FrameEnv>)
    requires forall i :: 0 <= i < |g.trace| ==> !g.trace[i].Submit? && !g.trace[i].Begin?
    requires Setup(g, failing, session, swapchain, renderer).Ok?
    requires var init := Setup(g, failing, session, swapchain, renderer).value;
      Run(init.0, init.1, envs).Ok?
    ensures var init := Setup(g, failing, session, swapchain, renderer).value;
      var outs := Run(init.0, init.1, envs).value;
      forall k :: 0 <= k < |outs| ==> NoPrematureReuse(outs[k].gpu.trace)
  {
    var init := Setup(g, failing, session, swapchain, renderer).value;
    SetupEstablishesInv(g, failing, session, swapchain, renderer);
    RunPreservesInv(init.0, init.1, envs);
  }

  /** A run of three frames is the three frames one after the other. */
  lemma {:induction false} RunOfThree(st: RenderState, g: Backend, e0: FrameEnv, e1: FrameEnv, e2: FrameEnv)
    requires Run(st, g, [e0, e1, e2]).Ok?
    ensures RenderFrame(st, g, e0).Ok?
    ensures var out0 := RenderFrame(st, g, e0).value;
      RenderFrame(out0.state, out0.gpu, e1).Ok?
    ensures var out0 := RenderFrame(st, g, e0).value;
      var out1 := RenderFrame(out0.state, out0.gpu, e1).value;
      && RenderFrame(out1.state, out1.gpu, e2).Ok?
      && Run(st, g, [e0, e1, e2]).value == [out0, out1, RenderFrame(out1.state, out1.gpu, e2).value]
  {
    var envs := [e0, e1, e2];
    RunUnfolds(st, g, envs);
    var out0 := RenderFrame(st, g, e0).value;
    assert envs[1..] == [e1, e2];
    RunUnfolds(out0.state, out0.gpu, [e1, e2]);
    var out1 := RenderFrame(out0.state, out0.gpu, e1).value;
    assert [e1, e2][1..] == [e2];
    RunUnfolds(out1.state, out1.gpu, [e2]);
  }

  /** Two frames after a frame, the same slot is selected again, and the
      first thing that frame does is wait on the earlier frame's submission. */
  lemma {:induction false} WaitsTwoFramesBack(st: RenderState, g: Backend, e0: FrameEnv, e1: FrameEnv, e2: FrameEnv)
    requires Run(st, g, [e0, e1, e2]).Ok?
    ensures var outs := Run(st, g, [e0, e1, e2]).value;
      var first := outs[0].state.resources.value.submitted[Slot(st.currentFrame)].value;
      && Slot(st.currentFrame + 2) == Slot(st.currentFrame)
      && outs[1].gpu.trace <= outs[2].gpu.trace
      && |Issued(outs[1].gpu, outs[2].gpu)| > 0
      && Issued(outs[1].gpu, outs[2].gpu)[0] == Wait(first)
  {
    RunOfThree(st, g, e0, e1, e2);
    var out0 := RenderFrame(st, g, e0).value;
    var out1 := RenderFrame(out0.state, out0.gpu, e1).value;
    var slot := Slot(st.currentFrame);
    assert out1.state.resources.value.submitted[slot] == out0.state.resources.value.submitted[slot] by {
      assert out0.state.currentFrame == st.currentFrame + 1;
      assert Slot(st.currentFrame + 1) != slot;
    }
    assert Slot(out1.state.currentFrame) == slot;
    FrameOrder(out1.state, out1.gpu, e2);
  }

  /** Starting at frame 0, five frames store fresh submissions in the
      slots 0, 1, 0, 1, 0, each leaving the other slot alone. */
  lemma {:induction false} FiveFramesFromStart(g: Backend, failing: set<Call>, session: Session, swapchain: Swapchain, renderer: Renderer, envs: seq<FrameEnv>)
    requires |envs| == 5
    requires Setup(g, failing, session, swapchain, renderer).Ok?
    requires var init := Setup(g, failing, session, swapchain, renderer).value;
      Run(init.0, init.1, envs).Ok?
    ensures var init := Setup(g, failing, session, swapchain, renderer).value;
      var outs := Run(init.0, init.1, envs).value;
      && (forall k :: 0 <= k < 5 ==> outs[k].state.currentFrame == k + 1)
      && StoredIn(init.0, init.1, outs[0], 0)
      && StoredIn(outs[0].state, outs[0].gpu, outs[1], 1)
      && StoredIn(outs[1].state, outs[1].gpu, outs[2], 0)
      && StoredIn(outs[2].state, outs[2].gpu, outs[3], 1)
      && StoredIn(outs[3].state, outs[3].gpu, outs[4], 0)
  {
    var init := Setup(g, failing, session, swapchain, renderer).value;
    FiveFramesFromZero(init.0, init.1, envs);
  }

  /** Five frames from a counter at 0 use the slots 0, 1, 0, 1, 0. */
  lemma {:induction false} FiveFramesFromZero(st: RenderState, g: Backend, envs: seq<FrameEnv>)
    requires |envs| == 5 && st.currentFrame == 0
    requires Run(st, g, envs).Ok?
    ensures var outs := Run(st, g, envs).value;
      && (forall k :: 0 <= k < 5 ==> outs[k].state.currentFrame == k + 1)
      && StoredIn(st, g, outs[0], 0)
      && StoredIn(outs[0].state, outs[0].gpu, outs[1], 1)
      && StoredIn(outs[1].state, outs[1].gpu, outs[2], 0)
      && StoredIn(outs[2].state, outs[2].gpu, outs[3], 1)
      && StoredIn(outs[3].state, outs[3].gpu, outs[4], 0)
  {
    var outs := Run(st, g, envs).value;
    RunRotatesSlots(st, g, envs);
    assert Slot(0) == 0 && Slot(1) == 1 && Slot(2) == 0 && Slot(3) == 1 && Slot(4) == 0;
    assert StateBefore(st, outs, 0) == st && GpuBefore(g, outs, 0) == g;
    assert StateBefore(st, outs, 1) == outs[0].state && GpuBefore(g, outs, 1) == outs[0].gpu;
    assert StateBefore(st, outs, 2) == outs[1].state && GpuBefore(g, outs, 2) == outs[1].gpu;
    assert StateBefore(st, outs, 3) == outs[2].state && GpuBefore(g, outs, 3) == outs[2].gpu;
    assert StateBefore(st, outs, 4) == outs[3].state && GpuBefore(g, outs, 4) == outs[3].gpu;
  }

  /** A failed upload only prints a message: with or without it, the frame
      panics alike or ends in the same state. */
  lemma {:induction false} UploadFailureOnlyLogged(st: RenderState, g: Backend, env: FrameEnv)
    ensures var withError := RenderFrame(st, g, env.(failing := env.failing + {UploadCall}));
      var without := RenderFrame(st, g, env.(failing := env.failing - {UploadCall}));
      && withError.Ok? == without.Ok?
      && (withError.Ok? ==>
            && withError.value.state == without.value.state
            && withError.value.gpu == without.value.gpu
            && withError.value.uploadFailed
            && !without.value.uploadFailed)
  {
  }
}
