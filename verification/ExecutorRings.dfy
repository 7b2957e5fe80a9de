/**
 The executor on its rings. The transition system of the executor has plain queues for SQEs and CQEs;
 here the linked submitter's ring and the completion ring run beside it, and agree with those queues
 in every run: what the kernel reads from a slot is what the executor submitted, and what the loop of
 `process_cqes` reads from a slot is what the kernel posted.
 */
module ExecutorRings {
  import opened Wrappers
  import opened Bits
  import opened SlotSpec
  import opened Executor
  import opened ExecutorMaps
  import opened ExecutorRouting
  import opened ExecutorSteps
  import opened ExecutorRuns
  import L = LinkedSubmission
  import Q = CompletionRing
  import Dedup
  import RingBuf
  import SubmissionRing

  datatype System = System(exec: State, sub: L.State, comp: Q.State<Cqe>)

  /** A step of the executor, or the first or last line of `process_cqes`. */
  datatype Move = Exec(step: Step) | BeginPass | EndPass

  ghost predicate Starts(x: System) {
    Init(x.exec) && L.Init(x.sub) && Q.Init(x.comp)
  }

  /** What `submit_sqe` puts into an SQE. */
  function SqeOf(t: Token): L.Sqe {
    L.Sqe(t.userData, t.bid, true)
  }

  predicate Carries(e: L.Sqe, t: Token) {
    e.userData == t.userData && e.body == t.bid
  }

  predicate KernelStep(step: Step) {
    step.KernelTake? || step.KernelPost?
  }

  predicate ProcessStep(step: Step) {
    step.ProcessToWoken? || step.ProcessToQueue?
  }

  /**
   The executor's own conditions, and those of the rings: an SQE is filled only if there is a free one,
   the kernel posts only into a free slot, `process_cqes` runs without anything but the kernel in
   between, and `has_next` tells the truth.
   */
  ghost predicate Permitted(x: System, m: Move) {
    match m
    case BeginPass => x.comp.scan.None? && (InSubmit(x.exec) || x.exec.rt.phase.Processing?)
    case EndPass => Q.Allowed(x.comp, Q.Finish)
    case Exec(step) =>
      && Allowed(x.exec, step)
      && (ProcessStep(step) ==> Q.Allowed(x.comp, Q.Handle))
      && (!ProcessStep(step) && !KernelStep(step) ==> x.comp.scan.None?)
      && (step.FillSqe? ==> L.InFlight(x.sub) + x.sub.count <= x.sub.ring.mask)
      && (step.KernelPost? ==> |x.comp.posted| - x.comp.released <= x.comp.ring.mask)
      && (step.BeginTurn? || step.ChooseWait? ==> (Q.SeesNext(x.comp.ring) <==> x.exec.ring.cq != []))
  }

  /** The step of the submission ring that goes with a step of the executor. */
  function SubStep(s: State, step: Step): Option<L.Step> {
    match step
    case FillSqe => if s.ring.prep == [] then None else Some(L.SubmitSqe(SqeOf(s.ring.prep[0])))
    case SubmitBatch => Some(L.SubmitBatch)
    case AbandonBatch => Some(L.DropBatch)
    case KernelTake => Some(L.KernelTake)
    case _ => None
  }

  function CompStep(s: State, step: Step): Option<Q.Step<Cqe>> {
    match step
    case KernelPost(i, res, bufId, payload) =>
      if i < |s.ring.flight| then
        var t := s.ring.flight[i];
        Some(Q.KernelPost(Cqe(t.userData, res, bufId, t.req, payload)))
      else None
    case ProcessToWoken => Some(Q.Handle)
    case ProcessToQueue => Some(Q.Handle)
    case _ => None
  }

  ghost function After(x: System, m: Move): System
    requires HeadOk(x.exec.io.completions) && HeadOk(x.exec.io.buffers) && Permitted(x, m)
    requires L.RingOk(x.sub.ring) && Q.RingOk(x.comp.ring)
  {
    match m
    case BeginPass => x.(comp := Q.Next(x.comp, Q.Begin))
    case EndPass => x.(comp := Q.Next(x.comp, Q.Finish))
    case Exec(step) =>
      var sub, comp := SubStep(x.exec, step), CompStep(x.exec, step);
      System(Next(x.exec, step),
             if sub.None? then x.sub else L.Next(x.sub, sub.value),
             if comp.None? then x.comp else Q.Next(x.comp, comp.value))
  }

  /** The SQEs that the kernel has yet to take are those of the queue, and likewise for the batch and for the CQEs. */
  ghost predicate Agrees(x: System) {
    && L.Inv(x.sub) && Q.Inv(x.comp)
    && L.InFlight(x.sub) == |x.exec.ring.sq|
    && (forall i | 0 <= i < |x.exec.ring.sq| :: Carries(x.sub.published[|x.sub.taken| + i], x.exec.ring.sq[i]))
    && |x.sub.draft| == |x.exec.ring.batch|
    && (forall i | 0 <= i < |x.sub.draft| :: Carries(x.sub.draft[i], x.exec.ring.batch[i]))
    && |x.comp.handled| <= |x.comp.posted| && x.comp.posted[|x.comp.handled|..] == x.exec.ring.cq
  }

  ghost predicate Sound(x: System) {
    SystemOk(x.exec) && Agrees(x)
  }

  // ------------------------------------------------------------------ the submission ring

  lemma FillAgrees(x: System)
    requires Sound(x) && x.exec.ring.prep != [] && L.InFlight(x.sub) + x.sub.count <= x.sub.ring.mask
    ensures var t, e := x.exec.ring.prep[0], SqeOf(x.exec.ring.prep[0]);
            var sub := L.Next(x.sub, L.SubmitSqe(e));
            && L.Allowed(x.sub, L.SubmitSqe(e)) && L.Inv(sub)
            && sub.draft == x.sub.draft + [e] && sub.published == x.sub.published && sub.taken == x.sub.taken
  {
    hide SystemOk, L.GetMut;
    L.FillKeepsInv(x.sub, SqeOf(x.exec.ring.prep[0]));
  }

  lemma SubmitAgrees(sub: L.State)
    requires L.Inv(sub)
    ensures var t := L.Next(sub, L.SubmitBatch);
            && L.Inv(t) && t.draft == [] && t.taken == sub.taken
            && t.published == sub.published + if sub.draft == [] then [] else L.Closed(sub.draft)
  {
    hide L.GetMut, L.Concat, L.Publish, Holds;
    L.PublishKeepsInv(sub);
    if sub.count != 0 { L.PublishRing(sub); }
  }

  lemma SubmitSqeAgrees(x: System)
    requires Agrees(x)
    ensures Agrees(x.(exec := x.exec.(ring := x.exec.ring.(sq := x.exec.ring.sq + x.exec.ring.batch, batch := [])),
                      sub := L.Next(x.sub, L.SubmitBatch)))
  {
    hide L.Concat, L.Intact, Q.Inv, L.Next;
    SubmitAgrees(x.sub);
    var t := L.Next(x.sub, L.SubmitBatch);
    var sq := x.exec.ring.sq + x.exec.ring.batch;
    assert |x.sub.taken| <= |x.sub.published|;
    forall i | 0 <= i < |sq|
      ensures Carries(t.published[|t.taken| + i], sq[i])
    {
      if i >= |x.exec.ring.sq| {
        assert Carries(x.sub.draft[i - |x.exec.ring.sq|], x.exec.ring.batch[i - |x.exec.ring.sq|]);
      }
    }
  }

  lemma TakeAgrees(x: System)
    requires Agrees(x) && x.exec.ring.sq != []
    ensures var t := L.Next(x.sub, L.KernelTake);
            && L.Inv(t) && t.taken == x.sub.taken + [x.sub.published[|x.sub.taken|]]
            && t.published == x.sub.published && t.draft == x.sub.draft
  {
    hide L.Concat;
    L.TakeKeepsInv(x.sub);
  }

  lemma DropAgrees(sub: L.State)
    requires L.Inv(sub)
    ensures L.Inv(L.Next(sub, L.DropBatch)) && L.Next(sub, L.DropBatch) == sub.(count := 0, draft := [])
  {
    hide L.Concat;
    L.PrefixHeld(sub);
    assert L.All(L.Next(sub, L.DropBatch)) == sub.published;
  }

  // ------------------------------------------------------------------ every step

  lemma QueueStepAgrees(x: System, step: Step)
    requires Sound(x) && Permitted(x, Exec(step)) && HeadOk(x.exec.io.completions) && HeadOk(x.exec.io.buffers)
    requires QueueStep(step) && !step.KernelPost?
    ensures Agrees(After(x, Exec(step)))
  {
    hide SystemOk, L.Inv, L.Next, Q.Inv;
    match step {
      case FillSqe => FillAgrees(x);
      case SubmitBatch => SubmitSqeAgrees(x);
      case AbandonBatch => DropAgrees(x.sub);
      case KernelTake => TakeAgrees(x);
    }
  }

  lemma PostAgrees(x: System, e: Cqe)
    requires Agrees(x) && |x.comp.posted| - x.comp.released <= x.comp.ring.mask
    ensures var comp := Q.Next(x.comp, Q.KernelPost(e));
            Q.Inv(comp) && comp.handled == x.comp.handled && comp.posted == x.comp.posted + [e]
  {
    hide L.Inv;
    Q.PostKeepsInv(x.comp, e);
  }

  /** What the loop reads from the ring is the oldest CQE of the queue. */
  lemma HandleAgrees(x: System)
    requires Agrees(x) && Q.Allowed(x.comp, Q.Handle)
    ensures x.exec.ring.cq != []
    ensures var comp, sc := Q.Next(x.comp, Q.Handle), x.comp.scan.value;
            && Q.Inv(comp) && comp.posted == x.comp.posted && comp.handled == x.comp.handled + [x.exec.ring.cq[0]]
            && RingBuf.Get(RingBuf.View(x.comp.ring.slots, sc.offset, sc.size, x.comp.ring.mask), sc.next)
               == Some(x.exec.ring.cq[0])
  {
    hide L.Inv;
    Q.HandleKeepsInv(x.comp);
    assert x.comp.posted[|x.comp.handled|..][0] == x.comp.posted[|x.comp.handled|];
  }

  lemma CqStepAgrees(x: System, step: Step)
    requires Sound(x) && Permitted(x, Exec(step)) && HeadOk(x.exec.io.completions) && HeadOk(x.exec.io.buffers)
    requires step.KernelPost? || ProcessStep(step)
    ensures Agrees(After(x, Exec(step)))
  {
    hide SystemOk, L.Inv, Q.Inv, Q.Next, ProcessOne;
    match step {
      case KernelPost(i, res, bufId, payload) =>
        var t := x.exec.ring.flight[i];
        PostAgrees(x, Cqe(t.userData, res, bufId, t.req, payload));
      case _ => HandleAgrees(x);
    }
  }

  lemma OtherStepAgrees(x: System, step: Step)
    requires Sound(x) && Permitted(x, Exec(step)) && HeadOk(x.exec.io.completions) && HeadOk(x.exec.io.buffers)
    requires !QueueStep(step) && !ProcessStep(step)
    ensures Agrees(After(x, Exec(step)))
  {
    hide SystemOk, L.Inv, Q.Inv, PollAsync, DropFuture, NewCompletion, Insert, Admit, Dedup.Scan, Remove;
  }

  lemma RingMayFill(x: System)
    requires Agrees(x)
    ensures forall e | L.InFlight(x.sub) + x.sub.count <= x.sub.ring.mask :: L.Allowed(x.sub, L.SubmitSqe(e))
    ensures forall step: L.Step | !step.SubmitSqe? :: L.Allowed(x.sub, step)
  {
    hide L.Concat, L.Intact, Q.Inv;
  }

  /** Each step keeps the agreement, and the rings make steps that their own systems allow. */
  lemma MoveKeepsSound(x: System, m: Move)
    requires Sound(x) && Permitted(x, m)
    ensures HeadOk(x.exec.io.completions) && HeadOk(x.exec.io.buffers) && Sound(After(x, m))
    ensures m.Exec? && SubStep(x.exec, m.step).Some? ==> L.Allowed(x.sub, SubStep(x.exec, m.step).value)
    ensures m.Exec? && CompStep(x.exec, m.step).Some? ==> Q.Allowed(x.comp, CompStep(x.exec, m.step).value)
  {
    hide SystemOk, Agrees, Next, L.Next, Q.Next, L.Allowed;
    StorageReady(x.exec);
    RingMayFill(x);
    match m {
      case BeginPass => PassAgrees(x, Q.Begin);
      case EndPass => PassAgrees(x, Q.Finish);
      case Exec(step) =>
        StepKeepsOk(x.exec, step);
        if QueueStep(step) && !step.KernelPost? {
          QueueStepAgrees(x, step);
        } else if step.KernelPost? || ProcessStep(step) {
          CqStepAgrees(x, step);
        } else {
          OtherStepAgrees(x, step);
        }
    }
  }

  lemma PassAgrees(x: System, step: Q.Step<Cqe>)
    requires Agrees(x) && Q.Allowed(x.comp, step) && (step.Begin? || step.Finish?)
    ensures Agrees(x.(comp := Q.Next(x.comp, step)))
  {
    hide L.Inv;
    if step.Begin? { Q.BeginKeepsInv(x.comp); } else { Q.FinishKeepsInv(x.comp); }
  }

  // ------------------------------------------------------------------ whole runs

  ghost predicate MoveOk(x: System, m: Move, y: System) {
    && HeadOk(x.exec.io.completions) && HeadOk(x.exec.io.buffers) && Permitted(x, m)
    && L.RingOk(x.sub.ring) && Q.RingOk(x.comp.ring) && y == After(x, m)
  }

  ghost predicate Runs(xs: seq<System>, ms: seq<Move>) {
    && |xs| == |ms| + 1
    && Starts(xs[0])
    && forall i | 0 <= i < |ms| :: MoveOk(xs[i], ms[i], xs[i + 1])
  }

  lemma StartsSound(x: System)
    requires Starts(x)
    ensures Sound(x)
  {
    InitOk(x.exec);
  }

  lemma {:induction false} RunsSound(xs: seq<System>, ms: seq<Move>, k: nat)
    requires Runs(xs, ms) && k <= |ms|
    ensures Sound(xs[k])
  {
    hide Sound, After, Permitted;
    if k == 0 {
      StartsSound(xs[0]);
    } else {
      RunsSound(xs, ms, k - 1);
      assert MoveOk(xs[k - 1], ms[k - 1], xs[k]);
      MoveKeepsSound(xs[k - 1], ms[k - 1]);
    }
  }

  /** A run on the rings is a run of the executor, so all that holds of those holds of these. */
  lemma {:induction false} RunsReachable(xs: seq<System>, ms: seq<Move>, k: nat)
    requires Runs(xs, ms) && k <= |ms|
    ensures Reachable(xs[k].exec)
  {
    hide Allowed, Reachable, L.Next, Q.Next;
    if k == 0 {
      InitReachable(xs[0].exec);
    } else {
      RunsReachable(xs, ms, k - 1);
      assert MoveOk(xs[k - 1], ms[k - 1], xs[k]);
      if ms[k - 1].Exec? {
        ReachStep(xs[k - 1].exec, ms[k - 1].step);
      }
    }
  }

  /**
   In every run on the rings: the kernel finds an SQE at the head exactly when the executor has one
   queued, and every SQE that it has yet to take names, in its slot, an occupied completion that has no
   CQE and still belongs to the request that sent it.
   */
  lemma SqesRouted(xs: seq<System>, ms: seq<Move>, i: nat)
    requires Runs(xs, ms)
    ensures var x, sub := xs[|ms|], xs[|ms|].sub;
            && L.RingOk(sub.ring) && (sub.ring.khead == sub.ring.ktail <==> x.exec.ring.sq == [])
            && (i < |x.exec.ring.sq| ==>
                  var e := sub.ring.slots[(|sub.taken| + i) % |sub.ring.slots|];
                  && Carries(e, x.exec.ring.sq[i])
                  && Awaits(C(x.exec.io), x.exec.hist.owner, Key(e.userData, x.exec.ring.sq[i].req)))
  {
    RunsSound(xs, ms, |ms|);
    var x := xs[|ms|];
    hide Pipeline, Contents, L.Concat, Q.Inv;
    SubmittedInSlot(x, i);
    if i < |x.exec.ring.sq| {
      assert x.exec.ring.sq[i] in x.exec.ring.sq;
      TokenAwaited(C(x.exec.io), x.exec.hist.owner, x.exec.ring, x.exec.ring.sq[i]);
    }
  }

  lemma SubmittedInSlot(x: System, i: nat)
    requires Agrees(x)
    ensures x.sub.ring.khead == x.sub.ring.ktail <==> x.exec.ring.sq == []
    ensures |x.sub.ring.slots| > 0
    ensures i < |x.exec.ring.sq| ==>
              Carries(x.sub.ring.slots[(|x.sub.taken| + i) % |x.sub.ring.slots|], x.exec.ring.sq[i])
  {
    hide L.Concat, Q.Inv;
    var sub := x.sub;
    SubmissionRing.MaskFits(sub.ring.mask);
    if L.InFlight(sub) > 0 {
      ModDistinct(|sub.taken|, |sub.published|, U32);
    }
    if i < |x.exec.ring.sq| {
      assert L.All(sub)[|sub.taken| + i] == sub.published[|sub.taken| + i];
    }
  }

  /**
   In every run on the rings: whenever the loop of `process_cqes` reads an event from the completion
   ring, that event is the oldest one not yet handled, and names an occupied completion that waits for it
   on behalf of the request that caused it.
   */
  lemma CqesRouted(xs: seq<System>, ms: seq<Move>)
    requires Runs(xs, ms) && Q.Allowed(xs[|ms|].comp, Q.Handle)
    ensures var x, sc := xs[|ms|], xs[|ms|].comp.scan.value;
            var e := RingBuf.Get(RingBuf.View(x.comp.ring.slots, sc.offset, sc.size, x.comp.ring.mask), sc.next);
            && x.exec.ring.cq != [] && e == Some(x.exec.ring.cq[0])
            && Awaits(C(x.exec.io), x.exec.hist.owner, Key(e.value.userData, e.value.req))
  {
    RunsSound(xs, ms, |ms|);
    var x := xs[|ms|];
    hide Pipeline, Contents, L.Inv, Q.Inv, Q.Next;
    HandleAgrees(x);
    CqeAwaited(C(x.exec.io), x.exec.hist.owner, x.exec.ring, x.exec.ring.cq[0]);
  }
}
