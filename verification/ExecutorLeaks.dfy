/** Buffers and completions that no run ever gets back. */
module ExecutorLeaks {
  import opened Wrappers
  import opened SlotSpec
  import opened FixedVecs
  import opened Executor
  import opened ExecutorMaps
  import opened ExecutorRouting
  import opened ExecutorLive
  import opened ExecutorPlaces
  import opened ExecutorBuffers
  import opened ExecutorSteps
  import opened ExecutorRuns
  import Dedup

  predicate MarkedLeaked(s: State, id: nat) {
    id in s.hist.place && s.hist.place[id].Leaked?
  }

  /** Dropping a future after its CQE was processed, while that CQE holds buffer `id`. */
  ghost predicate LateDropOf(s: State, step: Step, id: nat) {
    step.DropLive? && step.f in s.hist.live
    && var c := s.hist.live[step.f].cqid;
       c in C(s.io) && C(s.io)[c].cqe.Some? && CqeHolds(C(s.io)[c].cqe.value) == Some(id)
  }

  /** Processing the CQE of a read that succeeded with buffer `id` but whose future was dropped. */
  ghost predicate UnwantedReadOf(s: State, step: Step, id: nat) {
    (step.ProcessToWoken? || step.ProcessToQueue?) && s.ring.cq != []
    && var e := s.ring.cq[0];
       e.userData in C(s.io) && C(s.io)[e.userData].task == DEAD_TASK && e.req.op.Read? && CqeHolds(e) == Some(id)
  }

  /** The kernel fails a read after taking buffer `id` out of its pool. */
  predicate FailedReadOf(s: State, step: Step, id: nat) {
    step.KernelPost? && step.i < |s.ring.flight| && s.ring.flight[step.i].req.op.Read?
    && step.res < 0 && step.bufId == Some(id)
  }

  ghost predicate MarksLeak(s: State, step: Step, id: nat) {
    LateDropOf(s, step, id) || UnwantedReadOf(s, step, id) || FailedReadOf(s, step, id)
  }

  lemma LeakAfterPoll(s: State, f: nat, id: nat)
    requires SystemOk(s) && Allowed(s, Step.Poll(f))
    ensures MarkedLeaked(PollLive(s, f), id) <==> MarkedLeaked(s, id)
  {
    hide Contents, Valid, RoutingOk, LiveOk, PlacesOk, WakeOk, PollAsync;
    LiveFacts(s, f);
    if C(s.io)[s.hist.live[f].cqid].cqe.Some? {
      PollReadyMap(s.io, s.hist.live[f], s.rt.phase.task);
    } else {
      PollPendingMap(s.io, s.hist.live[f], s.rt.phase.task);
    }
  }

  lemma LeakAfterUserStep(s: State, step: Step, id: nat)
    requires SystemOk(s) && Allowed(s, step) && UserStep(step) && HeadOk(s.io.completions) && HeadOk(s.io.buffers)
    ensures MarkedLeaked(Next(s, step), id) <==> MarkedLeaked(s, id) || MarksLeak(s, step, id)
  {
    hide Contents, Valid, RoutingOk, LiveOk, WakeOk, PollLive, DropFuture, NewCompletion, Admit, Insert;
    match step {
      case Poll(f) => LeakAfterPoll(s, f, id);
      case DropLive(f) =>
        LiveFacts(s, f);
        DropFutureMap(s.io, s.hist.live[f].cqid);
      case NewProvide(buffer) =>
        if s.io.buffers.size < U16_MAX { BufferIdFits(s, buffer.(len := 0)); }
      case NewPlain(_) =>
      case NewRead =>
      case Spawn =>
      case SpawnDirect =>
    }
  }

  lemma LeakAfterQueueStep(s: State, step: Step, id: nat)
    requires SystemOk(s) && Allowed(s, step) && QueueStep(step) && HeadOk(s.io.completions) && HeadOk(s.io.buffers)
    ensures MarkedLeaked(Next(s, step), id) <==> MarkedLeaked(s, id) || MarksLeak(s, step, id)
  {
    hide Contents, Valid, RoutingOk, LiveOk, PlacesOk, WakeOk, Post;
    match step {
      case KernelPost(i, res, bufId, payload) => LeakAfterPost(s, i, res, bufId, payload, id);
      case _ =>
    }
  }

  lemma LeakAfterPost(s: State, i: nat, res: int, bufId: Option<nat>, payload: seq<byte>, id: nat)
    requires SystemOk(s) && i < |s.ring.flight| && KernelMayPost(s, s.ring.flight[i], res, bufId, payload)
    ensures MarkedLeaked(Post(s, i, res, bufId, payload), id) <==>
            MarkedLeaked(s, id) || FailedReadOf(s, KernelPost(i, res, bufId, payload), id)
  {
    hide Contents, Valid, RoutingOk, LiveOk, WakeOk;
    assert InStages(s.ring, s.ring.flight[i]);
    assert TokenOk(B(s.io), s.hist.place, s.ring.flight[i]);
    if bufId.Some? && bufId.value in s.hist.place {
      assert PlaceOk(C(s.io), s.ring, s.hist.place, bufId.value);
    }
  }

  lemma LeakAfterProcess(s: State, toQueue: bool, id: nat)
    requires SystemOk(s) && s.ring.cq != []
    ensures MarkedLeaked(Process(s, toQueue), id) <==>
            MarkedLeaked(s, id) || UnwantedReadOf(s, if toQueue then ProcessToQueue else ProcessToWoken, id)
  {
    hide Contents, Valid, RoutingOk, LiveOk, WakeOk, ProcessOne;
    HeadFacts(s);
    ProcessOneMap(s.io, s.ring.cq[0]);
  }

  lemma LeakAfterLoopStep(s: State, step: Step, id: nat)
    requires SystemOk(s) && Allowed(s, step) && !UserStep(step) && !QueueStep(step)
    requires HeadOk(s.io.completions) && HeadOk(s.io.buffers)
    ensures MarkedLeaked(Next(s, step), id) <==> MarkedLeaked(s, id) || MarksLeak(s, step, id)
  {
    hide Contents, Valid, RoutingOk, LiveOk, PlacesOk, WakeOk, Process, Admit, Dedup.Scan, Remove;
    match step {
      case ProcessToWoken => LeakAfterProcess(s, false, id);
      case ProcessToQueue => LeakAfterProcess(s, true, id);
      case _ =>
    }
  }

  /** The history marks a buffer as leaked in exactly these steps, and never takes that back. */
  lemma MarkedExactly(s: State, step: Step, id: nat)
    requires SystemOk(s) && Allowed(s, step)
    ensures HeadOk(s.io.completions) && HeadOk(s.io.buffers)
    ensures MarkedLeaked(Next(s, step), id) <==> MarkedLeaked(s, id) || MarksLeak(s, step, id)
  {
    hide Contents, Valid, RoutingOk, Next, Allowed, MarkedLeaked, MarksLeak, WakeOk, HasHolder;
    StorageReady(s);
    if UserStep(step) {
      LeakAfterUserStep(s, step, id);
    } else if QueueStep(step) {
      LeakAfterQueueStep(s, step, id);
    } else {
      LeakAfterLoopStep(s, step, id);
    }
  }

  lemma MarkedHasNoHolder(s: State, id: nat)
    requires SystemOk(s) && MarkedLeaked(s, id)
    ensures id in B(s.io) && id !in s.ring.pool && forall i :: !HasHolder(C(s.io), s.ring, i, id)
  {
    hide Contents, Valid, RoutingOk, WakeOk, HasHolder;
    Named(C(s.io), s.hist, s.ring.prep);
    assert PlaceOk(C(s.io), s.ring, s.hist.place, id);
    forall i
      ensures !HasHolder(C(s.io), s.ring, i, id)
    {
      if HasHolder(C(s.io), s.ring, i, id) { HolderPlaced(s, i, id); }
    }
  }

  // ------------------------------------------------------------------ batches that are never submitted

  lemma AbandonedAfter(s: State, step: Step)
    requires SystemOk(s) && Allowed(s, step)
    ensures HeadOk(s.io.completions) && HeadOk(s.io.buffers)
    ensures Next(s, step).ring.abandoned == s.ring.abandoned + if step.AbandonBatch? then s.ring.batch else []
  {
    hide Contents, Valid, RoutingOk, LiveOk, PlacesOk, WakeOk, PollAsync, DropFuture, Insert, Admit, Dedup.Scan, Remove;
    StorageReady(s);
    assert s.ring.abandoned + [] == s.ring.abandoned;
  }

  lemma WithoutAbandoned(p: Ring, j: nat)
    requires j < |p.abandoned|
    ensures Pipeline(p) == Pipeline(p.(abandoned := p.abandoned[..j] + p.abandoned[j + 1..]))
                           + multiset{Key(p.abandoned[j].userData, p.abandoned[j].req)}
  {
    TokenKeysAppend(p.abandoned[..j], [p.abandoned[j]] + p.abandoned[j + 1..]);
    TokenKeysAppend([p.abandoned[j]], p.abandoned[j + 1..]);
    TokenKeysAppend(p.abandoned[..j], p.abandoned[j + 1..]);
    SingleToken(p.abandoned[j]);
    assert p.abandoned == p.abandoned[..j] + ([p.abandoned[j]] + p.abandoned[j + 1..]);
  }

  /** Completion `i` waits for a CQE that is not there, and no request that could bring it is under way. */
  ghost predicate WaitsInVain(s: State, i: nat) {
    && i in C(s.io) && C(s.io)[i].cqe.None?
    && (forall t | t in s.ring.prep || t in s.ring.batch || t in s.ring.sq || t in s.ring.flight :: t.userData != i)
    && (forall e | e in s.ring.cq :: e.userData != i)
  }

  lemma AbandonedInVain(s: State, t: Token)
    requires SystemOk(s) && t in s.ring.abandoned
    ensures WaitsInVain(s, t.userData) && s.hist.owner[t.userData] == t.req
  {
    hide Contents, Valid, LiveOk, PlacesOk, WakeOk, Pipeline;
    var p := s.ring;
    var j :| 0 <= j < |p.abandoned| && p.abandoned[j] == t;
    var rest := p.(abandoned := p.abandoned[..j] + p.abandoned[j + 1..]);
    WithoutAbandoned(p, j);
    TokenAwaited(C(s.io), s.hist.owner, p, t);
    OnlyOne(C(s.io), s.hist.owner, p, rest, Key(t.userData, t.req));
    forall u | u in p.prep || u in p.batch || u in p.sq || u in p.flight
      ensures u.userData != t.userData
    {
      assert InStages(rest, u);
    }
  }

  /**
   A batch dropped without being submitted: at every later point of every run its completions still
   occupy their slots, without a CQE and without anything that could bring one.
   */
  lemma {:induction false} AbandonedForever(states: seq<State>, steps: seq<Step>, j: nat, k: nat, t: Token)
    requires Run(states, steps) && j <= k <= |steps| && t in states[j].ring.abandoned
    ensures var s := states[k];
            && t in s.ring.abandoned && WaitsInVain(s, t.userData)
            && t.userData in s.hist.owner && s.hist.owner[t.userData] == t.req
    decreases k
  {
    hide SystemOk, Next, Allowed, Contents;
    RunKeepsOk(states, steps, k);
    if j < k {
      AbandonedForever(states, steps, j, k - 1, t);
      RunKeepsOk(states, steps, k - 1);
      assert StepOk(states[k - 1], steps[k - 1], states[k]);
      AbandonedAfter(states[k - 1], steps[k - 1]);
    }
    AbandonedInVain(states[k], t);
    OwnedByKeys(states[k]);
  }

  lemma OwnedByKeys(s: State)
    requires SystemOk(s)
    ensures C(s.io).Keys == s.hist.owner.Keys
  {
    hide Contents, Valid, LiveOk, PlacesOk, WakeOk;
  }

  // ------------------------------------------------------------------ all leaks

  ghost predicate AbandonedBuffer(s: State, id: nat) {
    exists t :: t in s.ring.abandoned && TokenHolds(t) == Some(id)
  }

  /** A buffer that nobody will ever take out of its slot again. */
  ghost predicate IsLeaked(s: State, id: nat) {
    MarkedLeaked(s, id) || AbandonedBuffer(s, id)
  }

  /** Dropping a batch that offers buffer `id` without submitting it. */
  ghost predicate AbandonOf(s: State, step: Step, id: nat) {
    step.AbandonBatch? && exists t :: t in s.ring.batch && TokenHolds(t) == Some(id)
  }

  ghost predicate LeaksBy(s: State, step: Step, id: nat) {
    MarksLeak(s, step, id) || AbandonOf(s, step, id)
  }

  /** The slot is occupied, the kernel does not have the buffer, and whoever holds it waits in vain. */
  ghost predicate NoWayBack(s: State, id: nat) {
    id in B(s.io) && id !in s.ring.pool && forall i | HasHolder(C(s.io), s.ring, i, id) :: WaitsInVain(s, i)
  }

  lemma LeakedHasNoWayBack(s: State, id: nat)
    requires SystemOk(s) && IsLeaked(s, id)
    ensures NoWayBack(s, id)
  {
    hide SystemOk, MarkedLeaked, HasHolder, WaitsInVain, C, B;
    if MarkedLeaked(s, id) {
      MarkedHasNoHolder(s, id);
    } else {
      var t :| t in s.ring.abandoned && TokenHolds(t) == Some(id);
      AbandonedInVain(s, t);
      AbandonedHolds(s, t, id);
    }
  }

  lemma AbandonedHolds(s: State, t: Token, id: nat)
    requires SystemOk(s) && t in s.ring.abandoned && TokenHolds(t) == Some(id)
    ensures id in B(s.io) && id !in s.ring.pool
    ensures forall i | HasHolder(C(s.io), s.ring, i, id) :: i == t.userData
  {
    hide Contents, Valid, RoutingOk, WakeOk, HasHolder;
    Named(C(s.io), s.hist, s.ring.prep);
    TokenHasIt(s, t, id);
    HolderPlaced(s, t.userData, id);
    forall i | HasHolder(C(s.io), s.ring, i, id)
      ensures i == t.userData
    {
      HolderPlaced(s, i, id);
    }
  }

  lemma TokenHasIt(s: State, t: Token, id: nat)
    requires t in s.ring.abandoned && TokenHolds(t) == Some(id)
    ensures HasHolder(C(s.io), s.ring, t.userData, id)
  {
    hide Contents;
    assert InStages(s.ring, t);
    assert TokenHolder(s.ring, t.userData, id);
  }

  /** The record of leaks is right: leaked are exactly the occupied buffers from which there is no way back. */
  lemma LeakedIff(s: State, id: nat)
    requires SystemOk(s)
    ensures IsLeaked(s, id) <==> NoWayBack(s, id)
  {
    hide SystemOk, MarkedLeaked, HasHolder, WaitsInVain, C, B;
    if IsLeaked(s, id) {
      LeakedHasNoWayBack(s, id);
    } else if NoWayBack(s, id) {
      var i := UnmarkedHasHolder(s, id);
      VainHolderAbandoned(s, i, id);
    }
  }

  lemma UnmarkedHasHolder(s: State, id: nat) returns (i: nat)
    requires SystemOk(s) && id in B(s.io) && id !in s.ring.pool && !MarkedLeaked(s, id)
    ensures HasHolder(C(s.io), s.ring, i, id)
  {
    hide Contents, Valid, RoutingOk, LiveOk, WakeOk, HasHolder;
    assert PlaceOk(C(s.io), s.ring, s.hist.place, id);
    i := s.hist.place[id].cqid;
  }

  lemma VainHolderAbandoned(s: State, i: nat, id: nat)
    requires HasHolder(C(s.io), s.ring, i, id) && WaitsInVain(s, i)
    ensures AbandonedBuffer(s, id)
  {
    hide Contents;
    var t :| InStages(s.ring, t) && t.userData == i && TokenHolds(t) == Some(id);
    assert t in s.ring.abandoned;
  }

  /**
   A leak is for ever, and it comes about in exactly four ways: dropping a future whose processed CQE
   holds a buffer, processing the CQE of a dropped read that succeeded, a read that fails after the
   kernel has used up a buffer for it, and dropping a batch that offers a buffer without submitting it.
   */
  lemma LeaksExactly(s: State, step: Step, id: nat)
    requires SystemOk(s) && Allowed(s, step)
    ensures HeadOk(s.io.completions) && HeadOk(s.io.buffers)
    ensures SystemOk(Next(s, step))
    ensures NoWayBack(Next(s, step), id) <==> NoWayBack(s, id) || LeaksBy(s, step, id)
  {
    hide SystemOk, Next, Allowed, MarkedLeaked, MarksLeak, NoWayBack;
    StepKeepsOk(s, step);
    MarkedExactly(s, step, id);
    AbandonedAfter(s, step);
    LeakedIff(s, id);
    LeakedIff(Next(s, step), id);
  }

  /** Over a whole run: from a leak at position `j` there is no way back at any later one. */
  lemma {:induction false} LeakedForever(states: seq<State>, steps: seq<Step>, j: nat, k: nat, id: nat)
    requires Run(states, steps) && j <= k <= |steps| && NoWayBack(states[j], id)
    ensures NoWayBack(states[k], id)
    decreases k
  {
    hide SystemOk, Next, Allowed, LeaksBy, NoWayBack;
    if j < k {
      LeakedForever(states, steps, j, k - 1, id);
      RunKeepsOk(states, steps, k - 1);
      assert StepOk(states[k - 1], steps[k - 1], states[k]);
      LeaksExactly(states[k - 1], steps[k - 1], id);
    }
  }
}
