/** What holds in every run of the executor. */
module ExecutorRuns {
  import opened Wrappers
  import opened SlotSpec
  import opened FixedVecs
  import opened Executor
  import opened ExecutorMaps
  import opened ExecutorRouting
  import opened ExecutorLive
  import opened ExecutorPlaces
  import opened ExecutorBuffers
  import opened ExecutorSteps
  import Dedup

  ghost predicate StepOk(s: State, step: Step, t: State) {
    HeadOk(s.io.completions) && HeadOk(s.io.buffers) && Allowed(s, step) && t == Next(s, step)
  }

  ghost predicate Run(states: seq<State>, steps: seq<Step>) {
    && |states| == |steps| + 1
    && Init(states[0])
    && forall i | 0 <= i < |steps| :: StepOk(states[i], steps[i], states[i + 1])
  }

  lemma {:induction false} RunKeepsOk(states: seq<State>, steps: seq<Step>, k: nat)
    requires Run(states, steps) && k <= |steps|
    ensures SystemOk(states[k])
  {
    hide SystemOk, Next, Allowed;
    if k == 0 {
      InitOk(states[0]);
    } else {
      RunKeepsOk(states, steps, k - 1);
      assert StepOk(states[k - 1], steps[k - 1], states[k]);
      StepKeepsOk(states[k - 1], steps[k - 1]);
    }
  }

  /** Some run ends in `s`. */
  ghost predicate Reachable(s: State) {
    exists states, steps :: Run(states, steps) && states[|steps|] == s
  }

  lemma InitReachable(s: State)
    requires Init(s)
    ensures Reachable(s)
  {
    var states, steps: seq<Step> := [s], [];
    assert Run(states, steps) && states[|steps|] == s;
  }

  lemma ReachStep(s: State, step: Step)
    requires Reachable(s) && Allowed(s, step)
    ensures HeadOk(s.io.completions) && HeadOk(s.io.buffers)
    ensures SystemOk(s) && SystemOk(Next(s, step)) && Reachable(Next(s, step))
  {
    hide SystemOk, Next, Allowed;
    var states, steps :| Run(states, steps) && states[|steps|] == s;
    RunKeepsOk(states, steps, |steps|);
    StepKeepsOk(s, step);
    var longer, more := states + [Next(s, step)], steps + [step];
    forall i | 0 <= i < |more|
      ensures StepOk(longer[i], more[i], longer[i + 1])
    {
      if i < |steps| { assert StepOk(states[i], steps[i], states[i + 1]); }
    }
    assert Run(longer, more);
  }

  // ------------------------------------------------------------------ routing

  /**
   In every run: no two items on their way carry the same id, each names an occupied completion slot
   that has no CQE yet and still belongs to the very request that sent it, and nothing has panicked.
   */
  lemma CompletionsRouted(states: seq<State>, steps: seq<Step>)
    requires Run(states, steps)
    ensures var s := states[|steps|];
            && (forall k, l | k in Pipeline(s.ring) && l in Pipeline(s.ring) && k.cqid == l.cqid :: k == l)
            && (forall k | k in Pipeline(s.ring) :: Pipeline(s.ring)[k] == 1 && Awaits(C(s.io), s.hist.owner, k))
            && !s.hist.panicked
  {
    RunKeepsOk(states, steps, |steps|);
    var s := states[|steps|];
    hide Pipeline, LiveOk, WakeOk, PlacesOk, Contents;
    forall k | k in Pipeline(s.ring)
      ensures Awaits(C(s.io), s.hist.owner, k) && Pipeline(s.ring)[k] == 1
    {
      assert Pipeline(s.ring)[k] == if Awaits(C(s.io), s.hist.owner, k) then 1 else 0;
    }
  }

  /**
   In every run no completion slot is forgotten: one without a CQE has its request on its way (or in a
   batch that was dropped unsubmitted), one with a CQE has a live future to collect it.
   */
  lemma CompletionsAccounted(states: seq<State>, steps: seq<Step>, i: nat)
    requires Run(states, steps) && i in C(states[|steps|].io)
    ensures var s := states[|steps|];
            && i in s.hist.owner
            && (C(s.io)[i].cqe.None? ==> Pipeline(s.ring)[Key(i, s.hist.owner[i])] == 1)
            && (C(s.io)[i].cqe.Some? ==>
                  s.hist.owner[i].serial in s.hist.live && s.hist.live[s.hist.owner[i].serial].cqid == i)
  {
    RunKeepsOk(states, steps, |steps|);
    var s := states[|steps|];
    hide Pipeline, WakeOk, PlacesOk, Contents;
    assert SlotOk(C(s.io), s.hist, s.ring.prep, i);
    var k := Key(i, s.hist.owner[i]);
    assert Pipeline(s.ring)[k] == if Awaits(C(s.io), s.hist.owner, k) then 1 else 0;
  }

  /**
   In every run, polling a live future never panics, and once it is ready its event is the one its own
   request caused. A read returns exactly the bytes the kernel wrote for it; a refused buffer comes
   back with its original contents and length.
   */
  lemma PollDelivers(states: seq<State>, steps: seq<Step>, f: nat, task: nat)
    requires Run(states, steps) && f in states[|steps|].hist.live
    ensures var s := states[|steps|];
            match PollAsync(s.io, s.hist.live[f], task).1
            case Panicked => false
            case Pending => C(s.io)[s.hist.live[f].cqid].cqe.None?
            case GotEvent(e) => e.req == Request(f, Plain)
            case ReadFailed(e) => e.req == Request(f, Read) && e.res < 0
            case GotBuffer(e, buffer) =>
              && e.req == Request(f, Read)
              && buffer.len == |e.payload| <= |buffer.data| && buffer.data[..buffer.len] == e.payload
            case Provided(e) => e.req.serial == f && e.req.op.Provide? && e.res >= 0
            case GaveBack(e, buffer) => e.req.serial == f && e.req.op.Provide? && buffer == e.req.op.original
  {
    RunKeepsOk(states, steps, |steps|);
    var s := states[|steps|];
    hide RoutingOk, LiveOk, WakeOk, PlacesOk, Valid, Contents, PollAsync;
    LiveFacts(s, f);
    if C(s.io)[s.hist.live[f].cqid].cqe.Some? {
      PollReadyMap(s.io, s.hist.live[f], task);
    } else {
      PollPendingMap(s.io, s.hist.live[f], task);
    }
  }

  // ------------------------------------------------------------------ buffers

  /**
   In every run: a buffer in the kernel's pool or with a request is an occupied slot, nobody else has
   it, its id fits 16 bits; and every occupied slot is in the pool, with a request, or leaked.
   */
  lemma BuffersOwnedOnce(states: seq<State>, steps: seq<Step>)
    requires Run(states, steps)
    ensures var s := states[|steps|];
            && (forall i, j, id | HasHolder(C(s.io), s.ring, i, id) && HasHolder(C(s.io), s.ring, j, id) :: i == j)
            && (forall i, id | HasHolder(C(s.io), s.ring, i, id) :: id in B(s.io) && id !in s.ring.pool)
            && (forall id | id in s.ring.pool :: id in B(s.io))
            && (forall id | id in B(s.io) ::
                  id <= U16_MAX && id in s.hist.place
                  && match s.hist.place[id]
                     case InPool => id in s.ring.pool
                     case Held(i) => HasHolder(C(s.io), s.ring, i, id)
                     case Leaked => true)
  {
    RunKeepsOk(states, steps, |steps|);
    var s := states[|steps|];
    hide RoutingOk, WakeOk, Valid, Contents, HasHolder;
    Named(C(s.io), s.hist, s.ring.prep);
    forall i, id | HasHolder(C(s.io), s.ring, i, id)
      ensures id in B(s.io) && id in s.hist.place && s.hist.place[id] == Held(i) && id !in s.ring.pool
    {
      HolderPlaced(s, i, id);
    }
    forall id | id in B(s.io)
      ensures id in s.hist.place && PlaceOk(C(s.io), s.ring, s.hist.place, id)
    {
    }
  }

  lemma HolderPlaced(s: State, i: nat, id: nat)
    requires PlacesOk(C(s.io), B(s.io), s.ring, s.hist.place) && StoredNamed(C(s.io))
    requires HasHolder(C(s.io), s.ring, i, id)
    ensures id in B(s.io) && id in s.hist.place && s.hist.place[id] == Held(i) && id !in s.ring.pool
  {
    hide Contents;
    if TokenHolder(s.ring, i, id) {
      var t :| InStages(s.ring, t) && t.userData == i && TokenHolds(t) == Some(id);
      assert TokenOk(B(s.io), s.hist.place, t);
    } else if CqeHolder(s.ring, i, id) {
      var e :| e in s.ring.cq && e.userData == i && CqeHolds(e) == Some(id);
      assert CqeOk(B(s.io), s.hist.place, e);
    } else {
      assert StoredOk(C(s.io), B(s.io), s.hist.place, i);
    }
    assert PlaceOk(C(s.io), s.ring, s.hist.place, id);
  }

  /**
   What becomes of a refused buffer whose provide was dropped: if the drop came before the CQE was
   processed, processing it frees the buffer; if it came after, the drop leaks it, since the cleanup
   action runs for dead futures only.
   */
  lemma RefusedBufferAfterDrop(s: State, i: nat, toQueue: bool)
    requires SystemOk(s) && i in C(s.io) && s.hist.owner[i].op.Provide?
    ensures var id := s.hist.owner[i].op.bufid;
            && (s.ring.cq != [] && s.ring.cq[0].userData == i && s.ring.cq[0].res < 0
                && C(s.io)[i].task == DEAD_TASK ==>
                  id in B(s.io) && id !in B(Process(s, toQueue).io))
            && (C(s.io)[i].cqe.Some? && C(s.io)[i].cqe.value.res < 0 ==>
                  var f := s.hist.owner[i].serial;
                  && f in s.hist.live && s.hist.live[f].cqid == i
                  && id in B(DropOne(s, f).io) && DropOne(s, f).hist.place[id] == Leaked)
  {
    hide RoutingOk, WakeOk, Valid, Contents, ProcessOne, DropFuture;
    assert SlotOk(C(s.io), s.hist, s.ring.prep, i);
    assert StoredOk(C(s.io), B(s.io), s.hist.place, i);
    if s.ring.cq != [] && s.ring.cq[0].userData == i {
      HeadFacts(s);
      ProcessOneMap(s.io, s.ring.cq[0]);
    }
    if C(s.io)[i].cqe.Some? {
      DropFutureMap(s.io, i);
    }
  }
}
