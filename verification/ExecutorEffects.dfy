/** What the steps of the executor do, told by what changes between two states. */
module ExecutorEffects {
  import opened Wrappers
  import opened SlotSpec
  import opened FixedVecs
  import opened Executor
  import opened ExecutorMaps
  import opened ExecutorRouting
  import opened ExecutorLive
  import opened ExecutorPlaces
  import opened ExecutorBuffers
  import opened ExecutorSteps
  import opened ExecutorRuns
  import opened ExecutorTasks
  import Dedup

  // ------------------------------------------------------------------ waiting

  /** `turn` asks the kernel for no CQE exactly if there is one, or a task to run, and for one otherwise. */
  lemma AsksForNoneIff(s: State)
    requires SystemOk(s) && Allowed(s, ChooseWait)
    ensures HeadOk(s.io.completions) && HeadOk(s.io.buffers)
    ensures Next(s, ChooseWait).rt.phase == Submitting(0) <==> s.ring.cq != [] || s.rt.runqueue != []
    ensures Next(s, ChooseWait).rt.phase == Submitting(1) <==> s.ring.cq == [] && s.rt.runqueue == []
  {
    hide SystemOk;
    StorageReady(s);
  }

  /** In every run the kernel is never asked for more than one CQE. */
  lemma AsksForAtMostOne(states: seq<State>, steps: seq<Step>)
    requires Run(states, steps) && states[|steps|].rt.phase.Submitting?
    ensures states[|steps|].rt.phase.wait <= 1
  {
    RunKeepsOk(states, steps, |steps|);
  }

  // ------------------------------------------------------------------ new requests

  /** One completion, one live future and one SQE in preparation are new; they name each other. */
  ghost predicate Requested(s: State, t: State, i: nat, op: Op, mustWait: bool, bid: nat) {
    && i !in C(s.io) && C(t.io) == C(s.io)[i := CompletionEvent(None, NO_TASK, NoAction)]
    && s.hist.serial !in s.hist.live && t.hist.live == s.hist.live[s.hist.serial := Future(i, mustWait, op)]
    && t.ring == s.ring.(prep := [Token(i, bid, Request(s.hist.serial, op))])
    && t.rt == s.rt && SameRest(s.io, t.io)
  }

  /** A plain request or a read brings exactly that, and touches no buffer. */
  lemma RequestEffect(s: State, step: Step) returns (i: nat)
    requires SystemOk(s) && Allowed(s, step) && (step.NewPlain? || step.NewRead?)
    ensures HeadOk(s.io.completions) && HeadOk(s.io.buffers)
    ensures var t := Next(s, step);
            && Requested(s, t, i, if step.NewRead? then Read else Plain, step.NewPlain? && step.mustWait, 0)
            && t.io.buffers == s.io.buffers && t.hist.place == s.hist.place
  {
    hide Contents, Valid, RoutingOk, PlacesOk, WakeOk, NewCompletion;
    StorageReady(s);
    SerialIsFresh(s);
    NewCompletionMap(s.io);
    i := NewCompletion(s.io).1;
  }

  lemma SerialIsFresh(s: State)
    requires SystemOk(s)
    ensures s.hist.serial !in s.hist.live
  {
    hide Contents, Valid, RoutingOk, PlacesOk, WakeOk;
    forall f | f in s.hist.live ensures f < s.hist.serial { assert FutureOk(C(s.io), s.hist, f); }
  }

  /**
   `provide_buffer` is refused, and changes nothing, exactly if 65535 buffers or more are around. Otherwise
   the buffer gets a slot of its own, emptied but with its memory, and a request that remembers it as it was.
   */
  lemma ProvideEffect(s: State, buffer: Buffer)
    requires SystemOk(s) && Allowed(s, NewProvide(buffer))
    ensures HeadOk(s.io.completions) && HeadOk(s.io.buffers)
    ensures Next(s, NewProvide(buffer)) == s <==> |B(s.io)| >= U16_MAX
    ensures |B(s.io)| < U16_MAX ==> exists i, id :: Offered(s, Next(s, NewProvide(buffer)), buffer, i, id)
  {
    hide Contents, Valid, RoutingOk, PlacesOk, WakeOk, NewCompletion, Insert;
    StorageReady(s);
    BufferCount(s);
    if s.io.buffers.size < U16_MAX {
      SerialIsFresh(s);
      BufferIdFits(s, buffer.(len := 0));
      var (bs, id) := Insert(s.io.buffers, buffer.(len := 0));
      NewCompletionMap(s.io.(buffers := bs));
      var i := NewCompletion(s.io.(buffers := bs)).1;
      assert Offered(s, Next(s, NewProvide(buffer)), buffer, i, id);
      assert Next(s, NewProvide(buffer)).hist.serial != s.hist.serial;
    }
  }

  ghost predicate Offered(s: State, t: State, buffer: Buffer, i: nat, id: nat) {
    && id !in B(s.io) && id <= U16_MAX && B(t.io) == B(s.io)[id := Buffer(buffer.data, 0)]
    && Requested(s, t, i, Provide(id, buffer), false, id)
  }

  lemma BufferCount(s: State)
    requires SystemOk(s)
    ensures s.io.buffers.size == |B(s.io)|
  {
    hide RoutingOk, LiveOk, PlacesOk, WakeOk, Valid, Contents;
    ValidFacts(s.io.buffers);
  }

  /**
   A future that must be waited for is given up only once its CQE has been processed, so the kernel is
   done with the memory it was lent.
   */
  lemma MustWaitOutlivesRequest(s: State, step: Step, f: nat)
    requires SystemOk(s) && Allowed(s, step) && f in s.hist.live && s.hist.live[f].mustWait
    ensures HeadOk(s.io.completions) && HeadOk(s.io.buffers)
    ensures f !in Next(s, step).hist.live ==>
              s.hist.live[f].cqid in C(s.io) && C(s.io)[s.hist.live[f].cqid].cqe.Some?
  {
    hide Contents, Valid, RoutingOk, LiveOk, PlacesOk, WakeOk, PollLive, Process, Post, Insert, Admit, Remove, Put,
         Dedup.Scan, Get, DropFuture;
    StorageReady(s);
    LiveFacts(s, f);
    CompletionStored(s, s.hist.live[f].cqid);
    match step {
      case Poll(g) => PollGivesUp(s, g, f);
      case ProcessToWoken => ProcessKeepsLive(s, false);
      case ProcessToQueue => ProcessKeepsLive(s, true);
      case KernelPost(i, res, bufId, payload) => PostKeepsLive(s, i, res, bufId, payload);
      case _ =>
    }
  }

  lemma ProcessKeepsLive(s: State, toQueue: bool)
    requires s.ring.cq != []
    ensures Process(s, toQueue).hist.live == s.hist.live
  {
    hide ProcessOne;
  }

  lemma PostKeepsLive(s: State, i: nat, res: int, bufId: Option<nat>, payload: seq<byte>)
    requires i < |s.ring.flight| && KernelMayPost(s, s.ring.flight[i], res, bufId, payload)
    requires StorageOk(s)
    ensures Post(s, i, res, bufId, payload).hist.live == s.hist.live
  {
    hide Valid, Contents;
    ValidFacts(s.io.buffers);
  }

  lemma PollGivesUp(s: State, g: nat, f: nat)
    requires SystemOk(s) && Allowed(s, Step.Poll(g)) && f in s.hist.live
    ensures f !in PollLive(s, g).hist.live ==>
              f == g && s.hist.live[f].cqid in C(s.io) && C(s.io)[s.hist.live[f].cqid].cqe.Some?
  {
    hide Contents, Valid, RoutingOk, LiveOk, PlacesOk, WakeOk, PollAsync;
    LiveFacts(s, g);
    if C(s.io)[s.hist.live[g].cqid].cqe.Some? {
      PollReadyMap(s.io, s.hist.live[g], s.rt.phase.task);
    } else {
      PollPendingMap(s.io, s.hist.live[g], s.rt.phase.task);
    }
  }

  lemma CompletionStored(s: State, i: nat)
    requires SystemOk(s) && i in C(s.io)
    ensures Get(s.io.completions, i) == Some(C(s.io)[i])
  {
    hide RoutingOk, LiveOk, PlacesOk, WakeOk, Valid, Contents;
    ValidFacts(s.io.completions);
  }

  // ------------------------------------------------------------------ the setup of a turn

  /** The ids that one insert after the other gives out, the slotmaps in between being `maps`. */
  ghost predicate InsertedInOrder(maps: seq<Slots<()>>, ids: seq<nat>) {
    && |maps| == |ids| + 1
    && forall i | 0 <= i < |ids| :: HeadOk(maps[i]) && Insert(maps[i], ()) == (maps[i + 1], ids[i])
  }

  lemma {:induction false} AdmitInOrder(futures: Slots<()>, n: nat) returns (maps: seq<Slots<()>>)
    requires Valid(futures) && |futures.entries| + n * SLABSIZE <= SENTINEL
    ensures var (t, ids) := Admit(futures, n);
            |ids| == n && InsertedInOrder(maps, ids) && maps[0] == futures && maps[n] == t
    decreases n
  {
    hide Valid, Contents, Insert, HeadOk;
    maps := [futures];
    if n > 0 {
      AdmitOne(futures);
      var (t, id) := Insert(futures, ());
      var rest := AdmitInOrder(t, n - 1);
      var ids := Admit(t, n - 1).1;
      assert Admit(futures, n) == (Admit(t, n - 1).0, [id] + ids);
      maps := [futures] + rest;
      forall i | 0 <= i < n
        ensures HeadOk(maps[i]) && Insert(maps[i], ()) == (maps[i + 1], ([id] + ids)[i])
      {
        if i > 0 { assert maps[i] == rest[i - 1] && maps[i + 1] == rest[i]; }
      }
    }
  }

  /**
   The setup of a turn: the run queue is what it was, then the ids of the new futures as they were
   inserted one by one, then `woken`, which is empty now, whether or not the turn goes on to submit. It does
   so exactly if something is queued for the kernel or there is nothing to do.
   */
  lemma SetupEffect(s: State) returns (maps: seq<Slots<()>>, ids: seq<nat>)
    requires SystemOk(s) && Allowed(s, BeginTurn)
    ensures HeadOk(s.io.completions) && HeadOk(s.io.buffers)
    ensures |ids| == s.io.created && InsertedInOrder(maps, ids) && maps[0] == s.rt.futures
    ensures var t := Next(s, BeginTurn);
            && t.rt.futures == maps[|ids|] && t.rt.runqueue == s.rt.runqueue + ids + s.io.woken
            && t.io.woken == [] && t.io.created == 0
            && t.io.completions == s.io.completions && t.io.buffers == s.io.buffers
            && t.ring == s.ring && t.hist == s.hist
            && t.rt.phase == (if s.io.queued != 0 || (t.rt.runqueue == [] && s.ring.cq == []) then Entering
                              else Processing)
            && t.io.queued == if t.rt.phase.Entering? then s.io.queued else 0
  {
    hide Contents, Valid, RoutingOk, LiveOk, PlacesOk, WakeOk, Admit, Insert, InsertedInOrder;
    StorageReady(s);
    maps := AdmitInOrder(s.rt.futures, s.io.created);
    ids := Admit(s.rt.futures, s.io.created).1;
    AtLength(maps, ids);
  }

  lemma AtLength(maps: seq<Slots<()>>, ids: seq<nat>)
    requires InsertedInOrder(maps, ids)
    ensures |maps| == |ids| + 1
  {
  }

  // ------------------------------------------------------------------ the course of a turn

  /** The steps of the scheduler and where they lead. */
  ghost predicate Leads(p: Phase, step: Step, q: Phase) {
    match step
    case BeginTurn => p.Outside? && (q.Entering? || q.Processing?)
    case ChooseWait => p.Entering? && q.Submitting?
    case SubmitFails => p.Submitting? && q.Outside?
    case SubmitDone => p.Submitting? && q.Processing?
    case FinishProcessing(_, _) => p.Processing? && q.Polling?
    case Dispatch => p.Polling? && (q.Running? || q.Polling?)
    case FinishTask(_) => p.Running? && q.Polling?
    case TaskPanics => p.Running? && q.Outside?
    case EndTurn => p.Polling? && q.Outside?
    case _ => q == p
  }

  lemma PhaseEffect(s: State, step: Step)
    requires SystemOk(s) && Allowed(s, step)
    ensures HeadOk(s.io.completions) && HeadOk(s.io.buffers) && Leads(s.rt.phase, step, Next(s, step).rt.phase)
  {
    hide Contents, Valid, RoutingOk, LiveOk, PlacesOk, WakeOk, PollAsync, DropFuture, Insert, Put, ProcessOne, Admit,
         Remove, Dedup.Scan;
    StorageReady(s);
  }

  /** No turn polls before it has processed, and none ends while a task is queued. */
  lemma {:induction false} PollsAfterProcessing(states: seq<State>, steps: seq<Step>, k: nat) returns (j: nat)
    requires Run(states, steps) && k <= |steps| && (states[k].rt.phase.Polling? || states[k].rt.phase.Running?)
    ensures j < k && steps[j].FinishProcessing? && states[j].rt.phase.Processing?
    ensures forall m | j < m <= k :: states[m].rt.phase.Polling? || states[m].rt.phase.Running?
  {
    hide SystemOk, Next, Allowed;
    if k > 0 {
      RunKeepsOk(states, steps, k - 1);
      assert StepOk(states[k - 1], steps[k - 1], states[k]);
      PhaseEffect(states[k - 1], steps[k - 1]);
      if states[k - 1].rt.phase.Polling? || states[k - 1].rt.phase.Running? {
        j := PollsAfterProcessing(states, steps, k - 1);
      } else {
        j := k - 1;
      }
    }
  }

  /** Dispatching takes the oldest id; the task runs exactly if it is still there. */
  lemma DispatchEffect(s: State)
    requires SystemOk(s) && Allowed(s, Dispatch)
    ensures HeadOk(s.io.completions) && HeadOk(s.io.buffers)
    ensures var t := Next(s, Dispatch);
            && s.rt.runqueue == [s.rt.runqueue[0]] + t.rt.runqueue && t.rt.futures == s.rt.futures
            && t.rt.phase == (if s.rt.runqueue[0] in Contents(s.rt.futures) then Running(s.rt.runqueue[0]) else Polling)
            && t.io == s.io && t.ring == s.ring
  {
    hide RoutingOk, LiveOk, PlacesOk, WakeOk;
    StorageReady(s);
  }

  /** A task that is done, or has panicked, is removed, and no other; a panic ends the turn and drops the queue. */
  lemma ReturnEffect(s: State, step: Step)
    requires SystemOk(s) && Allowed(s, step) && (step.FinishTask? || step.TaskPanics?)
    ensures HeadOk(s.io.completions) && HeadOk(s.io.buffers)
    ensures var t := Next(s, step);
            && Contents(t.rt.futures) == (if step.TaskPanics? || step.done
                                          then Contents(s.rt.futures) - {s.rt.phase.task} else Contents(s.rt.futures))
            && t.rt.runqueue == (if step.TaskPanics? then [] else s.rt.runqueue)
            && t.rt.phase == (if step.TaskPanics? then Outside else Polling)
            && t.io == s.io && t.ring == s.ring
  {
    hide Contents, Valid, RoutingOk, LiveOk, PlacesOk, WakeOk, Remove;
    StorageReady(s);
    RemoveAsMap(s.rt.futures, s.rt.phase.task);
  }

  /**
   Before polling, the run queue is deduplicated: the same tasks stay queued, no two neighbours are equal,
   and a task stays queued as often as the scan looks at it without knowing a copy.
   */
  lemma DedupEffect(s: State, h1: nat -> nat, h2: nat -> nat)
    requires SystemOk(s) && Allowed(s, FinishProcessing(h1, h2))
    ensures HeadOk(s.io.completions) && HeadOk(s.io.buffers)
    ensures var t := Next(s, FinishProcessing(h1, h2));
            && Dedup.SameValues(t.rt.runqueue, s.rt.runqueue)
            && (forall p | 0 <= p < |t.rt.runqueue| - 1 :: t.rt.runqueue[p] != t.rt.runqueue[p + 1])
            && (forall id :: multiset(t.rt.runqueue)[id] == Dedup.Misses(Dedup.Start(s.rt.runqueue), h1, h2, id))
            && t.rt.futures == s.rt.futures && t.io == s.io && t.ring == s.ring
  {
    hide Contents, Valid, RoutingOk, LiveOk, PlacesOk, WakeOk, Dedup.Scan, Dedup.Misses;
    StorageReady(s);
    Dedup.DedupPartialCorrect(s.rt.runqueue, h1, h2);
    forall id
      ensures multiset(Dedup.Scan(Dedup.Start(s.rt.runqueue), h1, h2).data)[id]
              == Dedup.Misses(Dedup.Start(s.rt.runqueue), h1, h2, id)
    {
      Dedup.CopiesExact(s.rt.runqueue, h1, h2, id);
    }
  }

  // ------------------------------------------------------------------ counters

  /** How many futures have been spawned through the handle since the last turn began. */
  ghost function SpawnedSince(steps: seq<Step>, k: nat): nat
    requires k <= |steps|
  {
    if k == 0 || steps[k - 1].BeginTurn? then 0
    else SpawnedSince(steps, k - 1) + if steps[k - 1].Spawn? then 1 else 0
  }

  /** The two counters of published SQEs: those the kernel has not been told of, and `queued`. */
  datatype Counter = Unannounced | Queued

  /**
   The first is reset when the kernel has been told of all SQEs, the second when `turn` has got past its
   submission or has found that it needs none.
   */
  predicate Resets(s: State, step: Step, c: Counter) {
    match c
    case Unannounced => step.Announce? || step.SubmitDone?
    case Queued => step.SubmitDone? || (step.BeginTurn? && s.io.queued == 0)
  }

  /** How many SQEs have been published since the last reset. */
  ghost function PublishedSince(states: seq<State>, steps: seq<Step>, k: nat, c: Counter): nat
    requires k <= |steps| <= |states|
  {
    if k == 0 || Resets(states[k - 1], steps[k - 1], c) then 0
    else PublishedSince(states, steps, k - 1, c) + if steps[k - 1].SubmitBatch? then |states[k - 1].ring.batch| else 0
  }

  lemma CountersAfter(s: State, step: Step)
    requires SystemOk(s) && Allowed(s, step)
    ensures HeadOk(s.io.completions) && HeadOk(s.io.buffers)
    ensures var t, n := Next(s, step), if step.SubmitBatch? then |s.ring.batch| else 0;
            && t.io.created == (if step.BeginTurn? then 0 else s.io.created + if step.Spawn? then 1 else 0)
            && t.ring.unsubmitted == (if Resets(s, step, Unannounced) then 0 else s.ring.unsubmitted + n)
            && t.io.queued == if Resets(s, step, Queued) then 0 else s.io.queued + n
  {
    hide Contents, Valid, RoutingOk, LiveOk, PlacesOk, WakeOk, PollAsync, DropFuture, Insert, Put, Admit, Remove,
         Dedup.Scan;
    StorageReady(s);
    match step {
      case Poll(f) =>
        LiveFacts(s, f);
        if C(s.io)[s.hist.live[f].cqid].cqe.Some? {
          PollReadyMap(s.io, s.hist.live[f], s.rt.phase.task);
        } else {
          PollPendingMap(s.io, s.hist.live[f], s.rt.phase.task);
        }
      case DropLive(f) =>
        LiveFacts(s, f);
        DropFutureMap(s.io, s.hist.live[f].cqid);
      case _ =>
    }
  }

  /**
   The counters over a run: `created` has the futures spawned since the last turn began, `queued` the SQEs
   published since a turn last got past its submission, and the kernel has not been told of those published
   since the last successful submission.
   */
  lemma {:induction false} CountersExact(states: seq<State>, steps: seq<Step>, k: nat)
    requires Run(states, steps) && k <= |steps|
    ensures states[k].io.created == SpawnedSince(steps, k)
    ensures states[k].ring.unsubmitted == PublishedSince(states, steps, k, Unannounced)
    ensures states[k].io.queued == PublishedSince(states, steps, k, Queued)
  {
    hide SystemOk, Next, Allowed, Resets;
    if k > 0 {
      CountersExact(states, steps, k - 1);
      RunKeepsOk(states, steps, k - 1);
      assert StepOk(states[k - 1], steps[k - 1], states[k]);
      CountersAfter(states[k - 1], steps[k - 1]);
    }
  }

  /** A turn gives out exactly as many ids as futures were spawned since the last turn began. */
  lemma TurnStartsAllSpawned(states: seq<State>, steps: seq<Step>, k: nat) returns (ids: seq<nat>)
    requires Run(states, steps) && k < |steps| && steps[k] == BeginTurn
    ensures |ids| == SpawnedSince(steps, k)
    ensures states[k + 1].rt.runqueue == states[k].rt.runqueue + ids + states[k].io.woken
    ensures |Contents(states[k + 1].rt.futures)| == |Contents(states[k].rt.futures)| + |ids|
    ensures forall id | id in ids :: id !in Contents(states[k].rt.futures) && id in Contents(states[k + 1].rt.futures)
  {
    hide SystemOk, Next, Allowed, Contents, InsertedInOrder;
    RunKeepsOk(states, steps, k);
    assert StepOk(states[k], steps[k], states[k + 1]);
    CountersExact(states, steps, k);
    ids := NewIds(states[k]);
  }

  lemma NewIds(s: State) returns (ids: seq<nat>)
    requires SystemOk(s) && Allowed(s, BeginTurn)
    ensures HeadOk(s.io.completions) && HeadOk(s.io.buffers) && |ids| == s.io.created
    ensures var t := Next(s, BeginTurn);
            && t.rt.runqueue == s.rt.runqueue + ids + s.io.woken
            && |Contents(t.rt.futures)| == |Contents(s.rt.futures)| + |ids|
            && forall id | id in ids :: id !in Contents(s.rt.futures) && id in Contents(t.rt.futures)
  {
    hide Contents, Valid, RoutingOk, LiveOk, PlacesOk, WakeOk, Admit;
    StorageReady(s);
    AdmitAsMap(s.rt.futures, s.io.created);
    ids := Admit(s.rt.futures, s.io.created).1;
  }
}
