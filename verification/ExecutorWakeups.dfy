/** Wake-ups: no task that is owed one is lost, except to a panic. */
module ExecutorWakeups {
  import opened Wrappers
  import opened SlotSpec
  import opened FixedVecs
  import opened Executor
  import opened ExecutorMaps
  import opened ExecutorRouting
  import opened ExecutorLive
  import opened ExecutorPlaces
  import opened ExecutorBuffers
  import opened ExecutorSteps
  import opened ExecutorRuns
  import opened ExecutorTasks
  import Dedup

  /** The wake-ups that nobody is going to deliver: their tasks are in no queue any more. */
  ghost function Lost(s: State): set<nat> {
    set i | i in s.hist.owed && !(i in s.hist.lastPoll && s.hist.lastPoll[i] in Queue(s))
  }

  lemma OwedFacts(s: State, i: nat)
    requires SystemOk(s) && i in s.hist.owed
    ensures i in C(s.io) && C(s.io)[i].cqe.Some? && i in s.hist.lastPoll && C(s.io)[i].task == s.hist.lastPoll[i]
    ensures s.hist.lastPoll[i] in Promised(s)
  {
    hide RoutingOk, LiveOk, PlacesOk, Valid, Contents;
    assert OwedOk(C(s.io), s.hist, Promised(s), i);
    assert TaskOk(C(s.io), s.hist, i);
  }

  // ------------------------------------------------------------------ how a wake-up comes to be owed

  /** Future `f` was left pending by task `task`, and nothing but its CQE has happened to it since. */
  ghost predicate Waits(s: State, f: nat, task: nat) {
    f in s.hist.live && s.hist.live[f].cqid in s.hist.lastPoll && s.hist.lastPoll[s.hist.live[f].cqid] == task
  }

  /** Two live futures never share a slot. */
  lemma OwnSlot(s: State, f: nat, g: nat)
    requires SystemOk(s) && f in s.hist.live && g in s.hist.live && f != g
    ensures s.hist.live[f].cqid != s.hist.live[g].cqid
  {
    hide RoutingOk, WakeOk, PlacesOk, Valid, Contents;
    assert FutureOk(C(s.io), s.hist, f) && FutureOk(C(s.io), s.hist, g);
  }

  lemma PollWaits(s: State, g: nat, f: nat, task: nat)
    requires SystemOk(s) && Allowed(s, Step.Poll(g)) && Waits(s, f, task) && f != g
    ensures Waits(PollLive(s, g), f, task) && PollLive(s, g).hist.live[f] == s.hist.live[f]
  {
    hide Contents, Valid, RoutingOk, LiveOk, PlacesOk, WakeOk, PollAsync;
    OwnSlot(s, f, g);
    LiveFacts(s, g);
    if C(s.io)[s.hist.live[g].cqid].cqe.Some? {
      PollReadyMap(s.io, s.hist.live[g], s.rt.phase.task);
    } else {
      PollPendingMap(s.io, s.hist.live[g], s.rt.phase.task);
    }
  }

  lemma StillWaits(s: State, step: Step, f: nat, task: nat)
    requires SystemOk(s) && Allowed(s, step) && Waits(s, f, task) && step != Step.Poll(f) && step != DropLive(f)
    ensures HeadOk(s.io.completions) && HeadOk(s.io.buffers) && Waits(Next(s, step), f, task)
    ensures Next(s, step).hist.live[f] == s.hist.live[f]
  {
    hide Contents, Valid, RoutingOk, PlacesOk, WakeOk, PollLive, Process, DropFuture, NewCompletion, Admit, Remove,
         Dedup.Scan;
    StorageReady(s);
    assert FutureOk(C(s.io), s.hist, f);
    match step {
      case Poll(g) => PollWaits(s, g, f, task);
      case DropLive(g) => OwnSlot(s, f, g);
      case ProcessToWoken => ProcessWaits(s, false, f, task);
      case ProcessToQueue => ProcessWaits(s, true, f, task);
      case _ =>
    }
  }

  lemma ProcessWaits(s: State, toQueue: bool, f: nat, task: nat)
    requires SystemOk(s) && s.ring.cq != [] && Waits(s, f, task)
    ensures Waits(Process(s, toQueue), f, task) && Process(s, toQueue).hist.live == s.hist.live
  {
    hide Contents, Valid, RoutingOk, PlacesOk, WakeOk, ProcessOne;
    assert FutureOk(C(s.io), s.hist, f);
    HeadFacts(s);
    ProcessOneMap(s.io, s.ring.cq[0]);
  }

  lemma {:induction false} WaitsAlong(states: seq<State>, steps: seq<Step>, j: nat, m: nat, f: nat, task: nat)
    requires Run(states, steps) && j <= m <= |steps| && Waits(states[j], f, task)
    requires forall k | j <= k < m :: steps[k] != Step.Poll(f) && steps[k] != DropLive(f)
    ensures Waits(states[m], f, task) && states[m].hist.live[f] == states[j].hist.live[f]
    decreases m
  {
    hide SystemOk, Next, Allowed;
    if j < m {
      WaitsAlong(states, steps, j, m - 1, f, task);
      RunKeepsOk(states, steps, m - 1);
      assert StepOk(states[m - 1], steps[m - 1], states[m]);
      StillWaits(states[m - 1], steps[m - 1], f, task);
    }
  }

  /** The running task polls live future `f`, whose CQE is not there yet. */
  ghost predicate PollsInVain(s: State, f: nat) {
    && s.rt.phase.Running? && f in s.hist.live
    && s.hist.live[f].cqid in C(s.io) && C(s.io)[s.hist.live[f].cqid].cqe.None?
  }

  /** The step processes the CQE for slot `i`. */
  predicate Handles(s: State, step: Step, i: nat) {
    (step.ProcessToWoken? || step.ProcessToQueue?) && s.ring.cq != [] && s.ring.cq[0].userData == i
  }

  lemma PendingWaits(s: State, f: nat)
    requires SystemOk(s) && Allowed(s, Step.Poll(f)) && PollsInVain(s, f)
    ensures Waits(PollLive(s, f), f, s.rt.phase.task) && PollLive(s, f).hist.live == s.hist.live
  {
    hide Contents, Valid, RoutingOk, LiveOk, PlacesOk, WakeOk, PollAsync;
    PollPendingMap(s.io, s.hist.live[f], s.rt.phase.task);
  }

  lemma ProcessOwes(s: State, toQueue: bool, f: nat, task: nat)
    requires SystemOk(s) && s.ring.cq != [] && Waits(s, f, task) && s.ring.cq[0].userData == s.hist.live[f].cqid
    ensures var i, t := s.hist.live[f].cqid, Process(s, toQueue);
            && s.ring.cq[0].req.serial == f
            && i in t.hist.owed && i in t.hist.lastPoll && t.hist.lastPoll[i] == task
            && task in if toQueue then t.rt.runqueue else t.io.woken
  {
    hide Contents, Valid, RoutingOk, PlacesOk, ProcessOne;
    HeadFacts(s);
    var i := s.ring.cq[0].userData;
    assert FutureOk(C(s.io), s.hist, f);
    assert TaskOk(C(s.io), s.hist, i);
    ProcessOneMap(s.io, s.ring.cq[0]);
  }

  /**
   A wake-up comes to be owed: if a task polls a future in vain at position `j`, and the CQE of that
   future is processed at position `m` before anybody polls it again or drops it, then from `m` on the
   task is owed a wake-up and is queued, in `runqueue` or in `woken` as the caller of `process_cqes` has it.
   */
  lemma ProcessingOwes(states: seq<State>, steps: seq<Step>, j: nat, m: nat, f: nat)
    requires Run(states, steps) && j < m < |steps|
    requires steps[j] == Step.Poll(f) && PollsInVain(states[j], f)
    requires forall k | j < k < m :: steps[k] != Step.Poll(f) && steps[k] != DropLive(f)
    requires Handles(states[m], steps[m], states[j].hist.live[f].cqid)
    ensures var i, task, t := states[j].hist.live[f].cqid, states[j].rt.phase.task, states[m + 1];
            && states[m].ring.cq[0].req.serial == f
            && i in t.hist.owed && i in t.hist.lastPoll && t.hist.lastPoll[i] == task
            && task in if steps[m].ProcessToQueue? then t.rt.runqueue else t.io.woken
  {
    hide SystemOk, Process, PollLive, Waits;
    RunKeepsOk(states, steps, j);
    RunKeepsOk(states, steps, m);
    assert StepOk(states[j], steps[j], states[j + 1]) && StepOk(states[m], steps[m], states[m + 1]);
    PendingWaits(states[j], f);
    WaitsAlong(states, steps, j + 1, m, f, states[j].rt.phase.task);
    ProcessOwes(states[m], steps[m].ProcessToQueue?, f, states[j].rt.phase.task);
  }

  // ------------------------------------------------------------------ how long it is owed

  /** The steps that settle what is owed for completion `i`. */
  ghost predicate Settles(s: State, step: Step, i: nat)
    requires Allowed(s, step) && i in s.hist.lastPoll
  {
    || (step.Dispatch? && s.hist.lastPoll[i] == s.rt.runqueue[0])
    || (step.Poll? && s.hist.live[step.f].cqid == i)
    || (step.DropLive? && s.hist.live[step.f].cqid == i)
  }

  ghost predicate SameDebt(s: State, t: State, i: nat)
    requires i in s.hist.lastPoll
  {
    i in t.hist.owed && i in t.hist.lastPoll && t.hist.lastPoll[i] == s.hist.lastPoll[i]
  }

  /** From `s` to `t` completion `i` stays owed to the same task, which is not lost from the queues. */
  ghost predicate StaysOwed(s: State, t: State, i: nat)
    requires i in s.hist.lastPoll
  {
    && SameDebt(s, t, i)
    && (s.hist.lastPoll[i] in s.rt.runqueue ==> s.hist.lastPoll[i] in t.rt.runqueue)
    && (s.hist.lastPoll[i] in Queue(s) ==> s.hist.lastPoll[i] in Queue(t))
  }

  lemma OwedAfterUserStep(s: State, step: Step, i: nat)
    requires SystemOk(s) && Allowed(s, step) && UserStep(step) && i in s.hist.owed && i in s.hist.lastPoll
    requires HeadOk(s.io.completions) && HeadOk(s.io.buffers)
    ensures if Settles(s, step, i) then i !in Next(s, step).hist.owed else StaysOwed(s, Next(s, step), i)
  {
    hide Contents, Valid, RoutingOk, LiveOk, PlacesOk, WakeOk, PollAsync, DropFuture, Insert, Admit;
    match step {
      case Poll(f) =>
        LiveFacts(s, f);
        if C(s.io)[s.hist.live[f].cqid].cqe.Some? {
          PollReadyMap(s.io, s.hist.live[f], s.rt.phase.task);
        } else {
          PollPendingMap(s.io, s.hist.live[f], s.rt.phase.task);
        }
      case DropLive(f) =>
        LiveFacts(s, f);
        DropFutureMap(s.io, s.hist.live[f].cqid);
      case NewPlain(_) =>
      case NewRead =>
      case NewProvide(_) =>
      case Spawn =>
      case SpawnDirect =>
    }
  }

  lemma OwedAfterQueueStep(s: State, step: Step, i: nat)
    requires SystemOk(s) && Allowed(s, step) && QueueStep(step) && i in s.hist.owed && i in s.hist.lastPoll
    requires HeadOk(s.io.completions) && HeadOk(s.io.buffers)
    ensures !Settles(s, step, i) && StaysOwed(s, Next(s, step), i)
  {
    hide Contents, Valid, RoutingOk, LiveOk, PlacesOk, WakeOk;
  }

  lemma OwedAfterProcess(s: State, toQueue: bool, i: nat)
    requires SystemOk(s) && s.ring.cq != [] && i in s.hist.owed && i in s.hist.lastPoll
    ensures StaysOwed(s, Process(s, toQueue), i)
  {
    hide Contents, Valid, RoutingOk, LiveOk, PlacesOk, ProcessOne;
    OwedFacts(s, i);
    HeadFacts(s);
    ProcessOneMap(s.io, s.ring.cq[0]);
  }

  lemma OwedAfterDispatch(s: State, i: nat)
    requires s.rt.runqueue != [] && i in s.hist.owed && i in s.hist.lastPoll
    ensures if s.hist.lastPoll[i] == s.rt.runqueue[0] then i !in DispatchNext(s).hist.owed
            else StaysOwed(s, DispatchNext(s), i)
  {
    assert s.rt.runqueue == [s.rt.runqueue[0]] + s.rt.runqueue[1..];
  }

  lemma OwedAfterLoopStep(s: State, step: Step, i: nat)
    requires SystemOk(s) && Allowed(s, step) && !UserStep(step) && !QueueStep(step) && !step.TaskPanics?
    requires i in s.hist.owed && i in s.hist.lastPoll
    requires HeadOk(s.io.completions) && HeadOk(s.io.buffers)
    ensures if Settles(s, step, i) then i !in Next(s, step).hist.owed else StaysOwed(s, Next(s, step), i)
  {
    hide Contents, Valid, RoutingOk, LiveOk, PlacesOk, WakeOk, Process, DispatchNext, Admit, Dedup.Scan, Remove;
    match step {
      case ProcessToWoken => OwedAfterProcess(s, false, i);
      case ProcessToQueue => OwedAfterProcess(s, true, i);
      case FinishProcessing(h1, h2) => Dedup.DedupPartialCorrect(s.rt.runqueue, h1, h2);
      case Dispatch => OwedAfterDispatch(s, i);
      case _ =>
    }
  }

  /**
   Without a panic a task stays owed until it is dispatched or the completion is polled or dropped, and
   such a step settles it; in between the queues do not lose it. A panic settles nothing: the task
   stays owed, and is still queued exactly if it is in `woken`.
   */
  lemma OwedUntilSettled(s: State, step: Step, i: nat)
    requires SystemOk(s) && Allowed(s, step) && i in s.hist.owed
    ensures HeadOk(s.io.completions) && HeadOk(s.io.buffers) && i in s.hist.lastPoll
    ensures var t, task := Next(s, step), s.hist.lastPoll[i];
            if Settles(s, step, i) then i !in t.hist.owed
            else if step.TaskPanics? then SameDebt(s, t, i) && (task in Queue(t) <==> task in s.io.woken)
            else StaysOwed(s, t, i)
  {
    hide SystemOk, Next, Allowed, StaysOwed, Settles;
    StorageReady(s);
    OwedFacts(s, i);
    if UserStep(step) {
      OwedAfterUserStep(s, step, i);
    } else if QueueStep(step) {
      OwedAfterQueueStep(s, step, i);
    } else if step.TaskPanics? {
      OwedAfterPanic(s, i);
    } else {
      OwedAfterLoopStep(s, step, i);
    }
  }

  lemma OwedAfterPanic(s: State, i: nat)
    requires SystemOk(s) && Allowed(s, TaskPanics) && i in s.hist.owed && i in s.hist.lastPoll
    requires HeadOk(s.io.completions) && HeadOk(s.io.buffers)
    ensures !Settles(s, TaskPanics, i) && SameDebt(s, Next(s, TaskPanics), i)
    ensures s.hist.lastPoll[i] in Queue(Next(s, TaskPanics)) <==> s.hist.lastPoll[i] in s.io.woken
  {
    hide SystemOk, Remove;
  }

  lemma NewDebtQueued(s: State, step: Step, i: nat)
    requires SystemOk(s) && Allowed(s, step) && i !in s.hist.owed
    ensures HeadOk(s.io.completions) && HeadOk(s.io.buffers)
    ensures i !in Lost(Next(s, step))
  {
    hide Contents, Valid, RoutingOk, LiveOk, PlacesOk, PollAsync, DropFuture, NewCompletion, ProcessOne, Admit, Remove,
         Dedup.Scan, Insert;
    StorageReady(s);
    match step {
      case ProcessToWoken => NewDebtOfProcess(s, false, i);
      case ProcessToQueue => NewDebtOfProcess(s, true, i);
      case _ =>
    }
  }

  lemma NewDebtOfProcess(s: State, toQueue: bool, i: nat)
    requires SystemOk(s) && s.ring.cq != [] && i !in s.hist.owed
    ensures i !in Lost(Process(s, toQueue))
  {
    hide Contents, Valid, RoutingOk, LiveOk, PlacesOk, ProcessOne;
    HeadFacts(s);
    assert TaskOk(C(s.io), s.hist, s.ring.cq[0].userData);
    ProcessOneMap(s.io, s.ring.cq[0]);
  }

  /** The step is a panic, and the task owed for `i` is in the undrained rest of the queue and not in `woken`. */
  predicate LosesIt(s: State, step: Step, i: nat) {
    && step.TaskPanics? && i in s.hist.owed && i in s.hist.lastPoll
    && s.hist.lastPoll[i] in s.rt.runqueue && s.hist.lastPoll[i] !in s.io.woken
  }

  /** Only a panic loses a wake-up, and it loses exactly those whose task is in the rest of the queue only. */
  lemma OnlyPanicsLose(s: State, step: Step, i: nat)
    requires SystemOk(s) && Allowed(s, step) && i !in Lost(s)
    ensures HeadOk(s.io.completions) && HeadOk(s.io.buffers)
    ensures i in Lost(Next(s, step)) <==> LosesIt(s, step, i)
  {
    hide SystemOk, Next, Allowed, Settles;
    if i in s.hist.owed {
      OwedFacts(s, i);
      OwedUntilSettled(s, step, i);
      if step.TaskPanics? { OwedAfterPanic(s, i); }
    } else {
      NewDebtQueued(s, step, i);
    }
  }

  /** The step processes a CQE whose slot was polled last by `task`. */
  ghost predicate Wakes(s: State, step: Step, task: nat) {
    && (step.ProcessToWoken? || step.ProcessToQueue?) && s.ring.cq != []
    && s.ring.cq[0].userData in C(s.io) && C(s.io)[s.ring.cq[0].userData].task == task
  }

  lemma QueuedOnlyByWaking(s: State, step: Step, task: nat)
    requires SystemOk(s) && Allowed(s, step) && task in Contents(s.rt.futures) && task !in Queue(s) && task < DEAD_TASK
    ensures HeadOk(s.io.completions) && HeadOk(s.io.buffers)
    ensures task in Queue(Next(s, step)) <==> Wakes(s, step, task)
  {
    hide Contents, Valid, RoutingOk, LiveOk, PlacesOk, WakeOk, PollAsync, DropFuture, ProcessOne, Insert, Admit,
         Dedup.Scan, Remove, Put;
    StorageReady(s);
    match step {
      case Poll(f) =>
        LiveFacts(s, f);
        if C(s.io)[s.hist.live[f].cqid].cqe.Some? {
          PollReadyMap(s.io, s.hist.live[f], s.rt.phase.task);
        } else {
          PollPendingMap(s.io, s.hist.live[f], s.rt.phase.task);
        }
      case DropLive(f) =>
        LiveFacts(s, f);
        DropFutureMap(s.io, s.hist.live[f].cqid);
      case SpawnDirect => AdmitAsMap(s.rt.futures, 1);
      case BeginTurn => AdmitAsMap(s.rt.futures, s.io.created);
      case FinishProcessing(h1, h2) => Dedup.DedupPartialCorrect(s.rt.runqueue, h1, h2);
      case ProcessToWoken => ProcessQueues(s, false, task);
      case ProcessToQueue => ProcessQueues(s, true, task);
      case _ =>
    }
  }

  lemma ProcessQueues(s: State, toQueue: bool, task: nat)
    requires SystemOk(s) && s.ring.cq != [] && task !in Queue(s) && task < DEAD_TASK
    ensures task in Queue(Process(s, toQueue)) <==>
            s.ring.cq[0].userData in C(s.io) && C(s.io)[s.ring.cq[0].userData].task == task
  {
    hide Contents, Valid, RoutingOk, LiveOk, PlacesOk, WakeOk, ProcessOne;
    HeadFacts(s);
    ProcessOneMap(s.io, s.ring.cq[0]);
  }

  /**
   What a panic lost stays lost while the task lives, until somebody polls or drops that completion or
   the CQE of another completion wakes the same task.
   */
  lemma LostUntilWokenElsewhere(s: State, step: Step, i: nat)
    requires SystemOk(s) && Allowed(s, step) && i in Lost(s)
    requires i in s.hist.lastPoll && s.hist.lastPoll[i] in Contents(s.rt.futures)
    ensures HeadOk(s.io.completions) && HeadOk(s.io.buffers)
    ensures i in Lost(Next(s, step)) <==> !Settles(s, step, i) && !Wakes(s, step, s.hist.lastPoll[i])
  {
    hide RoutingOk, LiveOk, PlacesOk, Contents, Valid, Next, Allowed, Settles, Wakes;
    assert s.hist.lastPoll[i] < DEAD_TASK;
    OwedUntilSettled(s, step, i);
    QueuedOnlyByWaking(s, step, s.hist.lastPoll[i]);
  }

  // ------------------------------------------------------------------ over whole runs

  /** At position `j` a panic lost the wake-up for `i`, and up to position `k` nothing has brought it back. */
  ghost predicate LostSince(states: seq<State>, steps: seq<Step>, j: nat, k: nat, i: nat)
    requires |states| == |steps| + 1 && k <= |steps|
  {
    && j < k && LosesIt(states[j], steps[j], i)
    && forall m | j < m <= k :: i in Lost(states[m])
  }

  lemma {:induction false} LossHasAPanic(states: seq<State>, steps: seq<Step>, k: nat, i: nat) returns (j: nat)
    requires Run(states, steps) && k <= |steps| && i in Lost(states[k])
    ensures LostSince(states, steps, j, k, i)
    decreases k
  {
    hide SystemOk, Next, Allowed, LosesIt;
    if k == 0 {
      assert false;
    } else {
      RunKeepsOk(states, steps, k - 1);
      assert StepOk(states[k - 1], steps[k - 1], states[k]);
      if i in Lost(states[k - 1]) {
        j := LossHasAPanic(states, steps, k - 1, i);
      } else {
        OnlyPanicsLose(states[k - 1], steps[k - 1], i);
        j := k - 1;
      }
    }
  }

  /**
   In every run: if the task that polled a completion last was left pending, the CQE has been
   processed since and the task has not been dispatched since, then the task is in one of the queues -
   unless a panic threw it out of the run queue and it has been lost ever since.
   */
  lemma NoLostWakeup(states: seq<State>, steps: seq<Step>, i: nat)
    requires Run(states, steps) && i in states[|steps|].hist.owed
    ensures var s := states[|steps|];
            && i in C(s.io) && C(s.io)[i].cqe.Some? && i in s.hist.lastPoll && C(s.io)[i].task == s.hist.lastPoll[i]
            && (s.hist.lastPoll[i] in s.rt.runqueue || s.hist.lastPoll[i] in s.io.woken
                <==> !exists j :: 0 <= j < |steps| && LostSince(states, steps, j, |steps|, i))
  {
    hide SystemOk, Next, Allowed, LosesIt;
    RunKeepsOk(states, steps, |steps|);
    var s := states[|steps|];
    OwedFacts(s, i);
    if i in Lost(s) {
      var j := LossHasAPanic(states, steps, |steps|, i);
    }
  }

  /**
   Blocking in the kernel is safe: `turn` decides to wait only while the queues are empty, no CQE is
   there, and nobody is owed a wake-up save for those that a panic lost.
   */
  lemma BlocksOnlyWhenIdle(s: State)
    requires SystemOk(s) && Allowed(s, ChooseWait)
    ensures HeadOk(s.io.completions) && HeadOk(s.io.buffers)
    ensures var t := Next(s, ChooseWait);
            t.rt.phase == Submitting(1) <==>
            t.hist.owed == Lost(t) && t.rt.runqueue == [] && t.io.woken == [] && t.ring.cq == []
  {
    hide Contents, Valid, RoutingOk, LiveOk, PlacesOk, WakeOk;
    StorageReady(s);
    var t := Next(s, ChooseWait);
    if t.rt.runqueue == [] {
      assert Queue(t) == {};
      assert forall i :: i in t.hist.owed <==> i in Lost(t);
    }
  }

  /** Some wake-up is owed to `task`. */
  ghost predicate OwedTo(s: State, task: nat) {
    exists i :: i in s.hist.owed && i in s.hist.lastPoll && s.hist.lastPoll[i] == task
  }

  /** While `turn` waits for a CQE there is nothing to run but what a repeated submission has woken. */
  ghost predicate WaitOk(s: State) {
    s.rt.phase == Submitting(1) ==> s.rt.runqueue == [] && forall task | task in s.io.woken :: OwedTo(s, task)
  }

  lemma StepKeepsWait(s: State, step: Step)
    requires SystemOk(s) && Allowed(s, step) && WaitOk(s)
    ensures HeadOk(s.io.completions) && HeadOk(s.io.buffers) && WaitOk(Next(s, step))
  {
    hide Contents, Valid, RoutingOk, LiveOk, PlacesOk, WakeOk, PollLive, DropOne, NewCompletion, Insert, Put, Process,
         Admit, Remove, Dedup.Scan, OwedTo;
    StorageReady(s);
    match step {
      case ProcessToWoken => ProcessKeepsWait(s);
      case KernelTake => OwedToStays(s, Next(s, step));
      case KernelPost(_, _, _, _) => OwedToStays(s, Next(s, step));
      case Announce => OwedToStays(s, Next(s, step));
      case _ => assert Next(s, step).rt.phase == Submitting(1) ==> step.ChooseWait? by { PhaseAfter(s, step); }
    }
  }

  lemma PhaseAfter(s: State, step: Step)
    requires SystemOk(s) && Allowed(s, step) && HeadOk(s.io.completions) && HeadOk(s.io.buffers)
    requires !step.ProcessToWoken? && !step.KernelTake? && !step.KernelPost? && !step.Announce?
    ensures Next(s, step).rt.phase == Submitting(1) ==> step.ChooseWait?
  {
    hide Contents, Valid, RoutingOk, LiveOk, PlacesOk, WakeOk, PollAsync, DropFuture, NewCompletion, Insert, Put,
         ProcessOne, Admit, Remove, Dedup.Scan;
  }

  lemma OwedToStays(s: State, t: State)
    requires t.hist.owed == s.hist.owed && t.hist.lastPoll == s.hist.lastPoll
    ensures forall task :: OwedTo(s, task) <==> OwedTo(t, task)
  {
  }

  lemma ProcessKeepsWait(s: State)
    requires SystemOk(s) && s.ring.cq != [] && WaitOk(s)
    ensures WaitOk(Process(s, false))
  {
    hide Contents, Valid, RoutingOk, LiveOk, PlacesOk, ProcessOne, OwedTo;
    HeadFacts(s);
    var e, t := s.ring.cq[0], Process(s, false);
    assert TaskOk(C(s.io), s.hist, e.userData);
    ProcessOneMap(s.io, e);
    if s.rt.phase == Submitting(1) {
      forall task | task in t.io.woken
        ensures OwedTo(t, task)
      {
        if task in s.io.woken {
          OwedToOutlives(s, t, task);
        } else {
          OwedToBy(t, e.userData, task);
        }
      }
    }
  }

  lemma OwedToBy(s: State, i: nat, task: nat)
    requires i in s.hist.owed && i in s.hist.lastPoll && s.hist.lastPoll[i] == task
    ensures OwedTo(s, task)
  {
  }

  lemma OwedToOutlives(s: State, t: State, task: nat)
    requires SystemOk(s) && s.ring.cq != [] && t == Process(s, false) && OwedTo(s, task)
    ensures OwedTo(t, task)
  {
    hide Process, SystemOk;
    var i :| i in s.hist.owed && i in s.hist.lastPoll && s.hist.lastPoll[i] == task;
    OwedAfterProcess(s, false, i);
  }

  lemma {:induction false} RunKeepsWait(states: seq<State>, steps: seq<Step>, k: nat)
    requires Run(states, steps) && k <= |steps|
    ensures WaitOk(states[k])
  {
    hide SystemOk, Next, Allowed;
    if k > 0 {
      RunKeepsWait(states, steps, k - 1);
      RunKeepsOk(states, steps, k - 1);
      assert StepOk(states[k - 1], steps[k - 1], states[k]);
      StepKeepsWait(states[k - 1], steps[k - 1]);
    }
  }

  /**
   Waiting in the kernel is harmless exactly while `woken` is empty, at the first attempt and at every
   repetition of it: then, and only then, nobody is owed a wake-up but for those that a panic lost. The
   run queue is empty all the while, and who waits in `woken` is owed something.
   */
  lemma WaitIsHarmlessIff(states: seq<State>, steps: seq<Step>)
    requires Run(states, steps) && states[|steps|].rt.phase == Submitting(1)
    ensures var s := states[|steps|];
            && s.rt.runqueue == []
            && (s.hist.owed == Lost(s) <==> s.io.woken == [])
            && forall task :: task in s.io.woken <==> exists i :: IsOwedAndQueued(s, i, task)
  {
    hide SystemOk, Next, Allowed;
    RunKeepsWait(states, steps, |steps|);
    var s := states[|steps|];
    forall task
      ensures task in s.io.woken <==> exists i :: IsOwedAndQueued(s, i, task)
    {
      if task in s.io.woken {
        var i :| i in s.hist.owed && i in s.hist.lastPoll && s.hist.lastPoll[i] == task;
        assert IsOwedAndQueued(s, i, task);
      }
    }
    if s.io.woken != [] {
      assert s.io.woken[0] in s.io.woken;
      var i :| IsOwedAndQueued(s, i, s.io.woken[0]);
    } else {
      assert Queue(s) == {};
      assert forall i :: i in s.hist.owed <==> i in Lost(s);
    }
  }

  /** Completion `i` owes `task` a wake-up that is not lost. */
  ghost predicate IsOwedAndQueued(s: State, i: nat, task: nat) {
    i in s.hist.owed && i !in Lost(s) && i in s.hist.lastPoll && s.hist.lastPoll[i] == task
  }

  /** When the turn starts processing, every published SQE has been announced to the kernel. */
  lemma AnnouncedBeforePolling(states: seq<State>, steps: seq<Step>)
    requires Run(states, steps) && states[|steps|].rt.phase.Processing?
    ensures states[|steps|].ring.unsubmitted == 0
  {
    RunKeepsOk(states, steps, |steps|);
  }

  /** What was owed at position `from` and has been owed without a break up to position `k`. */
  ghost function StillOwed(states: seq<State>, from: nat, k: nat): set<nat>
    requires from <= k < |states|
  {
    if k == from then states[from].hist.owed else StillOwed(states, from, k - 1) * states[k].hist.owed
  }

  lemma {:induction false} DebtQueued(states: seq<State>, steps: seq<Step>, from: nat, k: nat, i: nat)
    requires Run(states, steps) && from <= k <= |steps|
    requires forall m | from <= m < k :: !steps[m].TaskPanics?
    requires i in states[from].hist.lastPoll && states[from].hist.lastPoll[i] in states[from].rt.runqueue
    ensures i in StillOwed(states, from, k) ==>
              && i in states[k].hist.owed && i in states[k].hist.lastPoll
              && states[k].hist.lastPoll[i] in states[k].rt.runqueue
    decreases k
  {
    hide SystemOk, Next, Allowed, Settles;
    if from < k {
      DebtQueued(states, steps, from, k - 1, i);
      RunKeepsOk(states, steps, k - 1);
      assert StepOk(states[k - 1], steps[k - 1], states[k]);
      if i in StillOwed(states, from, k - 1) { OwedUntilSettled(states[k - 1], steps[k - 1], i); }
    }
  }

  /**
   A turn settles its debts: whatever is owed when a turn begins, and was not lost to an earlier panic,
   is dispatched, polled or dropped before that turn comes to its end without a panic.
   */
  lemma TurnSettlesDebts(states: seq<State>, steps: seq<Step>, from: nat, k: nat)
    requires Run(states, steps) && from < k < |steps|
    requires steps[from] == BeginTurn && steps[k] == EndTurn
    requires forall m | from < m < k :: !steps[m].TaskPanics?
    ensures StillOwed(states, from + 1, k) <= Lost(states[from])
  {
    hide SystemOk, Lost;
    RunKeepsOk(states, steps, from);
    assert StepOk(states[from], steps[from], states[from + 1]);
    assert StepOk(states[k], steps[k], states[k + 1]);
    forall i | i in StillOwed(states, from + 1, k)
      ensures i in Lost(states[from])
    {
      OwedFromStart(states, from + 1, k, i);
      if i !in Lost(states[from]) {
        BeginQueues(states[from], i);
        DebtQueued(states, steps, from + 1, k, i);
        assert false;
      }
    }
  }

  lemma {:induction false} OwedFromStart(states: seq<State>, from: nat, k: nat, i: nat)
    requires from <= k < |states| && i in StillOwed(states, from, k)
    ensures i in states[from].hist.owed
    decreases k
  {
    if from < k { OwedFromStart(states, from, k - 1, i); }
  }

  lemma BeginQueues(s: State, i: nat)
    requires SystemOk(s) && i in s.hist.owed && i !in Lost(s)
    ensures i in Begin(s).hist.lastPoll && Begin(s).hist.lastPoll[i] in Begin(s).rt.runqueue
    ensures Begin(s).hist == s.hist
  {
    hide Contents, Valid, RoutingOk, LiveOk, PlacesOk, Admit;
  }
}
