/** Runs of the executor in which something goes wrong, step by step. */
module ExecutorScenarios {
  import opened Wrappers
  import opened SlotSpec
  import opened FixedVecs
  import opened Executor
  import opened ExecutorMaps
  import opened ExecutorRouting
  import opened ExecutorLive
  import opened ExecutorPlaces
  import opened ExecutorBuffers
  import opened ExecutorSteps
  import opened ExecutorRuns
  import opened ExecutorLeaks
  import opened ExecutorTasks
  import opened ExecutorWakeups
  import Dedup

  const QUIET := Ring([], [], [], [], [], [], {}, 0)

  lemma StartReachable() returns (s: State)
    ensures s == State(Io(Empty(), Empty(), [], 0, 0), Runtime(Empty(), [], Outside), QUIET,
                       History(0, map[], map[], map[], {}, {}, map[], false))
    ensures Reachable(s)
  {
    s := State(Io(Empty(), Empty(), [], 0, 0), Runtime(Empty(), [], Outside), QUIET,
               History(0, map[], map[], map[], {}, {}, map[], false));
    InitReachable(s);
  }

  lemma AdmitFirst(futures: Slots<()>)
    requires Valid(futures) && |futures.entries| + SLABSIZE <= SENTINEL
    ensures HeadOk(futures)
    ensures var (t, id) := Insert(futures, ());
            && Admit(futures, 1) == (t, [id]) && Valid(t) && |t.entries| <= |futures.entries| + SLABSIZE
            && id !in Contents(futures) && Contents(t).Keys == Contents(futures).Keys + {id} && Occupied(t, id)
  {
    hide Insert, Valid, Contents;
    AdmitOne(futures);
    var (t, id) := Insert(futures, ());
    ValidFacts(t);
    assert id in Contents(t).Keys;
    assert Admit(t, 0) == (t, []);
    assert [id] + [] == [id];
  }

  /** The first task runs. */
  lemma OneTaskRuns() returns (s: State, task: nat)
    ensures Reachable(s)
    ensures s.io == Io(Empty(), Empty(), [], 0, 0) && s.ring == QUIET
    ensures s.rt == Runtime(s.rt.futures, [], Running(task))
    ensures Valid(s.rt.futures) && |s.rt.futures.entries| <= SLABSIZE && Contents(s.rt.futures).Keys == {task}
    ensures s.hist == History(0, map[], map[], map[], {}, {}, map[], false)
  {
    hide Reachable, Valid, Contents, Insert, Admit, Dedup.Scan, SystemOk;
    var s0 := StartReachable();
    EmptyIsValid<()>();
    AdmitFirst(Empty());
    var (futures, id) := Insert(Empty<()>(), ());
    ReachStep(s0, Spawn);
    var s1 := Next(s0, Spawn);
    ReachStep(s1, BeginTurn);
    var s2 := Next(s1, BeginTurn);
    assert s2.rt == Runtime(futures, [id], Processing);
    var h := (v: nat) => 0;
    ReachStep(s2, FinishProcessing(h, h));
    Dedup.DistinctUnchanged(Dedup.Start([id]), h, h);
    var s3 := Next(s2, FinishProcessing(h, h));
    ReachStep(s3, Dispatch);
    s, task := Next(s3, Dispatch), id;
    assert s.hist.owed == {} && s.hist.forgotten == {};
  }

  /** The submitted request of the first task, and its SQE. */
  function FirstToken(i: nat): Token {
    Token(i, 0, Request(0, Plain))
  }

  function FirstEvent(i: nat): Cqe {
    Cqe(i, 0, None, Request(0, Plain), [])
  }

  /** What there is to remember of that one request. */
  function PlainHistory(i: nat, lastPoll: map<nat, nat>, owed: set<nat>): History {
    History(1, map[i := Request(0, Plain)], map[0 := Future(i, false, Plain)], lastPoll, owed, {}, map[], false)
  }

  /** The first task has submitted a request, has polled it in vain, and is about to return. */
  ghost predicate OnePending(s: State, task: nat, i: nat) {
    && Reachable(s)
    && IoOk(s.io) && s.io.buffers == Empty() && s.io.woken == [] && s.io.created == 0 && s.io.queued == 1
    && C(s.io) == map[i := CompletionEvent(None, task, NoAction)]
    && s.ring == QUIET.(sq := [FirstToken(i)], unsubmitted := 1)
    && s.rt == Runtime(s.rt.futures, [], Running(task))
    && Valid(s.rt.futures) && |s.rt.futures.entries| <= SLABSIZE && Contents(s.rt.futures).Keys == {task}
    && s.hist == PlainHistory(i, map[i := task], {})
  }

  lemma TaskSubmits() returns (s: State, task: nat, i: nat)
    ensures Reachable(s)
    ensures IoOk(s.io) && s.io == Io(s.io.completions, Empty(), [], 0, 1)
    ensures C(s.io) == map[i := CompletionEvent(None, NO_TASK, NoAction)]
    ensures s.ring == QUIET.(sq := [FirstToken(i)], unsubmitted := 1)
    ensures s.rt == Runtime(s.rt.futures, [], Running(task))
    ensures Valid(s.rt.futures) && |s.rt.futures.entries| <= SLABSIZE && Contents(s.rt.futures).Keys == {task}
    ensures s.hist == PlainHistory(i, map[], {})
  {
    hide Reachable, Valid, Contents, NewCompletion, SystemOk;
    var s0, id := OneTaskRuns();
    EmptyIsValid<CompletionEvent>();
    EmptyIsValid<Buffer>();
    NewCompletionMap(s0.io);
    ReachStep(s0, NewPlain(false));
    var s1 := Next(s0, NewPlain(false));
    i := NewCompletion(s0.io).1;
    assert s1.ring.prep == [FirstToken(i)];
    ReachStep(s1, FillSqe);
    var s2 := Next(s1, FillSqe);
    assert s2.ring == QUIET.(batch := [FirstToken(i)]) by { assert [FirstToken(i)][1..] == []; }
    ReachStep(s2, SubmitBatch);
    s, task := Next(s2, SubmitBatch), id;
    assert s.ring.sq == [FirstToken(i)];
  }

  lemma TaskWaits() returns (s: State, task: nat, i: nat)
    ensures OnePending(s, task, i)
  {
    hide Reachable, Valid, Contents, SystemOk, PollAsync;
    var s0;
    s0, task, i := TaskSubmits();
    ReachStep(s0, Step.Poll(0));
    PollPendingMap(s0.io, s0.hist.live[0], task);
    s := Next(s0, Step.Poll(0));
  }

  /** The CQE comes while `turn` is submitting. */
  lemma EventArrives(s: State, i: nat) returns (t: State)
    requires Reachable(s) && s.ring.sq == [FirstToken(i)] && s.ring.flight == [] && s.ring.cq == []
    ensures Reachable(t)
    ensures t == s.(ring := s.ring.(sq := [], cq := [FirstEvent(i)]))
  {
    hide Reachable, SystemOk;
    ReachStep(s, KernelTake);
    var u := Next(s, KernelTake);
    assert u.ring == s.ring.(sq := [], flight := [FirstToken(i)]);
    ReachStep(u, KernelPost(0, 0, None, []));
    t := Next(u, KernelPost(0, 0, None, []));
    assert t.ring.flight == [];
  }

  /** The first task returns, its turn ends, and nothing changes but the phase. */
  lemma TaskReturns(s: State) returns (t: State)
    requires Reachable(s) && s.rt.phase.Running? && s.rt.runqueue == [] && s.ring.prep == []
    ensures Reachable(t) && t == s.(rt := s.rt.(phase := Outside))
  {
    hide Reachable, SystemOk;
    ReachStep(s, FinishTask(false));
    var u := Next(s, FinishTask(false));
    ReachStep(u, EndTurn);
    t := Next(u, EndTurn);
  }

  lemma StoresEvent(s: State, task: nat, i: nat, toQueue: bool)
    requires IoOk(s.io) && s.ring.cq == [FirstEvent(i)] && task < DEAD_TASK
    requires C(s.io) == map[i := CompletionEvent(None, task, NoAction)] && i in s.hist.lastPoll
    ensures var t := Process(s, toQueue);
            && IoOk(t.io) && C(t.io) == map[i := CompletionEvent(Some(FirstEvent(i)), task, NoAction)]
            && t.ring == s.ring.(cq := []) && t.hist == s.hist.(owed := s.hist.owed + {i})
            && t.rt == (if toQueue then s.rt.(runqueue := s.rt.runqueue + [task]) else s.rt)
            && t.io.woken == (if toQueue then s.io.woken else s.io.woken + [task])
            && t.io.created == s.io.created && t.io.queued == s.io.queued && t.io.buffers == s.io.buffers
  {
    hide Valid, Contents, Put, Remove;
    ProcessOneMap(s.io, FirstEvent(i));
    assert s.ring.cq[1..] == [];
  }

  /**
   A submission that is tried again waits again: in some run `turn` decides to wait for a CQE, the kernel
   answers EBUSY or EAGAIN, `process_cqes` wakes a task, and the next attempt still asks to wait although
   that task is owed its wake-up.
   */
  lemma RetryWaitsDespiteWokenTask() returns (s: State, task: nat, i: nat)
    ensures Reachable(s) && s.rt.phase == Submitting(1)
    ensures i in s.hist.owed && i in s.hist.lastPoll && s.hist.lastPoll[i] == task && s.io.woken == [task]
    ensures task in Contents(s.rt.futures)
  {
    hide Reachable, Valid, Contents, SystemOk, Process, TaskDone, Insert;
    var s0;
    s0, task, i := TaskWaits();
    TaskIsSmall(s0);
    var s1 := TaskReturns(s0);
    ReachStep(s1, BeginTurn);
    var s2 := Next(s1, BeginTurn);
    assert Admit(s1.rt.futures, 0) == (s1.rt.futures, []);
    ReachStep(s2, ChooseWait);
    var s3 := Next(s2, ChooseWait);
    var s4 := EventArrives(s3, i);
    ReachStep(s4, ProcessToWoken);
    StoresEvent(s4, task, i, false);
    s := Next(s4, ProcessToWoken);
    assert task in Contents(s.rt.futures).Keys;
  }

  lemma TaskIsSmall(s: State)
    requires Reachable(s) && s.rt.phase.Running?
    ensures s.rt.phase.task < DEAD_TASK
  {
    var states, steps :| Run(states, steps) && states[|steps|] == s;
    RunKeepsOk(states, steps, |steps|);
  }

  /** A second task has been spawned, and the event of the first one is there: both are queued. */
  ghost predicate TwoQueued(s: State, first: nat, second: nat, i: nat) {
    && Reachable(s) && first != second
    && IoOk(s.io) && s.io.buffers == Empty() && s.io.woken == [] && s.io.created == 0 && s.io.queued == 0
    && C(s.io) == map[i := CompletionEvent(Some(FirstEvent(i)), first, NoAction)]
    && s.ring == QUIET
    && s.rt == Runtime(s.rt.futures, [second, first], Processing)
    && Valid(s.rt.futures) && |s.rt.futures.entries| <= 2 * SLABSIZE && Contents(s.rt.futures).Keys == {first, second}
    && s.hist == PlainHistory(i, map[i := first], {i})
  }

  /** The second task is spawned by the first, which returns; the next turn submits. */
  lemma SecondSpawned(s: State, first: nat, i: nat) returns (t: State, second: nat)
    requires OnePending(s, first, i)
    ensures Reachable(t) && first != second
    ensures t.io == s.io.(queued := 0) && t.ring == s.ring.(unsubmitted := 0) && t.hist == s.hist
    ensures t.rt == Runtime(t.rt.futures, [second], Processing)
    ensures Valid(t.rt.futures) && |t.rt.futures.entries| <= 2 * SLABSIZE
    ensures Contents(t.rt.futures).Keys == {first, second}
  {
    hide Reachable, Valid, Contents, SystemOk, Insert, Admit;
    ReachStep(s, Spawn);
    var s1 := TaskReturns(Next(s, Spawn));
    AdmitFirst(s.rt.futures);
    ReachStep(s1, BeginTurn);
    second := Insert(s.rt.futures, ()).1;
    assert first in Contents(s.rt.futures).Keys;
    var s2 := Next(s1, BeginTurn);
    ReachStep(s2, ChooseWait);
    var s3 := Next(s2, ChooseWait);
    ReachStep(s3, SubmitDone);
    t := Next(s3, SubmitDone);
  }

  lemma BothQueued() returns (s: State, first: nat, second: nat, i: nat)
    ensures TwoQueued(s, first, second, i)
  {
    hide Reachable, Valid, Contents, SystemOk, Process;
    var s0;
    s0, first, i := TaskWaits();
    TaskIsSmall(s0);
    var s1;
    s1, second := SecondSpawned(s0, first, i);
    var s2 := EventArrives(s1, i);
    ReachStep(s2, ProcessToQueue);
    StoresEvent(s2, first, i, true);
    s := Next(s2, ProcessToQueue);
    assert s.hist.owed == {i} && s.rt.runqueue == [second, first];
  }

  /** The second task runs while the first one is in the rest of the queue. */
  lemma SecondRuns() returns (s: State, first: nat, second: nat, i: nat)
    ensures Reachable(s) && first != second
    ensures IoOk(s.io) && s.io == Io(s.io.completions, Empty(), [], 0, 0) && s.ring == QUIET
    ensures C(s.io) == map[i := CompletionEvent(Some(FirstEvent(i)), first, NoAction)]
    ensures s.rt == Runtime(s.rt.futures, [first], Running(second))
    ensures Valid(s.rt.futures) && |s.rt.futures.entries| <= 2 * SLABSIZE
    ensures Contents(s.rt.futures).Keys == {first, second}
    ensures s.hist == PlainHistory(i, map[i := first], {i})
  {
    hide Reachable, Valid, Contents, SystemOk, Dedup.Scan;
    var s0;
    s0, first, second, i := BothQueued();
    var h := (v: nat) => 0;
    ReachStep(s0, FinishProcessing(h, h));
    Dedup.DistinctUnchanged(Dedup.Start([second, first]), h, h);
    var s1 := Next(s0, FinishProcessing(h, h));
    ReachStep(s1, Dispatch);
    ValidFacts(s1.rt.futures);
    assert second in Contents(s1.rt.futures).Keys;
    s := Next(s1, Dispatch);
    assert s.hist.owed == {i} && s.hist.forgotten == {};
  }

  /**
   A panic really loses a wake-up: in some run two tasks are queued, the first in the queue panics, and
   the wake-up of the other, which lives on with its CQE in its completion slot, is gone. The next turn
   then waits in the kernel.
   */
  lemma PanicLosesWakeup() returns (before: State, after: State, task: nat, i: nat)
    ensures Reachable(before) && Allowed(before, TaskPanics)
    ensures i in before.hist.owed && i !in Lost(before) && LosesIt(before, TaskPanics, i)
    ensures Reachable(after) && after.rt.phase == Submitting(1) && after.rt.runqueue == [] && after.io.woken == []
    ensures i in Lost(after) && i in after.hist.lastPoll && after.hist.lastPoll[i] == task
    ensures task in Contents(after.rt.futures)
    ensures i in C(after.io) && C(after.io)[i].cqe.Some? && 0 in after.hist.live && after.hist.live[0].cqid == i
  {
    hide Reachable, Valid, Contents, SystemOk, Insert, Remove;
    var second;
    before, task, second, i := SecondRuns();
    RemoveAsMap(before.rt.futures, second);
    ReachStep(before, TaskPanics);
    var s1 := Next(before, TaskPanics);
    ReachStep(s1, BeginTurn);
    var s2 := Next(s1, BeginTurn);
    assert Admit(s1.rt.futures, 0) == (s1.rt.futures, []);
    ReachStep(s2, ChooseWait);
    after := Next(s2, ChooseWait);
    assert task in Contents(before.rt.futures).Keys;
    assert task in Contents(after.rt.futures);
  }

  /** In some run a task id is queued for a second future before the next turn. */
  lemma IdReusedWithinTurn() returns (s: State, t: State, id: nat)
    ensures Reachable(s) && s.rt.phase == Running(id)
    ensures Reachable(t) && t.rt == Runtime(s.rt.futures, [id], Outside)
  {
    hide Reachable, Valid, Contents, SystemOk, Insert, Remove, Admit, SpawnOn;
    s, id := OneTaskRuns();
    SystemFacts(s);
    SpawnReusesIdBeforeNextTurn(s);
    ReachStep(s, FinishTask(true));
    var u := Next(s, FinishTask(true));
    ReachStep(u, EndTurn);
    var v := Next(u, EndTurn);
    ReachStep(v, SpawnDirect);
    t := Next(v, SpawnDirect);
  }

  lemma SystemFacts(s: State)
    requires Reachable(s)
    ensures SystemOk(s)
  {
    hide SystemOk, Allowed, Next;
    var states, steps :| Run(states, steps) && states[|steps|] == s;
    RunKeepsOk(states, steps, |steps|);
  }

  /** A buffer is offered to the kernel, which refuses it. */
  function RefusedToken(i: nat, id: nat, buffer: Buffer): Token {
    Token(i, id, Request(0, Provide(id, buffer)))
  }

  function RefusedEvent(i: nat, id: nat, buffer: Buffer): Cqe {
    Cqe(i, -1, None, Request(0, Provide(id, buffer)), [])
  }

  /** The provide is in a batch of its own. */
  lemma BufferOffered(buffer: Buffer) returns (s: State, i: nat, id: nat)
    ensures Reachable(s) && IoOk(s.io) && s.io.woken == [] && s.io.created == 0 && s.io.queued == 0
    ensures C(s.io) == map[i := CompletionEvent(None, NO_TASK, DeleteBufferOnError(id))]
    ensures s.ring == QUIET.(batch := [RefusedToken(i, id, buffer)])
    ensures s.rt.phase.Running? && s.rt.runqueue == [] && |s.rt.futures.entries| <= SLABSIZE
    ensures s.hist.live == map[0 := Future(i, false, Provide(id, buffer))] && id in s.hist.place
  {
    hide Reachable, Valid, Contents, SystemOk, NewCompletion, Insert, Put;
    var s0, task := OneTaskRuns();
    EmptyIsValid<CompletionEvent>();
    EmptyIsValid<Buffer>();
    SystemFacts(s0);
    StoreFacts(s0);
    BufferIdFits(s0, buffer.(len := 0));
    id := Insert(s0.io.buffers, buffer.(len := 0)).1;
    var io := s0.io.(buffers := Insert(s0.io.buffers, buffer.(len := 0)).0);
    NewCompletionMap(io);
    i := NewCompletion(io).1;
    ReachStep(s0, NewProvide(buffer));
    var s1 := Next(s0, NewProvide(buffer));
    assert s1.ring == QUIET.(prep := [RefusedToken(i, id, buffer)]);
    FillMap(s1, RefusedToken(i, id, buffer));
    ReachStep(s1, FillSqe);
    s := Next(s1, FillSqe);
    assert s.ring == QUIET.(batch := [RefusedToken(i, id, buffer)]);
  }

  /**
   If that batch is dropped instead of being submitted then the buffer is gone, and the future that
   offered it, still there, waits for ever.
   */
  lemma AbandonedBatchLeaks(buffer: Buffer) returns (s: State, i: nat, id: nat)
    ensures Reachable(s) && NoWayBack(s, id)
    ensures 0 in s.hist.live && s.hist.live[0].cqid == i && WaitsInVain(s, i)
  {
    hide Reachable, Valid, Contents, SystemOk, NoWayBack, WaitsInVain;
    var s0;
    s0, i, id := BufferOffered(buffer);
    var t := RefusedToken(i, id, buffer);
    assert AbandonOf(s0, AbandonBatch, id) by { assert t in s0.ring.batch && TokenHolds(t) == Some(id); }
    ReachStep(s0, AbandonBatch);
    LeaksExactly(s0, AbandonBatch, id);
    s := Next(s0, AbandonBatch);
    assert s.ring.abandoned == [t];
    AbandonedInVain(s, t);
  }

  lemma StoreFacts(s: State)
    requires SystemOk(s)
    ensures StorageOk(s)
  {
  }

  /** The refusal arrives while the next turn is about to process CQEs. */
  lemma RefusalArrives(buffer: Buffer) returns (s: State, i: nat, id: nat)
    ensures Reachable(s) && s.rt.phase.Processing? && s.rt.runqueue == [] && IoOk(s.io)
    ensures C(s.io) == map[i := CompletionEvent(None, NO_TASK, DeleteBufferOnError(id))]
    ensures s.ring.prep == [] && s.ring.cq == [RefusedEvent(i, id, buffer)]
    ensures s.hist.live == map[0 := Future(i, false, Provide(id, buffer))]
  {
    hide Reachable, Valid, Contents, SystemOk, TaskDone, Insert;
    var s0;
    s0, i, id := BufferOffered(buffer);
    ReachStep(s0, SubmitBatch);
    var s1 := TaskReturns(Next(s0, SubmitBatch));
    assert s1.ring.sq == [RefusedToken(i, id, buffer)];
    ReachStep(s1, KernelTake);
    var s2 := Next(s1, KernelTake);
    ReachStep(s2, KernelPost(0, -1, None, []));
    var s3 := Next(s2, KernelPost(0, -1, None, []));
    assert s3.ring.cq == [RefusedEvent(i, id, buffer)];
    s := QuietTurnProcesses(s3);
  }

  /** A turn that has nothing to run but something to submit gets to the processing of CQEs. */
  lemma QuietTurnProcesses(s: State) returns (t: State)
    requires Reachable(s) && s.rt.phase.Outside? && s.ring.prep == [] && s.ring.cq != [] && s.io.queued > 0
    requires s.io.created == 0 && s.io.woken == [] && s.rt.runqueue == [] && |s.rt.futures.entries| <= SLABSIZE
    ensures Reachable(t) && t.hist == s.hist && t.ring == s.ring.(unsubmitted := 0) && t.io == s.io.(queued := 0)
    ensures t.rt == s.rt.(phase := Processing)
  {
    hide Reachable, SystemOk;
    ReachStep(s, BeginTurn);
    var s1 := Next(s, BeginTurn);
    assert Admit(s.rt.futures, 0) == (s.rt.futures, []);
    ReachStep(s1, ChooseWait);
    var s2 := Next(s1, ChooseWait);
    ReachStep(s2, SubmitDone);
    t := Next(s2, SubmitDone);
  }

  /** With nothing to run the turn is soon over. */
  lemma QuietTurnEnds(s: State) returns (t: State)
    requires Reachable(s) && s.rt.phase.Processing? && s.rt.runqueue == []
    ensures Reachable(t) && t == s.(rt := s.rt.(phase := Outside))
  {
    hide Reachable, SystemOk, Dedup.Scan;
    var h := (v: nat) => 0;
    ReachStep(s, FinishProcessing(h, h));
    Dedup.DistinctUnchanged(Dedup.Start(s.rt.runqueue), h, h);
    var s1 := Next(s, FinishProcessing(h, h));
    ReachStep(s1, EndTurn);
    t := Next(s1, EndTurn);
  }

  /** The refusal is processed while the future of the provide lives on. */
  lemma RefusalStored(buffer: Buffer) returns (s: State, i: nat, id: nat)
    ensures Reachable(s) && s.rt.phase.Outside? && s.ring.prep == []
    ensures i in C(s.io) && C(s.io)[i].cqe == Some(RefusedEvent(i, id, buffer))
    ensures s.hist.live == map[0 := Future(i, false, Provide(id, buffer))]
  {
    hide Reachable, Valid, Contents, SystemOk, ProcessOne;
    var s0;
    s0, i, id := RefusalArrives(buffer);
    ReachStep(s0, ProcessToQueue);
    ProcessOneMap(s0.io, RefusedEvent(i, id, buffer));
    s := QuietTurnEnds(Next(s0, ProcessToQueue));
  }

  /**
   A leak really happens: in some run the kernel refuses a buffer, and the future that offered it is
   dropped after its CQE was processed. The buffer stays in `buffers` though no future is left.
   */
  lemma RefusedBufferLeaks(buffer: Buffer) returns (s: State, id: nat)
    ensures Reachable(s) && s.hist.live == map[]
    ensures NoWayBack(s, id)
  {
    hide Reachable, Valid, Contents, SystemOk, DropOne, NoWayBack;
    var s0, i;
    s0, i, id := RefusalStored(buffer);
    assert LateDropOf(s0, DropLive(0), id);
    ReachStep(s0, DropLive(0));
    LeaksExactly(s0, DropLive(0), id);
    s := Next(s0, DropLive(0));
    DropsOnlyLive(s0, 0);
  }

  lemma DropsOnlyLive(s: State, f: nat)
    requires SystemOk(s) && f in s.hist.live
    ensures DropOne(s, f).hist.live == s.hist.live - {f}
  {
    hide RoutingOk, LiveOk, WakeOk, PlacesOk, Valid, Contents, DropFuture;
    LiveFacts(s, f);
    DropFutureMap(s.io, s.hist.live[f].cqid);
  }
}
