/** Task ids: when they are given out, and to whom. */
module ExecutorTasks {
  import opened Wrappers
  import opened SlotSpec
  import opened FixedVecs
  import opened Executor
  import opened ExecutorMaps
  import opened ExecutorRouting
  import opened ExecutorLive
  import opened ExecutorPlaces
  import opened ExecutorBuffers
  import opened ExecutorSteps
  import opened ExecutorRuns
  import Dedup

  lemma AdmitOne(futures: Slots<()>)
    requires Valid(futures) && |futures.entries| + SLABSIZE <= SENTINEL
    ensures HeadOk(futures)
    ensures var (t, id) := Insert(futures, ());
            && Valid(t) && |t.entries| <= |futures.entries| + SLABSIZE
            && |Contents(t)| == |Contents(futures)| + 1 && Contents(t).Keys == Contents(futures).Keys + {id}
            && id !in Contents(futures)
  {
    hide Valid, Contents, Insert;
    InsertAsMap(futures, ());
    var (t, id) := Insert(futures, ());
    assert Contents(t).Keys == Contents(futures).Keys + {id};
  }

  lemma {:induction false} AdmitAsMap(futures: Slots<()>, n: nat)
    requires Valid(futures) && |futures.entries| + n * SLABSIZE <= SENTINEL
    ensures var (t, ids) := Admit(futures, n);
            && |ids| == n && |Contents(t)| == |Contents(futures)| + n
            && (forall id :: id in Contents(t) <==> id in Contents(futures) || id in ids)
            && (forall id | id in ids :: id !in Contents(futures))
    decreases n
  {
    hide Valid, Contents, Insert, HeadOk;
    if n > 0 {
      AdmitOne(futures);
      var (t, id) := Insert(futures, ());
      AdmitAsMap(t, n - 1);
      assert forall j :: j in Contents(t).Keys <==> j in Contents(futures).Keys || j == id;
      assert Admit(futures, n) == (Admit(t, n - 1).0, [id] + Admit(t, n - 1).1);
    }
  }

  /** A turn starts every future created since the last one: each gets a slot of its own and is queued. */
  lemma NewTasksQueued(s: State)
    requires SystemOk(s) && Allowed(s, BeginTurn)
    ensures var t := Begin(s);
            && t.io.created == 0
            && |Contents(t.rt.futures)| == |Contents(s.rt.futures)| + s.io.created
            && (forall id | id in Contents(t.rt.futures) && id !in Contents(s.rt.futures) :: id in t.rt.runqueue)
            && (forall id | id in Contents(s.rt.futures) :: id in Contents(t.rt.futures))
  {
    hide Valid, Contents, RoutingOk, LiveOk, PlacesOk, WakeOk, Admit;
    AdmitAsMap(s.rt.futures, s.io.created);
  }

  /**
   Exactly two steps give out task ids: the setup of a turn that finds futures created since the last
   one, and `spawn_dyn` on the runtime. In every other step ids only disappear.
   */
  lemma TaskIdsGivenOutIff(s: State, step: Step)
    requires SystemOk(s) && Allowed(s, step)
    ensures HeadOk(s.io.completions) && HeadOk(s.io.buffers)
    ensures Contents(Next(s, step).rt.futures).Keys <= Contents(s.rt.futures).Keys
            <==> !(step.SpawnDirect? || (step.BeginTurn? && s.io.created > 0))
  {
    hide Contents, Valid, RoutingOk, LiveOk, PlacesOk, WakeOk, Process, PollAsync, DropFuture, NewCompletion, Remove,
         Dedup.Scan, Insert, Admit;
    StorageReady(s);
    match step {
      case FinishTask(_) => RemoveAsMap(s.rt.futures, s.rt.phase.task);
      case TaskPanics => RemoveAsMap(s.rt.futures, s.rt.phase.task);
      case ProcessToWoken => ProcessKeepsFutures(s, false);
      case ProcessToQueue => ProcessKeepsFutures(s, true);
      case BeginTurn => AdmitGrows(s.rt.futures, s.io.created);
      case SpawnDirect => AdmitGrows(s.rt.futures, 1);
      case _ =>
    }
  }

  lemma ProcessKeepsFutures(s: State, toQueue: bool)
    requires s.ring.cq != []
    ensures Process(s, toQueue).rt.futures == s.rt.futures
  {
    hide ProcessOne;
  }

  lemma AdmitGrows(futures: Slots<()>, n: nat)
    requires Valid(futures) && |futures.entries| + n * SLABSIZE <= SENTINEL
    ensures Contents(Admit(futures, n).0).Keys <= Contents(futures).Keys <==> n == 0
  {
    hide Valid, Contents;
    AdmitAsMap(futures, n);
    var t := Admit(futures, n).0;
    if Contents(t).Keys <= Contents(futures).Keys {
      assert Contents(t).Keys == Contents(futures).Keys;
      assert |Contents(t).Keys| == |Contents(t)| && |Contents(futures).Keys| == |Contents(futures)|;
    }
  }

  /**
   The documented guarantee, that an id stays unused until the next turn, fails for `spawn_dyn`: if the
   last task of a turn completes, the future spawned after the turn gets its id and is queued under it.
   */
  lemma SpawnReusesIdBeforeNextTurn(s: State)
    requires SystemOk(s) && s.rt.phase.Running? && s.rt.runqueue == [] && s.ring.prep == [] && HasRoom(s.rt.futures, 0)
    ensures HeadOk(s.io.completions) && HeadOk(s.io.buffers) && Allowed(s, FinishTask(true))
    ensures var id, t := s.rt.phase.task, Next(s, FinishTask(true));
            && id in Contents(s.rt.futures) && id !in Contents(t.rt.futures)
            && Allowed(t, EndTurn) && Allowed(Next(t, EndTurn), SpawnDirect)
            && var u := Next(Next(t, EndTurn), SpawnDirect);
               u.rt == Runtime(s.rt.futures, [id], Outside)
  {
    hide Valid, Contents, RoutingOk, LiveOk, PlacesOk, WakeOk, Insert;
    StorageReady(s);
    ValidFacts(s.rt.futures);
    var id := s.rt.phase.task;
    RemoveAsMap(s.rt.futures, id);
    FreedKeyIsNext(s.rt.futures, id, ());
    var t := Next(s, FinishTask(true));
    var u := Next(t, EndTurn);
    assert u.rt == Runtime(Remove(s.rt.futures, id).0, [], Outside);
    assert s.rt.futures.entries[id].value == ();
    assert s.rt.futures.entries[id := Element(())] == s.rt.futures.entries;
    assert Put(s.rt.futures, id, ()) == s.rt.futures;
    assert Insert(u.rt.futures, ()) == (s.rt.futures, id);
    assert Admit(s.rt.futures, 0) == (s.rt.futures, []);
    assert [id] + [] == [id];
    assert Admit(u.rt.futures, 1) == (s.rt.futures, [id]);
  }

  // ------------------------------------------------------------------ exactly when an id is used again

  ghost function TaskIds(s: State): set<nat> {
    Contents(s.rt.futures).Keys
  }

  /** The ids that tasks have had at any time since the last turn began. */
  ghost function UsedSince(states: seq<State>, steps: seq<Step>, k: nat): set<nat>
    requires k <= |steps| && |states| == |steps| + 1
  {
    if k == 0 || steps[k - 1].BeginTurn? then TaskIds(states[k])
    else UsedSince(states, steps, k - 1) + TaskIds(states[k])
  }

  /** `freed` are those of the ids in `used` that are free again, and the free list begins with them. */
  ghost predicate FreedOk(f: Slots<()>, freed: seq<nat>, used: set<nat>) {
    && (exists chain :: FreeChain(f, chain) && freed <= chain)
    && Contents(f).Keys <= used
    && forall id :: id in freed <==> id in used && id !in Contents(f)
  }

  lemma FreedAfterRemove(f: Slots<()>, freed: seq<nat>, used: set<nat>, id: nat)
    requires FreedOk(f, freed, used) && id in Contents(f)
    ensures FreedOk(Remove(f, id).0, [id] + freed, used)
  {
    hide Remove, Contents, FreeChain;
    var chain :| FreeChain(f, chain) && freed <= chain;
    RemoveRefines(f, chain, id);
    assert FreeChain(Remove(f, id).0, [id] + chain) && [id] + freed <= [id] + chain;
  }

  lemma FreedAfterInsert(f: Slots<()>, freed: seq<nat>, used: set<nat>)
    requires FreedOk(f, freed, used) && |f.entries| + SLABSIZE <= SENTINEL
    ensures HeadOk(f)
    ensures var (g, id) := Insert(f, ());
            FreedOk(g, if freed == [] then [] else freed[1..], used + {id})
    ensures freed != [] ==> Insert(f, ()).1 == freed[0]
    ensures Insert(f, ()).1 in used <==> freed != []
  {
    var chain :| FreeChain(f, chain) && freed <= chain;
    HeadOfChain(f, chain);
    ChainHasNoRepeats(f, chain);
    hide Insert, Contents, FreeChain, HeadOk;
    InsertRefines(f, chain, ());
    var (g, id) := Insert(f, ());
    if freed != [] {
      assert freed[0] == chain[0] && AfterInsert(f, chain) == chain[1..];
      assert freed[1..] <= chain[1..];
      assert freed == [id] + freed[1..];
      assert id !in freed[1..] by { assert forall i | 0 < i < |freed| :: freed[i] == chain[i]; }
    } else {
      assert [] <= AfterInsert(f, chain);
    }
    assert Contents(g).Keys == Contents(f).Keys + {id};
  }

  lemma HeadOfChain(f: Slots<()>, chain: seq<nat>)
    requires FreeChain(f, chain)
    ensures HeadOk(f) && (chain != [] ==> Insert(f, ()).1 == chain[0])
  {
    HeadIsFree(f, chain);
    if chain != [] { assert LinkAt(f, chain, 0); }
  }

  lemma ChainHasNoRepeats(f: Slots<()>, chain: seq<nat>)
    requires FreeChain(f, chain)
    ensures forall i | 0 < i < |chain| :: chain[i] != chain[0]
  {
    forall i | 0 < i < |chain|
      ensures chain[i] != chain[0]
    {
      assert chain == chain[..i] + [chain[i]] + chain[i + 1..];
      assert chain[..i][0] == chain[0];
      assert multiset(chain)[chain[i]] <= 1;
    }
  }

  lemma FuturesAfter(s: State, step: Step)
    requires SystemOk(s) && Allowed(s, step)
    ensures HeadOk(s.io.completions) && HeadOk(s.io.buffers)
    ensures var f, g := s.rt.futures, Next(s, step).rt.futures;
            match step
            case BeginTurn => true
            case SpawnDirect => HeadOk(f) && g == Insert(f, ()).0
            case TaskPanics => g == Remove(f, s.rt.phase.task).0
            case FinishTask(done) => g == if done then Remove(f, s.rt.phase.task).0 else f
            case _ => g == f
  {
    hide Contents, Valid, RoutingOk, LiveOk, PlacesOk, WakeOk, Process, PollAsync, DropFuture, NewCompletion, Remove,
         Dedup.Scan, Insert;
    StorageReady(s);
    match step {
      case ProcessToWoken => ProcessKeepsFutures(s, false);
      case ProcessToQueue => ProcessKeepsFutures(s, true);
      case SpawnDirect =>
        AdmitOne(s.rt.futures);
        assert Admit(Insert(s.rt.futures, ()).0, 0).0 == Insert(s.rt.futures, ()).0;
      case _ =>
    }
  }

  lemma StepKeepsFreed(s: State, step: Step, freed: seq<nat>, used: set<nat>) returns (freed': seq<nat>)
    requires SystemOk(s) && Allowed(s, step) && FreedOk(s.rt.futures, freed, used)
    ensures HeadOk(s.io.completions) && HeadOk(s.io.buffers)
    ensures var t := Next(s, step);
            FreedOk(t.rt.futures, freed', if step.BeginTurn? then TaskIds(t) else used + TaskIds(t))
  {
    hide Contents, RoutingOk, LiveOk, PlacesOk, WakeOk, Next, Remove, Insert, FreeChain;
    StepKeepsOk(s, step);
    FuturesAfter(s, step);
    var t := Next(s, step);
    freed' := freed;
    match step {
      case BeginTurn =>
        freed' := [];
        var chain :| FreeChain(t.rt.futures, chain);
        assert freed' <= chain;
      case SpawnDirect =>
        FreedAfterInsert(s.rt.futures, freed, used);
        SpawnedIds(s.rt.futures);
        freed' := if freed == [] then [] else freed[1..];
        assert used + {Insert(s.rt.futures, ()).1} == used + TaskIds(t);
      case FinishTask(done) =>
        if done { freed' := RemoveKeepsFreed(s, freed, used); }
        assert used + TaskIds(t) == used;
      case TaskPanics =>
        freed' := RemoveKeepsFreed(s, freed, used);
        assert used + TaskIds(t) == used;
      case _ => assert used + TaskIds(t) == used;
    }
  }

  lemma RemoveKeepsFreed(s: State, freed: seq<nat>, used: set<nat>) returns (freed': seq<nat>)
    requires SystemOk(s) && s.rt.phase.Running? && FreedOk(s.rt.futures, freed, used)
    ensures FreedOk(Remove(s.rt.futures, s.rt.phase.task).0, freed', used)
  {
    hide Contents, Valid, RoutingOk, LiveOk, PlacesOk, WakeOk, Remove, FreedOk;
    freed' := [s.rt.phase.task] + freed;
    FreedAfterRemove(s.rt.futures, freed, used, s.rt.phase.task);
  }

  lemma SpawnedIds(f: Slots<()>)
    requires Valid(f) && |f.entries| + SLABSIZE <= SENTINEL
    ensures HeadOk(f) && Contents(Insert(f, ()).0).Keys == Contents(f).Keys + {Insert(f, ()).1}
  {
    hide Contents, Valid, Insert;
    AdmitOne(f);
  }

  lemma {:induction false} RunKeepsFreed(states: seq<State>, steps: seq<Step>, k: nat) returns (freed: seq<nat>)
    requires Run(states, steps) && k <= |steps|
    ensures FreedOk(states[k].rt.futures, freed, UsedSince(states, steps, k))
  {
    hide SystemOk, Next, Allowed, FreedOk;
    if k == 0 {
      freed := [];
      EmptyFreed();
    } else {
      freed := RunKeepsFreed(states, steps, k - 1);
      RunKeepsOk(states, steps, k - 1);
      assert StepOk(states[k - 1], steps[k - 1], states[k]);
      freed := StepKeepsFreed(states[k - 1], steps[k - 1], freed, UsedSince(states, steps, k - 1));
    }
  }

  lemma EmptyFreed()
    ensures FreedOk(Empty(), [], Contents(Empty<()>()).Keys)
  {
    assert FreeChain(Empty<()>(), []);
  }

  /**
   The guarantee made exact: in every run `spawn_dyn` gives out an id that some task has had since the
   last turn began if and only if there is such an id that is free again. It is queued at once.
   */
  lemma SpawnReusesIff(states: seq<State>, steps: seq<Step>, k: nat)
    requires Run(states, steps) && k < |steps| && steps[k] == SpawnDirect
    ensures HeadOk(states[k].rt.futures)
    ensures var id := Insert(states[k].rt.futures, ()).1;
            && states[k + 1].rt.runqueue == states[k].rt.runqueue + [id]
            && (id in UsedSince(states, steps, k) <==>
                exists other :: other in UsedSince(states, steps, k) && other !in TaskIds(states[k]))
  {
    RunKeepsOk(states, steps, k);
    hide SystemOk, Contents, Insert, Valid;
    assert StepOk(states[k], steps[k], states[k + 1]);
    var freed := RunKeepsFreed(states, steps, k);
    FreedAfterInsert(states[k].rt.futures, freed, UsedSince(states, steps, k));
    SpawnQueues(states[k]);
    if freed != [] { assert freed[0] in freed; }
  }

  lemma SpawnQueues(s: State)
    requires SystemOk(s) && Allowed(s, SpawnDirect) && HeadOk(s.io.completions) && HeadOk(s.io.buffers)
    ensures HeadOk(s.rt.futures) && Next(s, SpawnDirect).rt.runqueue == s.rt.runqueue + [Insert(s.rt.futures, ()).1]
  {
    hide Contents, Insert, Valid, RoutingOk, LiveOk, PlacesOk, WakeOk;
    AdmitOne(s.rt.futures);
    var (t, id) := Insert(s.rt.futures, ());
    assert Admit(t, 0) == (t, []);
    assert [id] + [] == [id];
  }
}
