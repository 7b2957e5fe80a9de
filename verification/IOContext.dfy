/**
 `IOContext` and `Runtime` in their own form: objects whose methods update their fields, the loops of
 `process_cqes` and `turn` included. Each method is proved against the function that the transition
 system takes its step with. The slotmaps are kept as values here; StableSlotmap.dfy is their heap form.
 */
module ExecutorObjects {
  import opened Wrappers
  import opened SlotSpec
  import opened Executor
  import opened ExecutorMaps
  import Dedup

  /** `process_cqes` on a list of events: the context afterwards and the tasks handed to the callback. */
  function ProcessAll(io: Io, es: seq<Cqe>): (Io, seq<nat>) {
    if es == [] then (io, [])
    else
      var (t, woken) := ProcessAll(io, es[..|es| - 1]);
      var (u, wake) := ProcessOne(t, es[|es| - 1]);
      (u, if wake.None? then woken else woken + [wake.value])
  }

  class IOContext {
    var completions: Slots<CompletionEvent>
    var buffers: Slots<Buffer>
    var woken: seq<nat>
    var created: nat
    var queued: nat

    ghost function View(): Io
      reads this
    {
      Io(completions, buffers, woken, created, queued)
    }

    constructor ()
      ensures View() == Io(Empty(), Empty(), [], 0, 0)
    {
      completions, buffers := Empty(), Empty();
      woken, created, queued := [], 0, 0;
    }

    /** A fresh completion without a CQE and without a poller; no other completion changes. */
    method FromCtx() returns (cqid: nat)
      requires IoOk(View()) && HasRoom(completions, 0)
      modifies this
      ensures IoOk(View()) && SameRest(old(View()), View()) && buffers == old(buffers)
      ensures cqid !in C(old(View())) && C(View()) == C(old(View()))[cqid := CompletionEvent(None, NO_TASK, NoAction)]
      ensures HeadOk(old(View()).completions) && (View(), cqid) == NewCompletion(old(View()))
    {
      NewCompletionMap(View());
      var (t, id) := Insert(completions, CompletionEvent(None, NO_TASK, NoAction));
      completions, cqid := t, id;
    }

    /** The loop over the available CQEs; `wake` are the tasks passed to the queueing callback. */
    method ProcessCqes(available: seq<Cqe>) returns (wake: seq<nat>)
      modifies this
      ensures (View(), wake) == ProcessAll(old(View()), available)
    {
      wake := [];
      for i := 0 to |available|
        invariant (View(), wake) == ProcessAll(old(View()), available[..i])
      {
        assert available[..i + 1][..i] == available[..i];
        var e := available[i];
        var cqid := e.userData;
        if Occupied(completions, cqid) {
          var ce := completions.entries[cqid].value;
          if ce.task == NO_TASK {
            completions := Put(completions, cqid, ce.(cqe := Some(e)));
          } else if ce.task == DEAD_TASK {
            completions := Remove(completions, cqid).0;
            match ce.action {
              case NoAction =>
              case DeleteBufferOnError(bufid) =>
                if e.res < 0 {
                  buffers := Remove(buffers, bufid).0;
                }
            }
          } else {
            completions := Put(completions, cqid, ce.(cqe := Some(e)));
            wake := wake + [ce.task];
          }
        }
      }
      assert available[..|available|] == available;
    }

    /** The inner part of `submit`'s busy loop. */
    method ProcessToWoken(available: seq<Cqe>)
      modifies this
      ensures var (io, wake) := ProcessAll(old(View()), available);
              View() == io.(woken := io.woken + wake)
    {
      var wake := ProcessCqes(available);
      woken := woken + wake;
    }

    /**
     `CompletionFuture::poll`: None is the panic, which an unknown id alone provokes; otherwise the CQE
     that the completion holds, if any, and from now on `task` is the one to wake.
     */
    method Poll(cqid: nat, task: nat) returns (r: Option<Option<Cqe>>)
      requires IoOk(View())
      modifies this
      ensures IoOk(View()) && SameRest(old(View()), View()) && buffers == old(buffers)
      ensures r == if cqid in C(old(View())) then Some(C(old(View()))[cqid].cqe) else None
      ensures C(View()) == if cqid in C(old(View()))
                           then C(old(View()))[cqid := C(old(View()))[cqid].(task := task)] else C(old(View()))
      ensures var p := PollFuture(old(View()), cqid, task);
              && r == (if p.None? then None else Some(p.value.1))
              && View() == (if p.None? then old(View()) else p.value.0)
    {
      ValidFacts(completions);
      if !Occupied(completions, cqid) {
        return None;
      }
      var ce := completions.entries[cqid].value;
      PutMap(View(), cqid, ce.(task := task));
      completions := Put(completions, cqid, ce.(task := task));
      r := Some(ce.cqe);
    }

    /**
     `CompletionFuture::drop` of a future that need not be waited for; false is the panic. A completion
     with its CQE is freed; one without stays occupied and is marked dead.
     */
    method DropCompletion(cqid: nat) returns (ok: bool)
      requires IoOk(View())
      modifies this
      ensures IoOk(View()) && SameRest(old(View()), View()) && buffers == old(buffers)
      ensures ok <==> cqid in C(old(View()))
      ensures C(View()) == if !ok then C(old(View()))
                           else if C(old(View()))[cqid].cqe.Some? then C(old(View())) - {cqid}
                           else C(old(View()))[cqid := C(old(View()))[cqid].(task := DEAD_TASK)]
      ensures var d := DropFuture(old(View()), cqid);
              ok == d.Some? && View() == (if ok then d.value else old(View()))
    {
      ValidFacts(completions);
      ok := Occupied(completions, cqid);
      if ok {
        DropFutureMap(View(), cqid);
        var ce := completions.entries[cqid].value;
        if ce.cqe.Some? {
          completions := Remove(completions, cqid).0;
        } else {
          completions := Put(completions, cqid, ce.(task := DEAD_TASK));
        }
      }
    }

    /** Takes the buffer out, with its memory as it is and its length set; None, and no change, if there is none. */
    method RemoveBuffer(bufid: nat, len: nat) returns (buffer: Option<Buffer>)
      requires IoOk(View())
      modifies this
      ensures IoOk(View()) && SameRest(old(View()), View()) && completions == old(completions)
      ensures buffer == if bufid in B(old(View())) then Some(Buffer(B(old(View()))[bufid].data, len)) else None
      ensures B(View()) == B(old(View())) - {bufid}
      ensures var t := TakeBuffer(old(View()), bufid, len);
              && buffer == (if t.None? then None else Some(t.value.1))
              && View() == (if t.None? then old(View()) else t.value.0)
    {
      RemoveBufferMap(View(), bufid);
      RemoveAsMap(buffers, bufid);
      var (rest, removed) := Remove(buffers, bufid);
      if removed.None? {
        return None;
      }
      buffers := rest;
      buffer := Some(removed.value.(len := len));
    }
  }

  class Scheduler {
    const ctx: IOContext
    var futures: Slots<()>
    var runqueue: seq<nat>
    ghost var phase: Phase

    ghost function View(): Runtime
      reads this
    {
      Runtime(futures, runqueue, phase)
    }

    constructor (ctx: IOContext)
      ensures this.ctx == ctx && View() == Runtime(Empty(), [], Outside)
    {
      this.ctx := ctx;
      futures, runqueue, phase := Empty(), [], Outside;
    }

    /** Gives `n` new futures a slot and a place in the queue. */
    method Spawn(n: nat)
      modifies this
      ensures View() == SpawnOn(old(View()), n)
    {
      var i := 0;
      while i < n && HeadOk(futures)
        invariant 0 <= i <= n && phase == old(phase)
        invariant var (all, ids) := Admit(old(futures), n);
                  var (rest, more) := Admit(futures, n - i);
                  all == rest && old(runqueue) + ids == runqueue + more
        decreases n - i
      {
        var (t, id) := Insert(futures, ());
        ghost var more := Admit(t, n - i - 1).1;
        assert runqueue + ([id] + more) == (runqueue + [id]) + more;
        futures, runqueue, i := t, runqueue + [id], i + 1;
      }
    }

    /**
     `turn` up to the submission; None: no submission, Some(n): submit and wait for n CQEs. `hasNext` and
     `hasNextAgain` are what its two reads of the completion queue find.
     */
    method StartTurn(hasNext: bool, hasNextAgain: bool) returns (submit: Option<nat>)
      modifies this, ctx
      ensures var (io, rt) := TurnStart(old(ctx.View()), old(View()), hasNext);
              ctx.View() == io && View() == (if rt.phase.Entering? then WaitFor(rt, hasNextAgain) else rt)
      ensures submit == match phase case Submitting(n) => Some(n) case _ => None
      ensures submit.None? <==> old(ctx.queued) == 0 && (runqueue != [] || hasNext)
      ensures submit == Some(0) <==>
              if runqueue != [] then old(ctx.queued) != 0 else hasNextAgain && (old(ctx.queued) != 0 || !hasNext)
      ensures submit == Some(1) <==> runqueue == [] && !hasNextAgain && (old(ctx.queued) != 0 || !hasNext)
      ensures ctx.woken == [] && ctx.created == 0 && ctx.queued == if submit.None? then 0 else old(ctx.queued)
    {
      Spawn(ctx.created);
      ctx.created := 0;
      runqueue := runqueue + ctx.woken;
      ctx.woken := [];
      if ctx.queued != 0 || (runqueue == [] && !hasNext) {
        var waitFor := if hasNextAgain || runqueue != [] then 0 else 1;
        submit := Some(waitFor);
        phase := Submitting(waitFor);
      } else {
        submit := None;
        ctx.queued := 0;
        phase := Processing;
      }
    }

    method ProcessCqes(available: seq<Cqe>)
      modifies this, ctx
      ensures var (io, wake) := ProcessAll(old(ctx.View()), available);
              ctx.View() == io && View() == old(View()).(runqueue := old(runqueue) + wake)
    {
      var wake := ctx.ProcessCqes(available);
      runqueue := runqueue + wake;
    }

    method Deduplicate(h1: nat -> nat, h2: nat -> nat)
      modifies this
      ensures View() == old(View()).(runqueue := Dedup.Scan(Dedup.Start(old(runqueue)), h1, h2).data, phase := Polling)
    {
      var v := new Dedup.Vec(runqueue);
      v.DedupPartial(h1, h2);
      runqueue := v.items;
      phase := Polling;
    }

    /** The head of the polling loop: the next id and whether its future still exists. */
    method Dispatch() returns (id: nat, found: bool)
      requires runqueue != []
      modifies this
      ensures old(runqueue) == [id] + runqueue && futures == old(futures)
      ensures found <==> id in Contents(futures)
      ensures id == old(runqueue)[0] && View() == NextTask(old(View()))
      ensures found <==> phase == Running(id)
    {
      id := runqueue[0];
      runqueue := runqueue[1..];
      found := Occupied(futures, id);
      phase := if found then Running(id) else Polling;
    }

    /** The tail of the polling loop, for a task that did not panic: only a finished task gives up its id. */
    method TaskReturned(id: nat, done: bool)
      requires phase == Running(id) && Valid(futures)
      modifies this
      ensures Valid(futures) && runqueue == old(runqueue) && phase == Polling
      ensures Contents(futures) == if done then Contents(old(futures)) - {id} else Contents(old(futures))
      ensures View() == TaskDone(old(View()), done)
    {
      if done {
        RemoveAsMap(futures, id);
        futures := Remove(futures, id).0;
      }
      phase := Polling;
    }

    /** The tail of the polling loop for a task that panicked, as unwinding leaves the scheduler. */
    method TaskPanicked(id: nat)
      requires phase == Running(id) && Valid(futures)
      modifies this
      ensures Valid(futures) && Contents(futures) == Contents(old(futures)) - {id}
      ensures View() == Runtime(Remove(old(futures), id).0, [], Outside)
    {
      RemoveAsMap(futures, id);
      futures := Remove(futures, id).0;
      runqueue := [];
      phase := Outside;
    }
  }

  /** `n` processing steps of the transition system in a row. */
  ghost function ProcessMany(s: State, n: nat, toQueue: bool): State
    requires n <= |s.ring.cq|
    ensures ProcessMany(s, n, toQueue).ring.cq == s.ring.cq[n..]
  {
    if n == 0 then s else Process(ProcessMany(s, n - 1, toQueue), toQueue)
  }

  lemma ProcessIgnoresWoken(io: Io, e: Cqe, woken: seq<nat>)
    ensures ProcessOne(io.(woken := woken), e) == (ProcessOne(io, e).0.(woken := woken), ProcessOne(io, e).1)
    ensures ProcessOne(io, e).0.woken == io.woken
  {
  }

  /** The loop of `process_cqes` is a row of processing steps, whichever queue its caller fills. */
  lemma {:induction false} LoopIsSteps(s: State, n: nat, toQueue: bool)
    requires n <= |s.ring.cq|
    ensures var t, (io, wake) := ProcessMany(s, n, toQueue), ProcessAll(s.io, s.ring.cq[..n]);
            && io.woken == s.io.woken
            && t.io == (if toQueue then io else io.(woken := s.io.woken + wake))
            && t.rt == (if toQueue then s.rt.(runqueue := s.rt.runqueue + wake) else s.rt)
  {
    hide ProcessOne;
    if n > 0 {
      LoopIsSteps(s, n - 1, toQueue);
      assert s.ring.cq[..n][..n - 1] == s.ring.cq[..n - 1];
      var (io, wake) := ProcessAll(s.io, s.ring.cq[..n - 1]);
      ProcessIgnoresWoken(io, s.ring.cq[n - 1], s.io.woken + wake);
    }
  }
}
