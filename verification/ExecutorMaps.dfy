/** The operations of the I/O context as they act on the two maps that the slotmaps stand for. */
module ExecutorMaps {
  import opened Wrappers
  import opened SlotSpec
  import opened Executor

  ghost predicate IoOk(io: Io) {
    Valid(io.completions) && Valid(io.buffers)
  }

  ghost function C(io: Io): map<nat, CompletionEvent> {
    Contents(io.completions)
  }

  ghost function B(io: Io): map<nat, Buffer> {
    Contents(io.buffers)
  }

  /** Everything but the two slotmaps stays. */
  predicate SameRest(io: Io, t: Io) {
    t.woken == io.woken && t.created == io.created && t.queued == io.queued
  }

  lemma NewCompletionMap(io: Io)
    requires IoOk(io) && HasRoom(io.completions, 0)
    ensures HeadOk(io.completions)
    ensures var (t, c) := NewCompletion(io);
            && IoOk(t) && SameRest(io, t) && t.buffers == io.buffers
            && c !in C(io) && C(t) == C(io)[c := CompletionEvent(None, NO_TASK, NoAction)]
  {
    hide Insert, Valid, Contents;
    InsertAsMap(io.completions, CompletionEvent(None, NO_TASK, NoAction));
  }

  lemma PutMap(io: Io, c: nat, ce: CompletionEvent)
    requires IoOk(io) && c in C(io)
    ensures Occupied(io.completions, c)
    ensures var t := io.(completions := Put(io.completions, c, ce));
            IoOk(t) && C(t) == C(io)[c := ce] && B(t) == B(io)
  {
    hide Valid, Contents;
    ValidFacts(io.completions);
    PutAsMap(io.completions, c, ce);
  }

  lemma RemoveMap(io: Io, c: nat)
    requires IoOk(io)
    ensures var t := io.(completions := Remove(io.completions, c).0);
            IoOk(t) && C(t) == C(io) - {c} && B(t) == B(io)
  {
    hide Remove, Valid, Contents;
    RemoveAsMap(io.completions, c);
  }

  lemma RemoveBufferMap(io: Io, b: nat)
    requires IoOk(io)
    ensures var t := io.(buffers := Remove(io.buffers, b).0);
            && IoOk(t) && B(t) == B(io) - {b} && C(t) == C(io) && |t.buffers.entries| == |io.buffers.entries|
  {
    hide Remove, Valid, Contents;
    RemoveAsMap(io.buffers, b);
  }

  /** `process_cqes` on one event, told in terms of the maps. */
  lemma ProcessOneMap(io: Io, e: Cqe)
    requires IoOk(io) && e.userData in C(io)
    ensures Occupied(io.completions, e.userData) && io.completions.entries[e.userData].value == C(io)[e.userData]
    ensures var (t, wake) := ProcessOne(io, e);
            var ce := C(io)[e.userData];
            && IoOk(t) && SameRest(io, t) && |t.buffers.entries| == |io.buffers.entries|
            && C(t) == (if ce.task == DEAD_TASK then C(io) - {e.userData} else C(io)[e.userData := ce.(cqe := Some(e))])
            && B(t) == (if ce.task == DEAD_TASK && ce.action.DeleteBufferOnError? && e.res < 0
                        then B(io) - {ce.action.bufid} else B(io))
            && wake == (if ce.task == NO_TASK || ce.task == DEAD_TASK then None else Some(ce.task))
  {
    ValidFacts(io.completions);
    var ce := C(io)[e.userData];
    if ce.task == DEAD_TASK {
      RemoveMap(io, e.userData);
      if ce.action.DeleteBufferOnError? {
        RemoveBufferMap(io.(completions := Remove(io.completions, e.userData).0), ce.action.bufid);
      }
    } else {
      PutMap(io, e.userData, ce.(cqe := Some(e)));
    }
  }

  lemma TakeBufferMap(io: Io, b: nat, len: nat)
    requires IoOk(io) && b in B(io)
    ensures var r := TakeBuffer(io, b, len);
            && r.Some? && IoOk(r.value.0) && SameRest(io, r.value.0) && C(r.value.0) == C(io)
            && |r.value.0.buffers.entries| == |io.buffers.entries|
            && B(r.value.0) == B(io) - {b} && r.value.1 == B(io)[b].(len := len)
  {
    hide Remove, Valid, Contents;
    RemoveAsMap(io.buffers, b);
  }

  /** The event is concluded without a panic, and this is what the caller gets. */
  ghost predicate Delivers(io: Io, op: Op, e: Cqe) {
    match op
    case Plain => true
    case Read => e.res >= 0 ==> e.bufId.Some? && e.bufId.value in B(io)
    case Provide(b, original) => e.res < 0 ==> b in B(io)
  }

  ghost function Delivered(io: Io, op: Op, e: Cqe): Outcome
    requires Delivers(io, op, e)
  {
    match op
    case Plain => GotEvent(e)
    case Read => if e.res < 0 then ReadFailed(e) else GotBuffer(e, B(io)[e.bufId.value].(len := e.res))
    case Provide(b, original) => if e.res >= 0 then Provided(e) else GaveBack(e, B(io)[b].(len := original.len))
  }

  lemma ConcludeMap(io: Io, op: Op, e: Cqe)
    requires IoOk(io) && Delivers(io, op, e)
    ensures var (t, out) := Conclude(io, op, e);
            && IoOk(t) && SameRest(io, t) && C(t) == C(io) && |t.buffers.entries| == |io.buffers.entries|
            && B(t) == (match op
                        case Plain => B(io)
                        case Read => if e.res >= 0 then B(io) - {e.bufId.value} else B(io)
                        case Provide(b, _) => if e.res < 0 then B(io) - {b} else B(io))
            && out == Delivered(io, op, e)
  {
    hide TakeBuffer, IoOk, C, B;
    match op {
      case Plain =>
      case Read =>
        if e.res >= 0 {
          TakeBufferMap(io, e.bufId.value, e.res);
        }
      case Provide(b, original) =>
        if e.res < 0 {
          TakeBufferMap(io, b, original.len);
        }
    }
  }

  lemma DropFutureMap(io: Io, c: nat)
    requires IoOk(io) && c in C(io)
    ensures Occupied(io.completions, c) && io.completions.entries[c].value == C(io)[c]
    ensures var r := DropFuture(io, c);
            && r.Some? && IoOk(r.value) && SameRest(io, r.value) && r.value.buffers == io.buffers
            && C(r.value) == if C(io)[c].cqe.Some? then C(io) - {c} else C(io)[c := C(io)[c].(task := DEAD_TASK)]
  {
    ValidFacts(io.completions);
    if C(io)[c].cqe.Some? {
      RemoveMap(io, c);
    } else {
      PutMap(io, c, C(io)[c].(task := DEAD_TASK));
    }
  }

  /** A poll before the CQE only records the task. */
  lemma PollPendingMap(io: Io, f: Future, task: nat)
    requires IoOk(io) && f.cqid in C(io) && C(io)[f.cqid].cqe.None?
    ensures var (t, out) := PollAsync(io, f, task);
            && out == Pending && IoOk(t) && SameRest(io, t) && t.buffers == io.buffers
            && C(t) == C(io)[f.cqid := C(io)[f.cqid].(task := task)]
  {
    ValidFacts(io.completions);
    PutMap(io, f.cqid, C(io)[f.cqid].(task := task));
  }

  /** A poll after the CQE frees the completion and concludes the call. */
  lemma PollReadyMap(io: Io, f: Future, task: nat)
    requires IoOk(io) && f.cqid in C(io) && C(io)[f.cqid].cqe.Some?
    requires Delivers(io, f.op, C(io)[f.cqid].cqe.value)
    ensures var (t, out) := PollAsync(io, f, task);
            var e := C(io)[f.cqid].cqe.value;
            && IoOk(t) && SameRest(io, t) && C(t) == C(io) - {f.cqid} && |t.buffers.entries| == |io.buffers.entries|
            && B(t) == (match f.op
                        case Plain => B(io)
                        case Read => if e.res >= 0 then B(io) - {e.bufId.value} else B(io)
                        case Provide(b, _) => if e.res < 0 then B(io) - {b} else B(io))
            && out == Delivered(io, f.op, e) && !out.Panicked? && !out.Pending?
  {
    ValidFacts(io.completions);
    var ce := C(io)[f.cqid].(task := task);
    PutMap(io, f.cqid, ce);
    var polled := io.(completions := Put(io.completions, f.cqid, ce));
    assert PollFuture(io, f.cqid, task) == Some((polled, ce.cqe));
    DropFutureMap(polled, f.cqid);
    var dropped := DropFuture(polled, f.cqid).value;
    assert C(dropped) == C(io) - {f.cqid};
    ConcludeMap(dropped, f.op, ce.cqe.value);
  }
}
