/**
 The executor as a transition system: `IOContext`, `LinkedSubmitter` and `IOHandle` of `handle.rs`,
 `CompletionFuture` of `future.rs`, the scheduler loop of `runtime.rs`, and an abstract kernel.
 */
module Executor {
  import opened Wrappers
  import opened SlotSpec
  import opened FixedVecs
  import Dedup

  const NO_TASK: nat := SENTINEL
  const DEAD_TASK: nat := SENTINEL - 1
  const U16_MAX: nat := 65535

  /** A pooled buffer: its memory and how much of it counts. */
  datatype Buffer = Buffer(data: seq<byte>, len: nat)

  /** What an async call asked for; a provided buffer is remembered with its original contents. */
  datatype Op = Plain | Read | Provide(bufid: nat, original: Buffer)

  /** History: every request has a serial number of its own. */
  datatype Request = Request(serial: nat, op: Op)

  /** An SQE on its way: `userData` and the 16-bit buffer id are what the kernel sees. */
  datatype Token = Token(userData: nat, bid: nat, req: Request)

  /** A CQE; `req` and `payload` record which request caused it and what the kernel wrote. */
  datatype Cqe = Cqe(userData: nat, res: int, bufId: Option<nat>, req: Request, payload: seq<byte>)

  datatype CleanupAction = NoAction | DeleteBufferOnError(bufid: nat)

  datatype CompletionEvent = CompletionEvent(cqe: Option<Cqe>, task: nat, action: CleanupAction)

  // ------------------------------------------------------------------ IOContext

  datatype Io = Io(completions: Slots<CompletionEvent>, buffers: Slots<Buffer>, woken: seq<nat>, created: nat,
                   queued: nat)

  /** `CompletionFuture::from_ctx`. */
  function NewCompletion(io: Io): (Io, nat)
    requires HeadOk(io.completions)
  {
    var (t, cqid) := Insert(io.completions, CompletionEvent(None, NO_TASK, NoAction));
    (io.(completions := t), cqid)
  }

  /** One round of the loop in `process_cqes`, and the task to hand to the queueing function. */
  function ProcessOne(io: Io, e: Cqe): (Io, Option<nat>) {
    if !Occupied(io.completions, e.userData) then (io, None)
    else
      var ce := io.completions.entries[e.userData].value;
      if ce.task == NO_TASK then (io.(completions := Put(io.completions, e.userData, ce.(cqe := Some(e)))), None)
      else if ce.task == DEAD_TASK then
        var gone := io.(completions := Remove(io.completions, e.userData).0);
        if ce.action.DeleteBufferOnError? && e.res < 0 then
          (gone.(buffers := Remove(io.buffers, ce.action.bufid).0), None)
        else
          (gone, None)
      else
        (io.(completions := Put(io.completions, e.userData, ce.(cqe := Some(e)))), Some(ce.task))
  }

  /** `CompletionFuture::poll`; None is the panic on an invalid cqid. */
  function PollFuture(io: Io, cqid: nat, task: nat): Option<(Io, Option<Cqe>)> {
    if !Occupied(io.completions, cqid) then None
    else
      var ce := io.completions.entries[cqid].value;
      Some((io.(completions := Put(io.completions, cqid, ce.(task := task))), ce.cqe))
  }

  /** `CompletionFuture::drop` of a future that need not be waited for; None is the panic. */
  function DropFuture(io: Io, cqid: nat): Option<Io> {
    if !Occupied(io.completions, cqid) then None
    else
      var ce := io.completions.entries[cqid].value;
      if ce.cqe.Some? then Some(io.(completions := Remove(io.completions, cqid).0))
      else Some(io.(completions := Put(io.completions, cqid, ce.(task := DEAD_TASK))))
  }

  /** `buffers.remove(bufid)` followed by `set_len`; None is the panic. */
  function TakeBuffer(io: Io, bufid: nat, len: nat): Option<(Io, Buffer)> {
    var (t, b) := Remove(io.buffers, bufid);
    if b.None? then None else Some((io.(buffers := t), b.value.(len := len)))
  }

  /** A future handed out to user code: its completion and what its async block does with the result. */
  datatype Future = Future(cqid: nat, mustWait: bool, op: Op)

  datatype Outcome =
    | Pending
    | GotEvent(e: Cqe)
    | ReadFailed(e: Cqe)
    | GotBuffer(e: Cqe, buffer: Buffer)
    | Provided(e: Cqe)
    | GaveBack(e: Cqe, buffer: Buffer)
    | Panicked

  /** What the async blocks of `read` and `provide_buffer` do once their event is there. */
  function Conclude(io: Io, op: Op, e: Cqe): (Io, Outcome) {
    match op
    case Plain => (io, GotEvent(e))
    case Read =>
      if e.res < 0 then (io, ReadFailed(e))
      else if e.bufId.None? then (io, Panicked)
      else
        var taken := TakeBuffer(io, e.bufId.value, e.res);
        if taken.None? then (io, Panicked) else (taken.value.0, GotBuffer(e, taken.value.1))
    case Provide(bufid, original) =>
      if e.res >= 0 then (io, Provided(e))
      else
        var taken := TakeBuffer(io, bufid, original.len);
        if taken.None? then (io, Panicked) else (taken.value.0, GaveBack(e, taken.value.1))
  }

  /** Polling an async call; its completion future is dropped as soon as it is ready. */
  function PollAsync(io: Io, f: Future, task: nat): (Io, Outcome) {
    match PollFuture(io, f.cqid, task)
    case None => (io, Panicked)
    case Some((polled, None)) => (polled, Pending)
    case Some((polled, Some(e))) =>
      match DropFuture(polled, f.cqid)
      case None => (polled, Panicked)
      case Some(dropped) => Conclude(dropped, f.op, e)
  }

  // ------------------------------------------------------------------ the whole system

  /**
   `turn` from its first line to its last. `Entering`: it has decided to submit, but not yet whether to
   wait; `wait` is the number of CQEs asked of the kernel.
   */
  datatype Phase = Outside | Entering | Submitting(wait: nat) | Processing | Polling | Running(task: nat)

  datatype Runtime = Runtime(futures: Slots<()>, runqueue: seq<nat>, phase: Phase)

  /**
   Where requests are between their creation and the processing of their CQE: being prepared, filled
   into the current batch, published, taken by the kernel, completed; or in a batch that was dropped
   without being submitted. `pool` is the kernel's provided buffers, `unsubmitted` the published SQEs
   the kernel has not been told of.
   */
  datatype Ring = Ring(prep: seq<Token>, batch: seq<Token>, sq: seq<Token>, abandoned: seq<Token>, flight: seq<Token>,
                       cq: seq<Cqe>, pool: set<nat>, unsubmitted: nat)

  datatype Place = Held(cqid: nat) | InPool | Leaked

  /**
   History. `owner` tells the request behind each completion slot, `live` the futures that exist,
   `lastPoll` the task whose pending poll of a completion was the last one, `owed` the completions whose
   CQE came after a pending poll and whose poller has not been dispatched since, `forgotten` the tasks
   thrown out of the run queue by a panic and not dispatched since, `place` where each occupied buffer
   slot belongs.
   */
  datatype History = History(serial: nat, owner: map<nat, Request>, live: map<nat, Future>, lastPoll: map<nat, nat>,
                             owed: set<nat>, forgotten: set<nat>, place: map<nat, Place>, panicked: bool)

  datatype State = State(io: Io, rt: Runtime, ring: Ring, hist: History)

  datatype Step =
    | NewPlain(mustWait: bool)
    | NewRead
    | NewProvide(buffer: Buffer)
    | FillSqe
    | SubmitBatch
    | AbandonBatch
    | Poll(f: nat)
    | DropLive(f: nat)
    | Spawn
    | SpawnDirect
    | KernelTake
    | KernelPost(i: nat, res: int, bufId: Option<nat>, payload: seq<byte>)
    | ProcessToWoken
    | Announce
    | BeginTurn
    | ChooseWait
    | SubmitFails
    | SubmitDone
    | ProcessToQueue
    | FinishProcessing(h1: nat -> nat, h2: nat -> nat)
    | Dispatch
    | FinishTask(done: bool)
    | TaskPanics
    | EndTurn

  ghost predicate Init(s: State) {
    && s.io == Io(Empty(), Empty(), [], 0, 0)
    && s.rt == Runtime(Empty(), [], Outside)
    && s.ring == Ring([], [], [], [], [], [], {}, 0)
    && s.hist == History(0, map[], map[], map[], {}, {}, map[], false)
  }

  /** User code runs inside a task or outside of `turn`. */
  predicate UserMayRun(s: State) {
    s.rt.phase.Outside? || s.rt.phase.Running?
  }

  predicate HasRoom<T>(s: Slots<T>, n: nat) {
    |s.entries| + (n + 1) * SLABSIZE <= SENTINEL
  }

  /** The places that call `IOContext::submit`: `turn`, and `submit_sqe` while it looks for a free SQE. */
  predicate InSubmit(s: State) {
    s.rt.phase.Submitting? || s.ring.prep != []
  }

  /** The kernel's side of the contract for completing the SQE `t`. */
  ghost predicate KernelMayPost(s: State, t: Token, res: int, bufId: Option<nat>, payload: seq<byte>) {
    match t.req.op
    case Plain => bufId.None? && payload == []
    case Provide(_, _) => bufId.None? && payload == []
    case Read =>
      && (res >= 0 ==> bufId.Some? && |payload| == res)
      && (res < 0 ==> payload == [])
      && (bufId.Some? ==> bufId.value in s.ring.pool && bufId.value in Contents(s.io.buffers)
                          && |payload| <= |Contents(s.io.buffers)[bufId.value].data|)
  }

  ghost predicate Allowed(s: State, step: Step) {
    match step
    case NewPlain(_) => UserMayRun(s) && s.ring.prep == [] && HasRoom(s.io.completions, 0)
    case NewRead => UserMayRun(s) && s.ring.prep == [] && HasRoom(s.io.completions, 0)
    case NewProvide(_) => UserMayRun(s) && s.ring.prep == [] && HasRoom(s.io.completions, 0)
    case FillSqe => s.ring.prep != []
    case SubmitBatch => UserMayRun(s) && s.ring.prep == []
    case AbandonBatch => UserMayRun(s) && s.ring.prep == []
    case Poll(f) => s.rt.phase.Running? && s.ring.prep == [] && f in s.hist.live
    case DropLive(f) =>
      && UserMayRun(s) && s.ring.prep == [] && f in s.hist.live
      && (s.hist.live[f].mustWait ==>
            var ce := Get(s.io.completions, s.hist.live[f].cqid); ce.Some? && ce.value.cqe.Some?)
    case Spawn => UserMayRun(s)
    case SpawnDirect => s.rt.phase.Outside? && HasRoom(s.rt.futures, 0)
    case KernelTake => s.ring.sq != []
    case KernelPost(i, res, bufId, payload) =>
      i < |s.ring.flight| && KernelMayPost(s, s.ring.flight[i], res, bufId, payload)
    case ProcessToWoken => s.ring.cq != [] && InSubmit(s)
    case Announce => InSubmit(s)
    case BeginTurn => s.rt.phase.Outside? && s.ring.prep == [] && HasRoom(s.rt.futures, s.io.created)
    case ChooseWait => s.rt.phase.Entering?
    case SubmitFails => s.rt.phase.Submitting?
    case SubmitDone => s.rt.phase.Submitting?
    case ProcessToQueue => s.rt.phase.Processing? && s.ring.cq != []
    case FinishProcessing(_, _) => s.rt.phase.Processing?
    case Dispatch => s.rt.phase.Polling? && s.rt.runqueue != []
    case FinishTask(_) => s.rt.phase.Running? && s.ring.prep == []
    case TaskPanics => s.rt.phase.Running? && s.ring.prep == []
    case EndTurn => s.rt.phase.Polling? && s.rt.runqueue == []
  }

  /** The buffer that a request holds while it is an SQE, and while it is a CQE. */
  function TokenHolds(t: Token): Option<nat> {
    match t.req.op
    case Provide(b, _) => Some(b)
    case _ => None
  }

  function CqeHolds(e: Cqe): Option<nat> {
    match e.req.op
    case Plain => None
    case Read => if e.res >= 0 then e.bufId else None
    case Provide(b, _) => if e.res < 0 then Some(b) else None
  }

  function Placed(place: map<nat, Place>, b: Option<nat>, p: Place): map<nat, Place> {
    if b.None? then place else place[b.value := p]
  }

  function Unplaced(place: map<nat, Place>, b: Option<nat>): map<nat, Place> {
    if b.None? then place else place - {b.value}
  }

  ghost function Forget(h: History, cqid: nat): History {
    h.(owner := h.owner - {cqid}, lastPoll := h.lastPoll - {cqid}, owed := h.owed - {cqid})
  }

  /** `submit_sqe` up to the point where it looks for a free SQE. */
  ghost function Create(s: State, op: Op, mustWait: bool): State
    requires HeadOk(s.io.completions)
  {
    var (io, cqid) := NewCompletion(s.io);
    var req := Request(s.hist.serial, op);
    var bid := if op.Provide? then op.bufid % (U16_MAX + 1) else 0;
    s.(io := io,
       ring := s.ring.(prep := [Token(cqid, bid, req)]),
       hist := s.hist.(serial := s.hist.serial + 1, owner := s.hist.owner[cqid := req],
                       live := s.hist.live[s.hist.serial := Future(cqid, mustWait, op)],
                       place := if op.Provide? then s.hist.place[op.bufid := Held(cqid)] else s.hist.place))
  }

  /** `provide_buffer`: with too many buffers around it gives the buffer back and does nothing. */
  ghost function CreateProvide(s: State, buffer: Buffer): State
    requires HeadOk(s.io.completions) && HeadOk(s.io.buffers)
  {
    if s.io.buffers.size >= U16_MAX then s
    else
      var (t, bufid) := Insert(s.io.buffers, buffer.(len := 0));
      Create(s.(io := s.io.(buffers := t)), Provide(bufid, buffer), false)
  }

  /** The SQE is filled; afterwards `provide_buffer` sets the cleanup action. */
  ghost function Fill(s: State): State
    requires s.ring.prep != []
  {
    var t := s.ring.prep[0];
    var ring := s.ring.(prep := s.ring.prep[1..], batch := s.ring.batch + [t]);
    if t.req.op.Provide? then
      if !Occupied(s.io.completions, t.userData) then s.(ring := ring, hist := s.hist.(panicked := true))
      else
        var ce := s.io.completions.entries[t.userData].value;
        var cleaned := ce.(action := DeleteBufferOnError(t.req.op.bufid));
        s.(io := s.io.(completions := Put(s.io.completions, t.userData, cleaned)), ring := ring)
    else s.(ring := ring)
  }

  ghost function PollLive(s: State, f: nat): State
    requires f in s.hist.live && s.rt.phase.Running?
  {
    var fut := s.hist.live[f];
    var (io, out) := PollAsync(s.io, fut, s.rt.phase.task);
    match out
    case Panicked => s.(io := io, hist := s.hist.(panicked := true))
    case Pending =>
      s.(io := io, hist := s.hist.(lastPoll := s.hist.lastPoll[fut.cqid := s.rt.phase.task],
                                   owed := s.hist.owed - {fut.cqid}))
    case _ =>
      s.(io := io, hist := Forget(s.hist, fut.cqid).(live := s.hist.live - {f},
                                                     place := Unplaced(s.hist.place, CqeHolds(out.e))))
  }

  ghost function DropOne(s: State, f: nat): State
    requires f in s.hist.live
  {
    var cqid := s.hist.live[f].cqid;
    var live := s.hist.live - {f};
    match DropFuture(s.io, cqid)
    case None => s.(hist := s.hist.(panicked := true))
    case Some(io) =>
      var ce := s.io.completions.entries[cqid].value;
      if ce.cqe.Some? then
        var place := Placed(s.hist.place, CqeHolds(ce.cqe.value), Leaked);
        s.(io := io, hist := Forget(s.hist, cqid).(live := live, place := place))
      else
        s.(io := io, hist := s.hist.(live := live, lastPoll := s.hist.lastPoll - {cqid}, owed := s.hist.owed - {cqid}))
  }

  /** The kernel completes `t`: a successful provide enters the pool, a read takes a buffer from it. */
  ghost function Post(s: State, i: nat, res: int, bufId: Option<nat>, payload: seq<byte>): State
    requires i < |s.ring.flight| && KernelMayPost(s, s.ring.flight[i], res, bufId, payload)
  {
    var t := s.ring.flight[i];
    var e := Cqe(t.userData, res, bufId, t.req, payload);
    var ring := s.ring.(flight := s.ring.flight[..i] + s.ring.flight[i + 1..], cq := s.ring.cq + [e]);
    match t.req.op
    case Plain => s.(ring := ring)
    case Provide(b, _) =>
      if res < 0 then s.(ring := ring)
      else s.(ring := ring.(pool := ring.pool + {t.bid}), hist := s.hist.(place := s.hist.place[b := InPool]))
    case Read =>
      if bufId.None? then s.(ring := ring)
      else
        var b := bufId.value;
        var before := s.io.buffers.entries[b].value;
        var written := Buffer(payload + before.data[|payload|..], before.len);
        s.(io := s.io.(buffers := Put(s.io.buffers, b, written)),
           ring := ring.(pool := ring.pool - {b}),
           hist := s.hist.(place := s.hist.place[b := if res >= 0 then Held(t.userData) else Leaked]))
  }

  /** Processing the oldest CQE: a task to wake goes to the end of `woken` or of `runqueue`. */
  ghost function Process(s: State, toQueue: bool): State
    requires s.ring.cq != []
  {
    var e := s.ring.cq[0];
    var c := e.userData;
    var (io, wake) := ProcessOne(s.io, e);
    var ring := s.ring.(cq := s.ring.cq[1..]);
    var dead := Occupied(s.io.completions, c) && s.io.completions.entries[c].value.task == DEAD_TASK;
    var hist :=
      if !Occupied(s.io.completions, c) then s.hist
      else if dead then
        Forget(s.hist, c).(place := if e.req.op.Provide? then Unplaced(s.hist.place, CqeHolds(e))
                                    else Placed(s.hist.place, CqeHolds(e), Leaked))
      else if c in s.hist.lastPoll then s.hist.(owed := s.hist.owed + {c})
      else s.hist;
    var t := s.(io := io, ring := ring, hist := hist);
    if wake.None? then t
    else if toQueue then t.(rt := t.rt.(runqueue := t.rt.runqueue + [wake.value]))
    else t.(io := t.io.(woken := t.io.woken + [wake.value]))
  }

  /** Every new future gets a slot; the ids come in order. */
  function Admit(futures: Slots<()>, n: nat): (Slots<()>, seq<nat>)
    decreases n
  {
    if n == 0 || !HeadOk(futures) then (futures, [])
    else
      var (t, id) := Insert(futures, ());
      var (rest, ids) := Admit(t, n - 1);
      (rest, [id] + ids)
  }

  /** `spawn_dyn`, and `created.drain(..)` for all futures created since the last turn. */
  function SpawnOn(rt: Runtime, n: nat): Runtime {
    var (futures, ids) := Admit(rt.futures, n);
    rt.(futures := futures, runqueue := rt.runqueue + ids)
  }

  /** `turn` up to the decision whether to submit. */
  function TurnStart(io: Io, rt: Runtime, hasNext: bool): (Io, Runtime) {
    var spawned := SpawnOn(rt, io.created);
    var queued := spawned.(runqueue := spawned.runqueue + io.woken);
    var rest := io.(created := 0, woken := []);
    if io.queued != 0 || (queued.runqueue == [] && !hasNext) then (rest, queued.(phase := Entering))
    else (rest.(queued := 0), queued.(phase := Processing))
  }

  /** Whether to wait: `has_next` is read anew, and the kernel may have posted a CQE in between. */
  function WaitFor(rt: Runtime, hasNext: bool): Runtime {
    rt.(phase := Submitting(if hasNext || rt.runqueue != [] then 0 else 1))
  }

  ghost function Begin(s: State): State {
    var (io, rt) := TurnStart(s.io, s.rt, s.ring.cq != []);
    s.(io := io, rt := rt)
  }

  /** The head of the polling loop: a task that is gone is skipped. */
  function NextTask(rt: Runtime): Runtime
    requires rt.runqueue != []
  {
    var id := rt.runqueue[0];
    rt.(runqueue := rt.runqueue[1..], phase := if Occupied(rt.futures, id) then Running(id) else Polling)
  }

  ghost function DispatchNext(s: State): State
    requires s.rt.runqueue != []
  {
    var id := s.rt.runqueue[0];
    s.(rt := NextTask(s.rt),
       hist := s.hist.(forgotten := s.hist.forgotten - {id},
                       owed := set c | c in s.hist.owed && !(c in s.hist.lastPoll && s.hist.lastPoll[c] == id)))
  }

  function TaskDone(rt: Runtime, done: bool): Runtime
    requires rt.phase.Running?
  {
    rt.(futures := if done then Remove(rt.futures, rt.phase.task).0 else rt.futures, phase := Polling)
  }

  /**
   A poll that panics: the future is removed, and unwinding out of `turn` drops the drained queue with
   all ids that are still in it.
   */
  ghost function Panic(s: State): State
    requires s.rt.phase.Running?
  {
    s.(rt := Runtime(Remove(s.rt.futures, s.rt.phase.task).0, [], Outside),
       hist := s.hist.(forgotten := s.hist.forgotten + set id | id in s.rt.runqueue))
  }

  ghost function Next(s: State, step: Step): State
    requires HeadOk(s.io.completions) && HeadOk(s.io.buffers) && Allowed(s, step)
  {
    match step
    case NewPlain(mustWait) => Create(s, Plain, mustWait)
    case NewRead => Create(s, Read, false)
    case NewProvide(buffer) => CreateProvide(s, buffer)
    case FillSqe => Fill(s)
    case SubmitBatch =>
      var n := |s.ring.batch|;
      s.(ring := s.ring.(sq := s.ring.sq + s.ring.batch, batch := [], unsubmitted := s.ring.unsubmitted + n),
         io := s.io.(queued := s.io.queued + n))
    case AbandonBatch => s.(ring := s.ring.(abandoned := s.ring.abandoned + s.ring.batch, batch := []))
    case Poll(f) => PollLive(s, f)
    case DropLive(f) => DropOne(s, f)
    case Spawn => s.(io := s.io.(created := s.io.created + 1))
    case SpawnDirect => s.(rt := SpawnOn(s.rt, 1))
    case KernelTake => s.(ring := s.ring.(sq := s.ring.sq[1..], flight := s.ring.flight + [s.ring.sq[0]]))
    case KernelPost(i, res, bufId, payload) => Post(s, i, res, bufId, payload)
    case ProcessToWoken => Process(s, false)
    case Announce => s.(ring := s.ring.(unsubmitted := 0))
    case BeginTurn => Begin(s)
    case ChooseWait => s.(rt := WaitFor(s.rt, s.ring.cq != []))
    case SubmitFails => s.(rt := s.rt.(phase := Outside))
    case SubmitDone =>
      s.(ring := s.ring.(unsubmitted := 0), io := s.io.(queued := 0), rt := s.rt.(phase := Processing))
    case ProcessToQueue => Process(s, true)
    case FinishProcessing(h1, h2) =>
      s.(rt := s.rt.(runqueue := Dedup.Scan(Dedup.Start(s.rt.runqueue), h1, h2).data, phase := Polling))
    case Dispatch => DispatchNext(s)
    case FinishTask(done) => s.(rt := TaskDone(s.rt, done))
    case TaskPanics => Panic(s)
    case EndTurn => s.(rt := s.rt.(phase := Outside))
  }
}
