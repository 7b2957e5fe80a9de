/** Every step of the executor, of user code and of the kernel keeps the invariant of the system. */
module ExecutorSteps {
  import opened Wrappers
  import opened SlotSpec
  import opened FixedVecs
  import opened Executor
  import opened ExecutorMaps
  import opened ExecutorRouting
  import opened ExecutorLive
  import opened ExecutorPlaces
  import opened ExecutorBuffers
  import Dedup

  /** Bookkeeping of the scheduler: what was announced to the kernel, what was queued, and which task runs. */
  ghost predicate PhaseOk(s: State) {
    && |s.ring.prep| <= 1
    && s.ring.unsubmitted <= s.io.queued
    && (s.rt.phase.Processing? ==> s.ring.unsubmitted == 0)
    && (s.rt.phase.Entering? ==> s.io.woken == [])
    && (s.rt.phase.Submitting? ==> s.rt.phase.wait <= 1)
    && (s.ring.prep != [] ==> UserMayRun(s))
    && (s.rt.phase.Running? ==> s.rt.phase.task < DEAD_TASK && s.rt.phase.task in Contents(s.rt.futures))
  }

  ghost predicate StorageOk(s: State) {
    IoOk(s.io) && Valid(s.rt.futures) && |s.io.buffers.entries| <= U16_MAX + 1
  }

  ghost predicate SystemOk(s: State) {
    && StorageOk(s)
    && RoutingOk(C(s.io), s.hist.owner, s.ring)
    && LiveOk(C(s.io), s.hist, s.ring.prep)
    && PlacesOk(C(s.io), B(s.io), s.ring, s.hist.place)
    && WakeOk(C(s.io), s.hist, Promised(s))
    && PhaseOk(s)
    && !s.hist.panicked
  }

  lemma Named(c: map<nat, CompletionEvent>, h: History, prep: seq<Token>)
    requires LiveOk(c, h, prep)
    ensures StoredNamed(c)
  {
    forall i | i in c && c[i].cqe.Some?
      ensures c[i].cqe.value.userData == i
    {
      assert SlotOk(c, h, prep, i);
    }
  }

  lemma Ready(s: State)
    requires StorageOk(s)
    ensures HeadOk(s.io.completions) && HeadOk(s.io.buffers)
  {
    ValidFacts(s.io.completions);
    ValidFacts(s.io.buffers);
  }

  lemma InitOk(s: State)
    requires Init(s)
    ensures SystemOk(s)
  {
    EmptyIsValid<CompletionEvent>();
    EmptyIsValid<Buffer>();
    EmptyIsValid<()>();
    assert Pipeline(s.ring) == multiset{};
  }

  // ------------------------------------------------------------------ user steps

  lemma CreateKeepsOk(s: State, op: Op, mustWait: bool)
    requires SystemOk(s) && UserMayRun(s) && s.ring.prep == [] && HasRoom(s.io.completions, 0) && !op.Provide?
    ensures HeadOk(s.io.completions) && SystemOk(Create(s, op, mustWait))
  {
    hide Insert, Valid, Contents, RoutingOk, LiveOk, PlacesOk, WakeOk, NewCompletion;
    NewCompletionMap(s.io);
    var c, ce := NewCompletion(s.io).1, CompletionEvent(None, NO_TASK, NoAction);
    var t := Token(c, 0, Request(s.hist.serial, op));
    RoutingAdds(C(s.io), s.hist.owner, s.ring, t, ce);
    CreateKeeps(C(s.io), s.hist, t, mustWait, s.hist.place, Promised(s));
    PlainCreateKeeps(C(s.io), B(s.io), s.ring, s.hist.place, t, ce);
    assert Promised(Create(s, op, mustWait)) == Promised(s);
  }

  /** The slot id of a buffer accepted by the guard fits the 16 bits that the SQE has for it. */
  lemma BufferIdFits(s: State, buffer: Buffer)
    requires StorageOk(s) && s.io.buffers.size < U16_MAX
    ensures HeadOk(s.io.buffers)
    ensures var (t, id) := Insert(s.io.buffers, buffer);
            && Valid(t) && id !in B(s.io) && Contents(t) == B(s.io)[id := buffer]
            && |t.entries| <= U16_MAX + 1 && id <= U16_MAX && id % (U16_MAX + 1) == id
  {
    hide Insert, Contents, Valid;
    ValidFacts(s.io.buffers);
    InsertAsMap(s.io.buffers, buffer);
    ValidFacts(Insert(s.io.buffers, buffer).0);
  }

  /** The buffer has its slot; now the request gets its completion. */
  lemma OfferKeepsOk(s: State, buffer: Buffer, bs: Slots<Buffer>, id: nat)
    requires SystemOk(s) && UserMayRun(s) && s.ring.prep == [] && HasRoom(s.io.completions, 0)
    requires Valid(bs) && id !in B(s.io) && Contents(bs) == B(s.io)[id := buffer.(len := 0)]
    requires |bs.entries| <= U16_MAX + 1 && id <= U16_MAX && id % (U16_MAX + 1) == id
    ensures HeadOk(s.io.completions)
    ensures SystemOk(Create(s.(io := s.io.(buffers := bs)), Provide(id, buffer), false))
  {
    hide Insert, Valid, Contents, RoutingOk, LiveOk, PlacesOk, WakeOk, NewCompletion;
    var io := s.io.(buffers := bs);
    NewCompletionMap(io);
    var c, ce := NewCompletion(io).1, CompletionEvent(None, NO_TASK, NoAction);
    var t := Token(c, id, Request(s.hist.serial, Provide(id, buffer)));
    RoutingAdds(C(s.io), s.hist.owner, s.ring, t, ce);
    CreateKeeps(C(s.io), s.hist, t, false, s.hist.place[id := Held(c)], Promised(s));
    ProvideCreateKeeps(C(s.io), B(s.io), s.ring, s.hist.place, t, ce);
    assert Promised(Create(s.(io := io), Provide(id, buffer), false)) == Promised(s);
  }

  lemma CreateProvideKeepsOk(s: State, buffer: Buffer)
    requires SystemOk(s) && UserMayRun(s) && s.ring.prep == [] && HasRoom(s.io.completions, 0)
    ensures HeadOk(s.io.completions) && HeadOk(s.io.buffers) && SystemOk(CreateProvide(s, buffer))
  {
    Ready(s);
    if s.io.buffers.size < U16_MAX {
      hide Insert, Create, SystemOk;
      BufferIdFits(s, buffer.(len := 0));
      var (bs, id) := Insert(s.io.buffers, buffer.(len := 0));
      OfferKeepsOk(s, buffer, bs, id);
    }
  }

  lemma FillKeepsOk(s: State)
    requires SystemOk(s) && s.ring.prep != []
    ensures SystemOk(Fill(s))
  {
    hide Valid, Contents, RoutingOk, LiveOk, PlacesOk, WakeOk, Pipeline;
    var t := s.ring.prep[0];
    assert s.ring.prep == [t] && s.ring.prep[1..] == [];
    TokenAwaited(C(s.io), s.hist.owner, s.ring, t);
    FillMoves(s.ring);
    FillKeeps(C(s.io), s.hist, t, Promised(s));
    var ring := s.ring.(prep := s.ring.prep[1..], batch := s.ring.batch + [t]);
    var d := C(Fill(s).io);
    FillMap(s, t);
    assert Promised(Fill(s)) == Promised(s);
    RoutingStays(C(s.io), d, s.hist.owner, s.ring, ring);
    PlacesStay(C(s.io), d, B(s.io), s.ring, ring, s.hist.place);
  }

  lemma FillMap(s: State, t: Token)
    requires StorageOk(s) && s.ring.prep == [t] && t.userData in C(s.io)
    ensures StorageOk(Fill(s)) && B(Fill(s).io) == B(s.io) && Fill(s).hist == s.hist && SameRest(s.io, Fill(s).io)
    ensures var ce := C(s.io)[t.userData];
            C(Fill(s).io) == if t.req.op.Provide?
                             then C(s.io)[t.userData := ce.(action := DeleteBufferOnError(t.req.op.bufid))]
                             else C(s.io)
  {
    hide Valid, Contents;
    ValidFacts(s.io.completions);
    if t.req.op.Provide? {
      PutMap(s.io, t.userData, C(s.io)[t.userData].(action := DeleteBufferOnError(t.req.op.bufid)));
    }
  }

  /** Items move between stages; nothing else happens. */
  lemma RingMoveKeepsOk(s: State, ring: Ring, queued: nat)
    requires SystemOk(s) && Pipeline(ring) == Pipeline(s.ring) && SameItems(s.ring, ring) && ring.prep == s.ring.prep
    requires ring.unsubmitted <= queued && (s.rt.phase.Processing? ==> ring.unsubmitted == 0)
    ensures SystemOk(s.(ring := ring, io := s.io.(queued := queued)))
  {
    var t := s.(ring := ring, io := s.io.(queued := queued));
    assert Promised(t) == Promised(s);
    hide Valid, Contents, LiveOk, WakeOk, Pipeline;
    RoutingStays(C(s.io), C(s.io), s.hist.owner, s.ring, ring);
    PlacesStay(C(s.io), C(s.io), B(s.io), s.ring, ring, s.hist.place);
  }

  /** What polling a live future relies on. */
  lemma LiveFacts(s: State, f: nat)
    requires SystemOk(s) && f in s.hist.live
    ensures var fut := s.hist.live[f];
            && fut.cqid in C(s.io) && C(s.io)[fut.cqid].task != DEAD_TASK
            && s.hist.owner[fut.cqid] == Request(f, fut.op)
            && (C(s.io)[fut.cqid].cqe.Some? ==>
                  var e := C(s.io)[fut.cqid].cqe.value;
                  && e.req == Request(f, fut.op) && e.userData == fut.cqid
                  && CqeOk(B(s.io), s.hist.place, e) && Delivers(s.io, fut.op, e))
  {
    var fut := s.hist.live[f];
    assert FutureOk(C(s.io), s.hist, f);
    assert SlotOk(C(s.io), s.hist, s.ring.prep, fut.cqid);
    assert StoredOk(C(s.io), B(s.io), s.hist.place, fut.cqid);
  }

  lemma PendingPollKeepsOk(s: State, f: nat)
    requires SystemOk(s) && f in s.hist.live && s.rt.phase.Running? && s.ring.prep == []
    requires s.hist.live[f].cqid in C(s.io) && C(s.io)[s.hist.live[f].cqid].cqe.None?
    ensures SystemOk(PollLive(s, f))
  {
    hide Valid, Contents, PollAsync, RoutingOk, LiveOk, PlacesOk, WakeOk;
    var fut, task := s.hist.live[f], s.rt.phase.task;
    LiveFacts(s, f);
    PollPendingMap(s.io, fut, task);
    var t := PollLive(s, f);
    assert Promised(t) == Promised(s);
    PendingKeeps(C(s.io), s.hist, fut.cqid, task, Promised(s));
    RoutingStays(C(s.io), C(t.io), s.hist.owner, s.ring, s.ring);
    PlacesStay(C(s.io), C(t.io), B(s.io), s.ring, s.ring, s.hist.place);
  }

  lemma ReadyPollKeepsOk(s: State, f: nat)
    requires SystemOk(s) && f in s.hist.live && s.rt.phase.Running? && s.ring.prep == []
    requires s.hist.live[f].cqid in C(s.io) && C(s.io)[s.hist.live[f].cqid].cqe.Some?
    ensures SystemOk(PollLive(s, f))
  {
    hide Valid, Contents, PollAsync, RoutingOk, LiveOk, PlacesOk, WakeOk;
    var fut := s.hist.live[f];
    LiveFacts(s, f);
    var e := C(s.io)[fut.cqid].cqe.value;
    PollReadyMap(s.io, fut, s.rt.phase.task);
    var t := PollLive(s, f);
    assert Promised(t) == Promised(s);
    Named(C(s.io), s.hist, s.ring.prep);
    ReadyAlone(C(s.io), s.hist.owner, s.ring, fut.cqid);
    HeldBySlot(s, fut.cqid);
    RoutingForgets(C(s.io), s.hist.owner, s.ring, fut.cqid);
    ForgetKeeps(C(s.io), s.hist, s.ring.prep, fut.cqid, Unplaced(s.hist.place, CqeHolds(e)), Promised(s));
    ReleaseKeeps(C(s.io), B(s.io), s.ring, s.ring, s.hist.place, fut.cqid, CqeHolds(e), B(t.io),
                 Unplaced(s.hist.place, CqeHolds(e)));
  }

  /** All that the request of a completed slot holds is what its CQE holds. */
  lemma HeldBySlot(s: State, i: nat)
    requires SystemOk(s) && i in C(s.io) && C(s.io)[i].cqe.Some? && Alone(C(s.io) - {i}, s.ring, i)
    ensures var h := CqeHolds(C(s.io)[i].cqe.value);
            && (forall k | k in s.hist.place && s.hist.place[k] == Held(i) :: h == Some(k))
            && (h.Some? ==> h.value in s.hist.place && s.hist.place[h.value] == Held(i))
  {
    assert StoredOk(C(s.io), B(s.io), s.hist.place, i);
    assert SlotOk(C(s.io), s.hist, s.ring.prep, i);
    forall k | k in s.hist.place && s.hist.place[k] == Held(i)
      ensures CqeHolds(C(s.io)[i].cqe.value) == Some(k)
    {
      SlotHoldsAll(C(s.io), B(s.io), s.ring, s.hist.place, i, k);
    }
  }

  lemma LateDropKeepsOk(s: State, f: nat)
    requires SystemOk(s) && f in s.hist.live && s.ring.prep == []
    requires s.hist.live[f].cqid in C(s.io) && C(s.io)[s.hist.live[f].cqid].cqe.Some?
    ensures SystemOk(DropOne(s, f))
  {
    hide Valid, Contents, DropFuture, RoutingOk, LiveOk, PlacesOk, WakeOk;
    var fut := s.hist.live[f];
    LiveFacts(s, f);
    var e := C(s.io)[fut.cqid].cqe.value;
    DropFutureMap(s.io, fut.cqid);
    var t := DropOne(s, f);
    assert Promised(t) == Promised(s);
    Named(C(s.io), s.hist, s.ring.prep);
    ReadyAlone(C(s.io), s.hist.owner, s.ring, fut.cqid);
    HeldBySlot(s, fut.cqid);
    RoutingForgets(C(s.io), s.hist.owner, s.ring, fut.cqid);
    ForgetKeeps(C(s.io), s.hist, s.ring.prep, fut.cqid, Placed(s.hist.place, CqeHolds(e), Leaked), Promised(s));
    ReleaseKeeps(C(s.io), B(s.io), s.ring, s.ring, s.hist.place, fut.cqid, CqeHolds(e), B(s.io),
                 Placed(s.hist.place, CqeHolds(e), Leaked));
  }

  lemma EarlyDropKeepsOk(s: State, f: nat)
    requires SystemOk(s) && f in s.hist.live && s.ring.prep == []
    requires s.hist.live[f].cqid in C(s.io) && C(s.io)[s.hist.live[f].cqid].cqe.None?
    ensures SystemOk(DropOne(s, f))
  {
    hide Valid, Contents, DropFuture, RoutingOk, LiveOk, PlacesOk, WakeOk;
    var fut := s.hist.live[f];
    LiveFacts(s, f);
    DropFutureMap(s.io, fut.cqid);
    var t := DropOne(s, f);
    assert Promised(t) == Promised(s);
    AbandonKeeps(C(s.io), s.hist, fut.cqid, Promised(s));
    RoutingStays(C(s.io), C(t.io), s.hist.owner, s.ring, s.ring);
    PlacesStay(C(s.io), C(t.io), B(s.io), s.ring, s.ring, s.hist.place);
  }

  // ------------------------------------------------------------------ kernel steps

  lemma PostKeepsOk(s: State, i: nat, res: int, bufId: Option<nat>, payload: seq<byte>)
    requires SystemOk(s) && i < |s.ring.flight| && KernelMayPost(s, s.ring.flight[i], res, bufId, payload)
    ensures SystemOk(Post(s, i, res, bufId, payload))
  {
    var t, u := s.ring.flight[i], Post(s, i, res, bufId, payload);
    var e := Cqe(t.userData, res, bufId, t.req, payload);
    assert Promised(u) == Promised(s);
    Named(C(s.io), s.hist, s.ring.prep);
    FlightAlone(C(s.io), s.hist.owner, s.ring, i);
    PostMoves(s.ring, i, e);
    if t.req.op.Read? && bufId.Some? {
      WrittenMap(s, bufId.value, payload);
      PostRead(C(s.io), B(s.io), s.ring, s.hist.place, i, e, bufId.value, B(u.io)[bufId.value]);
    } else if t.req.op.Provide? && res >= 0 {
      PostProvided(C(s.io), B(s.io), s.ring, s.hist.place, i, e);
    } else {
      PostSame(C(s.io), B(s.io), s.ring, s.hist.place, i, e);
    }
    hide Valid, Contents, PlacesOk, Pipeline, WakeOk, LiveOk;
    RoutingStays(C(s.io), C(s.io), s.hist.owner, s.ring, Without(s.ring, i).(cq := s.ring.cq + [e]));
    RoutingPool(C(s.io), s.hist.owner, Without(s.ring, i).(cq := s.ring.cq + [e]), u.ring.pool);
    LiveWake(s, u);
  }

  lemma RoutingPool(c: map<nat, CompletionEvent>, owner: map<nat, Request>, p: Ring, pool: set<nat>)
    requires RoutingOk(c, owner, p)
    ensures RoutingOk(c, owner, p.(pool := pool))
  {
    assert Pipeline(p.(pool := pool)) == Pipeline(p);
  }

  /** Futures and wake-ups do not depend on places. */
  lemma LiveWake(s: State, t: State)
    requires LiveOk(C(s.io), s.hist, s.ring.prep) && WakeOk(C(s.io), s.hist, Promised(s))
    requires C(t.io) == C(s.io) && t.hist == s.hist.(place := t.hist.place) && t.ring.prep == s.ring.prep
    requires Promised(t) == Promised(s)
    ensures LiveOk(C(t.io), t.hist, t.ring.prep) && WakeOk(C(t.io), t.hist, Promised(t))
  {
    hide Contents;
    forall f | f in t.hist.live ensures FutureOk(C(t.io), t.hist, f) { assert FutureOk(C(s.io), s.hist, f); }
    forall i | i in C(t.io)
      ensures SlotOk(C(t.io), t.hist, t.ring.prep, i) && TaskOk(C(t.io), t.hist, i)
    {
      assert SlotOk(C(s.io), s.hist, s.ring.prep, i) && TaskOk(C(s.io), s.hist, i);
    }
    forall i | i in t.hist.owed
      ensures OwedOk(C(t.io), t.hist, Promised(t), i)
    {
      assert OwedOk(C(s.io), s.hist, Promised(s), i);
    }
  }

  lemma WrittenMap(s: State, b: nat, payload: seq<byte>)
    requires StorageOk(s) && b in B(s.io) && |payload| <= |B(s.io)[b].data|
    ensures Occupied(s.io.buffers, b)
    ensures var before := s.io.buffers.entries[b].value;
            var written := Buffer(payload + before.data[|payload|..], before.len);
            var io := s.io.(buffers := Put(s.io.buffers, b, written));
            && IoOk(io) && C(io) == C(s.io) && B(io) == B(s.io)[b := written]
            && |io.buffers.entries| == |s.io.buffers.entries|
            && |written.data| == |before.data| && written.data[..|payload|] == payload
            && before == B(s.io)[b]
  {
    hide Valid, Contents;
    ValidFacts(s.io.buffers);
    var before := s.io.buffers.entries[b].value;
    PutAsMap(s.io.buffers, b, Buffer(payload + before.data[|payload|..], before.len));
  }

  // ------------------------------------------------------------------ executor steps

  /** The oldest CQE names an occupied slot that waits for it; a buffer it carries is with that request. */
  lemma HeadFacts(s: State)
    requires SystemOk(s) && s.ring.cq != []
    ensures var e := s.ring.cq[0];
            && Alone(C(s.io), s.ring.(cq := s.ring.cq[1..]), e.userData)
            && e.userData in C(s.io) && s.hist.owner[e.userData] == e.req && C(s.io)[e.userData].cqe.None?
            && CqeOk(B(s.io), s.hist.place, e)
            && (match e.req.op
                case Provide(b, _) => C(s.io)[e.userData].action == DeleteBufferOnError(b)
                case _ => C(s.io)[e.userData].action.NoAction?)
  {
    hide Valid, Contents;
    var e, rest := s.ring.cq[0], s.ring.(cq := s.ring.cq[1..]);
    HeadAlone(C(s.io), s.hist.owner, s.ring);
    CqeAwaited(C(s.io), s.hist.owner, s.ring, e);
    assert SlotOk(C(s.io), s.hist, s.ring.prep, e.userData);
    if s.ring.prep != [] {
      assert InStages(rest, s.ring.prep[0]);
    }
  }

  lemma HeldByHead(s: State)
    requires SystemOk(s) && s.ring.cq != []
    ensures var e := s.ring.cq[0];
            && (forall k | k in s.hist.place && s.hist.place[k] == Held(e.userData) :: CqeHolds(e) == Some(k))
            && (CqeHolds(e).Some? ==>
                  CqeHolds(e).value in s.hist.place && s.hist.place[CqeHolds(e).value] == Held(e.userData))
  {
    hide Valid, Contents, RoutingOk, LiveOk, WakeOk;
    HeadFacts(s);
    var e := s.ring.cq[0];
    forall k | k in s.hist.place && s.hist.place[k] == Held(e.userData)
      ensures CqeHolds(e) == Some(k)
    {
      HeadHoldsAll(C(s.io), B(s.io), s.ring, s.hist.place, k);
    }
  }

  /** A CQE for a dropped future frees the completion, and the buffer if the kernel refused it. */
  lemma ProcessDeadKeepsOk(s: State, toQueue: bool)
    requires SystemOk(s) && !s.rt.phase.Entering? && s.ring.cq != []
    requires s.ring.cq[0].userData in C(s.io) && C(s.io)[s.ring.cq[0].userData].task == DEAD_TASK
    ensures SystemOk(Process(s, toQueue))
  {
    hide Valid, Contents, RoutingOk, LiveOk, PlacesOk, WakeOk, ProcessOne, Pipeline;
    var e, t := s.ring.cq[0], Process(s, toQueue);
    HeadFacts(s);
    HeldByHead(s);
    ProcessOneMap(s.io, e);
    Named(C(s.io), s.hist, s.ring.prep);
    assert Promised(t) == Promised(s);
    var h := CqeHolds(e);
    var place := if e.req.op.Provide? then Unplaced(s.hist.place, h) else Placed(s.hist.place, h, Leaked);
    RoutingDelivers(C(s.io), C(t.io), s.hist.owner, s.hist.owner - {e.userData}, s.ring);
    ForgetKeeps(C(s.io), s.hist, s.ring.prep, e.userData, place, Promised(s));
    assert s.ring.cq == [e] + s.ring.cq[1..];
    var d := C(s.io) - {e.userData};
    ReleaseKeeps(C(s.io), B(s.io), s.ring, s.ring.(cq := s.ring.cq[1..]), s.hist.place, e.userData, h, B(t.io), place);
  }

  lemma ProcessLiveKeepsOk(s: State, toQueue: bool)
    requires SystemOk(s) && !s.rt.phase.Entering? && s.ring.cq != []
    requires s.ring.cq[0].userData in C(s.io) && C(s.io)[s.ring.cq[0].userData].task != DEAD_TASK
    ensures SystemOk(Process(s, toQueue))
  {
    hide Valid, Contents, RoutingOk, LiveOk, PlacesOk, WakeOk, ProcessOne, Pipeline;
    var e, t := s.ring.cq[0], Process(s, toQueue);
    HeadFacts(s);
    ProcessOneMap(s.io, e);
    StoreKeepsPlaces(C(s.io), B(s.io), s.ring, s.hist.place);
    RoutingDelivers(C(s.io), C(t.io), s.hist.owner, s.hist.owner, s.ring);
    assert Promised(s) <= Promised(t);
    StoreKeeps(C(s.io), s.hist, s.ring.prep, e, Promised(s), Promised(t));
  }

  lemma {:induction false} AdmitKeeps(futures: Slots<()>, n: nat)
    requires Valid(futures) && |futures.entries| + n * SLABSIZE <= SENTINEL
    ensures Valid(Admit(futures, n).0) && |Admit(futures, n).1| == n
    decreases n
  {
    hide Valid, Contents, Insert;
    ValidFacts(futures);
    if n > 0 {
      InsertAsMap(futures, ());
      AdmitKeeps(Insert(futures, ()).0, n - 1);
    }
  }

  lemma BeginKeepsOk(s: State)
    requires SystemOk(s) && s.rt.phase.Outside? && s.ring.prep == [] && HasRoom(s.rt.futures, s.io.created)
    ensures SystemOk(Begin(s))
  {
    hide Valid, Contents, RoutingOk, LiveOk, PlacesOk, WakeOk, Admit;
    AdmitKeeps(s.rt.futures, s.io.created);
    assert Promised(s) <= Promised(Begin(s));
    WakeGrows(C(s.io), s.hist, Promised(s), Promised(Begin(s)));
  }

  lemma DedupKeepsOk(s: State, h1: nat -> nat, h2: nat -> nat)
    requires SystemOk(s) && s.rt.phase.Processing?
    ensures SystemOk(s.(rt := s.rt.(runqueue := Dedup.Scan(Dedup.Start(s.rt.runqueue), h1, h2).data, phase := Polling)))
  {
    hide Valid, Contents, RoutingOk, LiveOk, PlacesOk, WakeOk, Dedup.Scan;
    Dedup.DedupPartialCorrect(s.rt.runqueue, h1, h2);
    var t := s.(rt := s.rt.(runqueue := Dedup.Scan(Dedup.Start(s.rt.runqueue), h1, h2).data, phase := Polling));
    assert Promised(t) == Promised(s);
  }

  lemma DispatchKeepsOk(s: State)
    requires SystemOk(s) && s.rt.phase.Polling? && s.rt.runqueue != []
    ensures SystemOk(DispatchNext(s))
  {
    hide Contents, RoutingOk, LiveOk, PlacesOk, WakeOk;
    var id, t := s.rt.runqueue[0], DispatchNext(s);
    ValidFacts(s.rt.futures);
    assert s.rt.runqueue == [id] + s.rt.runqueue[1..];
    assert Promised(s) - {id} <= Promised(t);
    DispatchKeeps(C(s.io), s.hist, id, Promised(s), Promised(t));
    LiveIgnoresDebts(C(s.io), s.hist, s.ring.prep, t.hist.owed, t.hist.forgotten);
  }

  lemma LiveIgnoresDebts(c: map<nat, CompletionEvent>, h: History, prep: seq<Token>, owed: set<nat>,
                         forgotten: set<nat>)
    requires LiveOk(c, h, prep)
    ensures LiveOk(c, h.(owed := owed, forgotten := forgotten), prep)
  {
    var g := h.(owed := owed, forgotten := forgotten);
    forall f | f in h.live ensures FutureOk(c, g, f) { assert FutureOk(c, h, f); }
    forall i | i in c ensures SlotOk(c, g, prep, i) { assert SlotOk(c, h, prep, i); }
  }

  /** A panic forgets part of the queue; completions, futures, buffers and requests stay. */
  lemma PanicKeepsOk(s: State)
    requires SystemOk(s) && s.rt.phase.Running?
    ensures SystemOk(Panic(s))
  {
    hide Valid, Contents, RoutingOk, LiveOk, PlacesOk, WakeOk, Remove;
    var t := Panic(s);
    RemoveAsMap(s.rt.futures, s.rt.phase.task);
    assert Promised(s) <= Promised(t);
    LiveIgnoresDebts(C(s.io), s.hist, s.ring.prep, s.hist.owed, t.hist.forgotten);
    WakeGrows(C(s.io), s.hist, Promised(s), Promised(t));
    WakeIgnoresForgotten(C(s.io), s.hist, t.hist.forgotten, Promised(t));
  }

  lemma WakeIgnoresForgotten(c: map<nat, CompletionEvent>, h: History, forgotten: set<nat>, q: set<nat>)
    requires WakeOk(c, h, q)
    ensures WakeOk(c, h.(forgotten := forgotten), q)
  {
    var g := h.(forgotten := forgotten);
    forall i | i in c ensures TaskOk(c, g, i) { assert TaskOk(c, h, i); }
    forall i | i in g.owed ensures OwedOk(c, g, q, i) { assert OwedOk(c, h, q, i); }
  }

  /** The scheduler moves on; queues and I/O stay. */
  lemma PhaseStepKeepsOk(s: State, t: State)
    requires SystemOk(s) && PhaseOk(t) && t.rt.runqueue == s.rt.runqueue && Valid(t.rt.futures)
    requires t.ring == s.ring.(unsubmitted := t.ring.unsubmitted) && t.hist == s.hist
    requires t.io == s.io.(queued := t.io.queued, created := t.io.created)
    ensures SystemOk(t)
  {
    hide Valid, Contents, LiveOk, WakeOk;
    assert Promised(t) == Promised(s) && Pipeline(t.ring) == Pipeline(s.ring);
    hide Pipeline;
    RoutingStays(C(s.io), C(s.io), s.hist.owner, s.ring, t.ring);
    PlacesStay(C(s.io), C(s.io), B(s.io), s.ring, t.ring, s.hist.place);
  }

  // ------------------------------------------------------------------ every step

  predicate UserStep(step: Step) {
    step.NewPlain? || step.NewRead? || step.NewProvide? || step.Poll? || step.DropLive? || step.Spawn?
    || step.SpawnDirect?
  }

  predicate QueueStep(step: Step) {
    step.FillSqe? || step.SubmitBatch? || step.AbandonBatch? || step.KernelTake? || step.KernelPost?
  }

  lemma UserStepKeepsOk(s: State, step: Step)
    requires SystemOk(s) && Allowed(s, step) && UserStep(step)
    ensures HeadOk(s.io.completions) && HeadOk(s.io.buffers) && SystemOk(Next(s, step))
  {
    hide SystemOk, Create, CreateProvide, PollLive, DropOne;
    StorageReady(s);
    match step {
      case NewPlain(mustWait) => CreateKeepsOk(s, Plain, mustWait);
      case NewRead => CreateKeepsOk(s, Read, false);
      case NewProvide(buffer) => CreateProvideKeepsOk(s, buffer);
      case Poll(f) =>
        LiveFacts(s, f);
        if C(s.io)[s.hist.live[f].cqid].cqe.Some? { ReadyPollKeepsOk(s, f); } else { PendingPollKeepsOk(s, f); }
      case DropLive(f) =>
        LiveFacts(s, f);
        if C(s.io)[s.hist.live[f].cqid].cqe.Some? { LateDropKeepsOk(s, f); } else { EarlyDropKeepsOk(s, f); }
      case Spawn => SpawnKeepsOk(s);
      case SpawnDirect => SpawnDirectKeepsOk(s);
    }
  }

  lemma StorageReady(s: State)
    requires SystemOk(s)
    ensures HeadOk(s.io.completions) && HeadOk(s.io.buffers)
  {
    Ready(s);
  }

  lemma SpawnKeepsOk(s: State)
    requires SystemOk(s)
    ensures SystemOk(s.(io := s.io.(created := s.io.created + 1)))
  {
    hide Contents;
    PhaseStepKeepsOk(s, s.(io := s.io.(created := s.io.created + 1)));
  }

  lemma SpawnDirectKeepsOk(s: State)
    requires SystemOk(s) && s.rt.phase.Outside? && HasRoom(s.rt.futures, 0)
    ensures SystemOk(s.(rt := SpawnOn(s.rt, 1)))
  {
    hide Valid, Contents, RoutingOk, LiveOk, PlacesOk, WakeOk, Admit;
    var t := s.(rt := SpawnOn(s.rt, 1));
    AdmitKeeps(s.rt.futures, 1);
    assert Promised(s) <= Promised(t);
    WakeGrows(C(s.io), s.hist, Promised(s), Promised(t));
  }

  lemma QueueStepKeepsOk(s: State, step: Step)
    requires SystemOk(s) && Allowed(s, step) && QueueStep(step)
    ensures HeadOk(s.io.completions) && HeadOk(s.io.buffers) && SystemOk(Next(s, step))
  {
    hide Fill, Post, Pipeline, RoutingOk, LiveOk, PlacesOk, WakeOk, StorageOk, InStages;
    StorageReady(s);
    match step {
      case FillSqe => FillKeepsOk(s);
      case SubmitBatch =>
        var n := s.ring.unsubmitted + |s.ring.batch|;
        SubmitMoves(s.ring, n);
        SubmitSame(s.ring, n);
        RingMoveKeepsOk(s, s.ring.(sq := s.ring.sq + s.ring.batch, batch := [], unsubmitted := n),
                        s.io.queued + |s.ring.batch|);
      case AbandonBatch =>
        AbandonMoves(s.ring);
        AbandonSame(s.ring);
        RingMoveKeepsOk(s, s.ring.(abandoned := s.ring.abandoned + s.ring.batch, batch := []), s.io.queued);
      case KernelTake =>
        TakeMoves(s.ring);
        TakeSame(s.ring);
        RingMoveKeepsOk(s, s.ring.(sq := s.ring.sq[1..], flight := s.ring.flight + [s.ring.sq[0]]), s.io.queued);
      case KernelPost(i, res, bufId, payload) => PostKeepsOk(s, i, res, bufId, payload);
    }
  }

  lemma SubmitSame(p: Ring, n: nat)
    ensures SameItems(p, p.(sq := p.sq + p.batch, batch := [], unsubmitted := n))
  {
  }

  lemma AbandonSame(p: Ring)
    ensures SameItems(p, p.(abandoned := p.abandoned + p.batch, batch := []))
  {
  }

  lemma TakeSame(p: Ring)
    requires p.sq != []
    ensures SameItems(p, p.(sq := p.sq[1..], flight := p.flight + [p.sq[0]]))
  {
    assert p.sq == [p.sq[0]] + p.sq[1..];
  }

  lemma ProcessKeepsOk(s: State, toQueue: bool)
    requires SystemOk(s) && !s.rt.phase.Entering? && s.ring.cq != []
    ensures SystemOk(Process(s, toQueue))
  {
    hide SystemOk, Process;
    HeadFacts(s);
    if C(s.io)[s.ring.cq[0].userData].task == DEAD_TASK {
      ProcessDeadKeepsOk(s, toQueue);
    } else {
      ProcessLiveKeepsOk(s, toQueue);
    }
  }

  lemma LoopStepKeepsOk(s: State, step: Step)
    requires SystemOk(s) && Allowed(s, step) && !UserStep(step) && !QueueStep(step)
    ensures HeadOk(s.io.completions) && HeadOk(s.io.buffers) && SystemOk(Next(s, step))
  {
    hide Process, Begin, DispatchNext, Panic, Contents, Valid, RoutingOk, LiveOk, PlacesOk, WakeOk, Dedup.Scan, Remove;
    StorageReady(s);
    var t := Next(s, step);
    match step {
      case ProcessToWoken => ProcessKeepsOk(s, false);
      case ProcessToQueue => ProcessKeepsOk(s, true);
      case BeginTurn => BeginKeepsOk(s);
      case FinishProcessing(h1, h2) => DedupKeepsOk(s, h1, h2);
      case Dispatch => DispatchKeepsOk(s);
      case FinishTask(done) =>
        RemoveAsMap(s.rt.futures, s.rt.phase.task);
        PhaseStepKeepsOk(s, t);
      case TaskPanics => PanicKeepsOk(s);
      case Announce => PhaseStepKeepsOk(s, t);
      case ChooseWait => PhaseStepKeepsOk(s, t);
      case SubmitFails => PhaseStepKeepsOk(s, t);
      case SubmitDone => PhaseStepKeepsOk(s, t);
      case EndTurn => PhaseStepKeepsOk(s, t);
    }
  }

  lemma StepKeepsOk(s: State, step: Step)
    requires SystemOk(s) && Allowed(s, step)
    ensures HeadOk(s.io.completions) && HeadOk(s.io.buffers) && SystemOk(Next(s, step))
  {
    hide SystemOk, Next;
    if UserStep(step) {
      UserStepKeepsOk(s, step);
    } else if QueueStep(step) {
      QueueStepKeepsOk(s, step);
    } else {
      LoopStepKeepsOk(s, step);
    }
  }
}
