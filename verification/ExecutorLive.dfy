/** The futures that exist, the slots they own, and the wake-ups that their tasks are owed. */
module ExecutorLive {
  import opened Wrappers
  import opened Executor

  /** A live future owns its slot, and the slot is not marked dead. */
  ghost predicate FutureOk(c: map<nat, CompletionEvent>, h: History, f: nat)
    requires f in h.live
  {
    var fut := h.live[f];
    && f < h.serial
    && fut.cqid in c && fut.cqid in h.owner && h.owner[fut.cqid] == Request(f, fut.op)
    && c[fut.cqid].task != DEAD_TASK
  }

  /** A slot is dead or has its future; a stored CQE is the one its own request caused. */
  ghost predicate SlotOk(c: map<nat, CompletionEvent>, h: History, prep: seq<Token>, i: nat)
    requires i in c
  {
    && i in h.owner
    && h.owner[i].serial < h.serial
    && (c[i].task != DEAD_TASK ==> h.owner[i].serial in h.live && h.live[h.owner[i].serial].cqid == i)
    && (c[i].cqe.Some? ==>
          c[i].task != DEAD_TASK && c[i].cqe.value.userData == i && c[i].cqe.value.req == h.owner[i])
    && match h.owner[i].op
       case Provide(b, _) => c[i].action == DeleteBufferOnError(b) || (prep != [] && prep[0].userData == i)
       case _ => c[i].action.NoAction?
  }

  ghost predicate LiveOk(c: map<nat, CompletionEvent>, h: History, prep: seq<Token>) {
    && c.Keys == h.owner.Keys
    && (forall f | f in h.live :: FutureOk(c, h, f))
    && (forall i | i in c :: SlotOk(c, h, prep, i))
  }

  /** The task recorded in a slot is the one that polled it last. */
  ghost predicate TaskOk(c: map<nat, CompletionEvent>, h: History, i: nat)
    requires i in c
  {
    c[i].task == DEAD_TASK || c[i].task == if i in h.lastPoll then h.lastPoll[i] else NO_TASK
  }

  /** A completion whose poller has to be told has that task queued. */
  ghost predicate OwedOk(c: map<nat, CompletionEvent>, h: History, queue: set<nat>, i: nat) {
    && i in c && c[i].cqe.Some? && c[i].task != DEAD_TASK
    && i in h.lastPoll && h.lastPoll[i] in queue
  }

  ghost predicate WakeOk(c: map<nat, CompletionEvent>, h: History, queue: set<nat>) {
    && h.lastPoll.Keys <= c.Keys
    && (forall i | i in h.lastPoll :: h.lastPoll[i] < DEAD_TASK)
    && (forall i | i in c :: TaskOk(c, h, i))
    && (forall i | i in h.owed :: OwedOk(c, h, queue, i))
  }

  /** The task ids in `runqueue` and in `woken`. */
  ghost function Queue(s: State): set<nat> {
    (set t | t in s.rt.runqueue) + (set t | t in s.io.woken)
  }

  /** The tasks that are queued, or were until a panic. */
  ghost function Promised(s: State): set<nat> {
    Queue(s) + s.hist.forgotten
  }

  lemma CreateKeeps(c: map<nat, CompletionEvent>, h: History, t: Token, mustWait: bool, place: map<nat, Place>,
                    q: set<nat>)
    requires LiveOk(c, h, []) && WakeOk(c, h, q) && t.userData !in c && t.req.serial == h.serial
    ensures var d := c[t.userData := CompletionEvent(None, NO_TASK, NoAction)];
            var g := h.(serial := h.serial + 1, owner := h.owner[t.userData := t.req],
                        live := h.live[h.serial := Future(t.userData, mustWait, t.req.op)], place := place);
            LiveOk(d, g, [t]) && WakeOk(d, g, q)
  {
    var d := c[t.userData := CompletionEvent(None, NO_TASK, NoAction)];
    var g := h.(serial := h.serial + 1, owner := h.owner[t.userData := t.req],
                live := h.live[h.serial := Future(t.userData, mustWait, t.req.op)], place := place);
    forall f | f in g.live
      ensures FutureOk(d, g, f)
    {
      if f != h.serial { assert FutureOk(c, h, f); }
    }
    forall i | i in d
      ensures SlotOk(d, g, [t], i) && TaskOk(d, g, i)
    {
      if i != t.userData { assert SlotOk(c, h, [], i) && TaskOk(c, h, i); }
    }
    forall i | i in g.owed
      ensures OwedOk(d, g, q, i)
    {
      assert OwedOk(c, h, q, i);
    }
  }

  lemma FillKeeps(c: map<nat, CompletionEvent>, h: History, t: Token, q: set<nat>)
    requires LiveOk(c, h, [t]) && WakeOk(c, h, q) && t.userData in c && h.owner[t.userData] == t.req
    ensures var d := if t.req.op.Provide?
                     then c[t.userData := c[t.userData].(action := DeleteBufferOnError(t.req.op.bufid))] else c;
            LiveOk(d, h, []) && WakeOk(d, h, q)
  {
    var d := if t.req.op.Provide?
             then c[t.userData := c[t.userData].(action := DeleteBufferOnError(t.req.op.bufid))] else c;
    forall f | f in h.live
      ensures FutureOk(d, h, f)
    {
      assert FutureOk(c, h, f);
    }
    forall i | i in d
      ensures SlotOk(d, h, [], i) && TaskOk(d, h, i)
    {
      assert SlotOk(c, h, [t], i) && TaskOk(c, h, i);
    }
    forall i | i in h.owed
      ensures OwedOk(d, h, q, i)
    {
      assert OwedOk(c, h, q, i);
    }
  }

  /** A pending poll: the slot now names the polling task, and nothing is owed to anyone for it. */
  lemma PendingKeeps(c: map<nat, CompletionEvent>, h: History, i: nat, task: nat, q: set<nat>)
    requires LiveOk(c, h, []) && WakeOk(c, h, q) && i in c && c[i].task != DEAD_TASK && task < DEAD_TASK
    ensures var d := c[i := c[i].(task := task)];
            var g := h.(lastPoll := h.lastPoll[i := task], owed := h.owed - {i});
            LiveOk(d, g, []) && WakeOk(d, g, q)
  {
    var d := c[i := c[i].(task := task)];
    var g := h.(lastPoll := h.lastPoll[i := task], owed := h.owed - {i});
    forall f | f in g.live
      ensures FutureOk(d, g, f)
    {
      assert FutureOk(c, h, f);
    }
    forall j | j in d
      ensures SlotOk(d, g, [], j) && TaskOk(d, g, j)
    {
      assert SlotOk(c, h, [], j) && TaskOk(c, h, j);
    }
    forall j | j in g.owed
      ensures OwedOk(d, g, q, j)
    {
      assert OwedOk(c, h, q, j);
    }
  }

  /** A slot is freed together with its future, if it still had one. */
  lemma ForgetKeeps(c: map<nat, CompletionEvent>, h: History, prep: seq<Token>, i: nat, place: map<nat, Place>,
                    q: set<nat>)
    requires LiveOk(c, h, prep) && WakeOk(c, h, q) && i in c
    ensures var live := if c[i].task == DEAD_TASK then h.live else h.live - {h.owner[i].serial};
            var g := Forget(h, i).(live := live, place := place);
            LiveOk(c - {i}, g, prep) && WakeOk(c - {i}, g, q)
  {
    var live := if c[i].task == DEAD_TASK then h.live else h.live - {h.owner[i].serial};
    var d, g := c - {i}, Forget(h, i).(live := live, place := place);
    assert SlotOk(c, h, prep, i);
    forall f | f in g.live
      ensures FutureOk(d, g, f)
    {
      assert FutureOk(c, h, f);
    }
    forall j | j in d
      ensures SlotOk(d, g, prep, j) && TaskOk(d, g, j)
    {
      assert SlotOk(c, h, prep, j) && TaskOk(c, h, j);
    }
    forall j | j in g.owed
      ensures OwedOk(d, g, q, j)
    {
      assert OwedOk(c, h, q, j);
    }
  }

  /** Dropping a future early marks its slot dead. */
  lemma AbandonKeeps(c: map<nat, CompletionEvent>, h: History, i: nat, q: set<nat>)
    requires LiveOk(c, h, []) && WakeOk(c, h, q) && i in c && c[i].task != DEAD_TASK && c[i].cqe.None?
    ensures var g := h.(live := h.live - {h.owner[i].serial}, lastPoll := h.lastPoll - {i}, owed := h.owed - {i});
            LiveOk(c[i := c[i].(task := DEAD_TASK)], g, []) && WakeOk(c[i := c[i].(task := DEAD_TASK)], g, q)
  {
    var d := c[i := c[i].(task := DEAD_TASK)];
    var g := h.(live := h.live - {h.owner[i].serial}, lastPoll := h.lastPoll - {i}, owed := h.owed - {i});
    assert SlotOk(c, h, [], i);
    forall f | f in g.live
      ensures FutureOk(d, g, f)
    {
      assert FutureOk(c, h, f);
    }
    forall j | j in d
      ensures SlotOk(d, g, [], j) && TaskOk(d, g, j)
    {
      assert SlotOk(c, h, [], j) && TaskOk(c, h, j);
    }
    forall j | j in g.owed
      ensures OwedOk(d, g, q, j)
    {
      assert OwedOk(c, h, q, j);
    }
  }

  /** A CQE is stored; if its poller was left pending, that task is queued. */
  lemma StoreKeeps(c: map<nat, CompletionEvent>, h: History, prep: seq<Token>, e: Cqe, q: set<nat>, r: set<nat>)
    requires LiveOk(c, h, prep) && WakeOk(c, h, q) && q <= r
    requires var i := e.userData; i in c && c[i].task != DEAD_TASK && h.owner[i] == e.req
    requires c[e.userData].task != NO_TASK ==> c[e.userData].task in r
    ensures var i := e.userData;
            var d := c[i := c[i].(cqe := Some(e))];
            var g := if i in h.lastPoll then h.(owed := h.owed + {i}) else h;
            LiveOk(d, g, prep) && WakeOk(d, g, r)
  {
    var i := e.userData;
    var d := c[i := c[i].(cqe := Some(e))];
    var g := if i in h.lastPoll then h.(owed := h.owed + {i}) else h;
    assert SlotOk(c, h, prep, i) && TaskOk(c, h, i);
    forall f | f in g.live
      ensures FutureOk(d, g, f)
    {
      assert FutureOk(c, h, f);
    }
    forall j | j in d
      ensures SlotOk(d, g, prep, j) && TaskOk(d, g, j)
    {
      assert SlotOk(c, h, prep, j) && TaskOk(c, h, j);
    }
    forall j | j in g.owed
      ensures OwedOk(d, g, r, j)
    {
      if j != i || i in h.owed { assert OwedOk(c, h, q, j); }
    }
  }

  /** Dispatching a task settles what was owed to it; the rest stays queued. */
  lemma DispatchKeeps(c: map<nat, CompletionEvent>, h: History, id: nat, q: set<nat>, r: set<nat>)
    requires WakeOk(c, h, q) && q - {id} <= r
    ensures WakeOk(c, h.(forgotten := h.forgotten - {id},
                         owed := set i | i in h.owed && !(i in h.lastPoll && h.lastPoll[i] == id)), r)
  {
    var g := h.(forgotten := h.forgotten - {id},
                owed := set i | i in h.owed && !(i in h.lastPoll && h.lastPoll[i] == id));
    forall i | i in c
      ensures TaskOk(c, g, i)
    {
      assert TaskOk(c, h, i);
    }
    forall i | i in g.owed
      ensures OwedOk(c, g, r, i)
    {
      assert OwedOk(c, h, q, i);
    }
  }

  lemma WakeGrows(c: map<nat, CompletionEvent>, h: History, q: set<nat>, r: set<nat>)
    requires WakeOk(c, h, q) && q <= r
    ensures WakeOk(c, h, r)
  {
    forall i | i in h.owed
      ensures OwedOk(c, h, r, i)
    {
      assert OwedOk(c, h, q, i);
    }
  }
}
