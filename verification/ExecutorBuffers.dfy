/** How the steps of the system move buffers from place to place. */
module ExecutorBuffers {
  import opened Wrappers
  import opened FixedVecs
  import opened Executor
  import opened ExecutorRouting
  import opened ExecutorPlaces

  lemma InFlight(p: Ring, i: nat, t: Token)
    requires i < |p.flight|
    ensures InStages(p, t) <==>
            t == p.flight[i] || InStages(p.(flight := p.flight[..i] + p.flight[i + 1..]), t)
  {
    assert p.flight == p.flight[..i] + [p.flight[i]] + p.flight[i + 1..];
  }

  /** The ring without the SQE that is being completed. */
  ghost function Without(p: Ring, i: nat): Ring
    requires i < |p.flight|
  {
    p.(flight := p.flight[..i] + p.flight[i + 1..])
  }

  lemma FlightAlone(c: map<nat, CompletionEvent>, owner: map<nat, Request>, p: Ring, i: nat)
    requires RoutingOk(c, owner, p) && i < |p.flight|
    ensures Alone(c, Without(p, i), p.flight[i].userData)
    ensures p.flight[i].userData in c && owner[p.flight[i].userData] == p.flight[i].req
  {
    WithoutFlight(p, i);
    TokenAwaited(c, owner, p, p.flight[i]);
    OnlyOne(c, owner, p, Without(p, i), Key(p.flight[i].userData, p.flight[i].req));
  }

  lemma HeadAlone(c: map<nat, CompletionEvent>, owner: map<nat, Request>, p: Ring)
    requires RoutingOk(c, owner, p) && p.cq != []
    ensures Alone(c, p.(cq := p.cq[1..]), p.cq[0].userData)
    ensures p.cq[0].userData in c && owner[p.cq[0].userData] == p.cq[0].req
  {
    WithoutHead(p);
    CqeAwaited(c, owner, p, p.cq[0]);
    OnlyOne(c, owner, p, p.(cq := p.cq[1..]), Key(p.cq[0].userData, p.cq[0].req));
  }

  lemma ReadyAlone(c: map<nat, CompletionEvent>, owner: map<nat, Request>, p: Ring, i: nat)
    requires RoutingOk(c, owner, p) && i in c && c[i].cqe.Some?
    ensures Alone(c - {i}, p, i)
  {
    forall t | InStages(p, t)
      ensures t.userData != i
    {
      TokenAwaited(c, owner, p, t);
    }
    forall e | e in p.cq
      ensures e.userData != i
    {
      CqeAwaited(c, owner, p, e);
    }
  }

  /** What the only item of request `i` holds is all that request `i` holds. */
  lemma TokenHoldsAll(c: map<nat, CompletionEvent>, b: map<nat, Buffer>, p: Ring, place: map<nat, Place>, i: nat,
                      k: nat)
    requires PlacesOk(c, b, p, place) && i < |p.flight| && Alone(c, Without(p, i), p.flight[i].userData)
    requires k in place && place[k] == Held(p.flight[i].userData)
    ensures TokenHolds(p.flight[i]) == Some(k)
  {
    forall t | InStages(p, t) && t.userData == p.flight[i].userData
      ensures t == p.flight[i]
    {
      InFlight(p, i, t);
    }
    HoldsOneBuffer(c, b, p, place, p.flight[i].userData, k, TokenHolds(p.flight[i]));
  }

  lemma HeadHoldsAll(c: map<nat, CompletionEvent>, b: map<nat, Buffer>, p: Ring, place: map<nat, Place>, k: nat)
    requires PlacesOk(c, b, p, place) && p.cq != [] && Alone(c, p.(cq := p.cq[1..]), p.cq[0].userData)
    requires k in place && place[k] == Held(p.cq[0].userData)
    ensures CqeHolds(p.cq[0]) == Some(k)
  {
    var rest := p.(cq := p.cq[1..]);
    assert p.cq == [p.cq[0]] + p.cq[1..];
    forall t | InStages(p, t)
      ensures t.userData != p.cq[0].userData
    {
      assert InStages(rest, t);
    }
    HoldsOneBuffer(c, b, p, place, p.cq[0].userData, k, CqeHolds(p.cq[0]));
  }

  lemma SlotHoldsAll(c: map<nat, CompletionEvent>, b: map<nat, Buffer>, p: Ring, place: map<nat, Place>, i: nat, k: nat)
    requires PlacesOk(c, b, p, place) && i in c && c[i].cqe.Some? && Alone(c - {i}, p, i)
    requires k in place && place[k] == Held(i)
    ensures CqeHolds(c[i].cqe.value) == Some(k)
  {
    HoldsOneBuffer(c, b, p, place, i, k, CqeHolds(c[i].cqe.value));
  }

  // ------------------------------------------------------------------ completing an SQE

  /** The SQE turns into a CQE that holds what the SQE held. */
  lemma PostSame(c: map<nat, CompletionEvent>, b: map<nat, Buffer>, p: Ring, place: map<nat, Place>, i: nat, e: Cqe)
    requires PlacesOk(c, b, p, place) && i < |p.flight| && Alone(c, Without(p, i), p.flight[i].userData)
    requires e.userData == p.flight[i].userData && e.req == p.flight[i].req && CqeHolds(e) == TokenHolds(p.flight[i])
    requires e.req.op.Read? ==> e.res < 0
    ensures PlacesOk(c, b, Without(p, i).(cq := p.cq + [e]), place)
  {
    var t, q := p.flight[i], Without(p, i).(cq := p.cq + [e]);
    forall u | InStages(q, u)
      ensures TokenOk(b, place, u)
    {
      InFlight(p, i, u);
      assert InStages(Without(p, i), u);
    }
    InFlight(p, i, t);
    assert TokenOk(b, place, t);
    forall k | k in place
      ensures PlaceOk(c, q, place, k)
    {
      assert PlaceOk(c, p, place, k);
      if place[k].Held? {
        if place[k].cqid == t.userData {
          TokenHoldsAll(c, b, p, place, i, k);
          assert e in q.cq;
        } else {
          forall u | InStages(p, u) && u.userData == place[k].cqid
            ensures InStages(q, u)
          {
            InFlight(p, i, u);
            assert InStages(Without(p, i), u);
          }
          HolderStays(c, c, p, q, place[k].cqid, k);
        }
      }
    }
  }

  /** The kernel accepted the buffer of a provide. */
  lemma PostProvided(c: map<nat, CompletionEvent>, b: map<nat, Buffer>, p: Ring, place: map<nat, Place>, i: nat, e: Cqe)
    requires PlacesOk(c, b, p, place) && StoredNamed(c)
    requires i < |p.flight| && Alone(c, Without(p, i), p.flight[i].userData)
    requires p.flight[i].req.op.Provide? && e.userData == p.flight[i].userData && e.req == p.flight[i].req && e.res >= 0
    ensures var id := p.flight[i].req.op.bufid;
            PlacesOk(c, b, Without(p, i).(cq := p.cq + [e], pool := p.pool + {p.flight[i].bid}), place[id := InPool])
  {
    var t, id := p.flight[i], p.flight[i].req.op.bufid;
    var rest, q := Without(p, i), Without(p, i).(cq := p.cq + [e], pool := p.pool + {t.bid});
    var place' := place[id := InPool];
    InFlight(p, i, t);
    assert TokenOk(b, place, t);
    forall u | InStages(rest, u) ensures TokenOk(b, place, u) { InFlight(p, i, u); }
    OthersKeep(c, b, rest, place, t.userData, id, b, place');
    forall u | InStages(q, u) ensures TokenOk(b, place', u) { assert InStages(rest, u); }
    forall u | InStages(p, u) && u.userData != t.userData
      ensures InStages(q, u)
    {
      InFlight(p, i, u);
      assert InStages(rest, u);
    }
    forall k | k in place && k != id && place[k].Held?
      ensures place[k] != Held(t.userData)
    {
      if place[k] == Held(t.userData) { TokenHoldsAll(c, b, p, place, i, k); }
    }
    OtherPlaces(c, c, p, q, place, place', t.userData, id);
    assert PlaceOk(c, p, place, id);
  }

  /** A read took buffer `id` out of the pool and the kernel wrote into it. */
  lemma PostRead(c: map<nat, CompletionEvent>, b: map<nat, Buffer>, p: Ring, place: map<nat, Place>, i: nat, e: Cqe,
                 id: nat, written: Buffer)
    requires PlacesOk(c, b, p, place) && StoredNamed(c)
    requires i < |p.flight| && Alone(c, Without(p, i), p.flight[i].userData)
    requires p.flight[i].req.op.Read? && e.userData == p.flight[i].userData && e.req == p.flight[i].req
    requires e.bufId == Some(id) && id in p.pool
    requires e.res >= 0 ==> |e.payload| == e.res <= |written.data| && written.data[..e.res] == e.payload
    ensures PlacesOk(c, b[id := written], Without(p, i).(cq := p.cq + [e], pool := p.pool - {id}),
                     place[id := if e.res >= 0 then Held(e.userData) else Leaked])
  {
    var t := p.flight[i];
    var rest, q, b', place' := Without(p, i), Without(p, i).(cq := p.cq + [e], pool := p.pool - {id}), b[id := written],
                               place[id := if e.res >= 0 then Held(e.userData) else Leaked];
    assert PlaceOk(c, p, place, id);
    forall u | InStages(rest, u) ensures TokenOk(b, place, u) { InFlight(p, i, u); }
    OthersKeep(c, b, rest, place, t.userData, id, b', place');
    forall u | InStages(q, u) ensures TokenOk(b', place', u) { assert InStages(rest, u); }
    forall u | InStages(p, u) && u.userData != t.userData
      ensures InStages(q, u)
    {
      InFlight(p, i, u);
      assert InStages(rest, u);
    }
    forall k | k in place && k != id && place[k].Held?
      ensures place[k] != Held(t.userData)
    {
      if place[k] == Held(t.userData) { TokenHoldsAll(c, b, p, place, i, k); }
    }
    OtherPlaces(c, c, p, q, place, place', t.userData, id);
    assert e in q.cq;
  }

  // ------------------------------------------------------------------ delivering and releasing

  /** The oldest CQE moves into its completion slot, with the buffer it holds. */
  lemma StoreKeepsPlaces(c: map<nat, CompletionEvent>, b: map<nat, Buffer>, p: Ring, place: map<nat, Place>)
    requires PlacesOk(c, b, p, place) && p.cq != []
    requires Alone(c, p.(cq := p.cq[1..]), p.cq[0].userData) && p.cq[0].userData in c
    ensures var e := p.cq[0];
            PlacesOk(c[e.userData := c[e.userData].(cqe := Some(e))], b, p.(cq := p.cq[1..]), place)
  {
    var e := p.cq[0];
    var u, d, q := e.userData, c[e.userData := c[e.userData].(cqe := Some(e))], p.(cq := p.cq[1..]);
    assert p.cq == [e] + p.cq[1..];
    assert CqeOk(b, place, e);
    forall t | InStages(q, t) ensures TokenOk(b, place, t) { assert InStages(p, t); }
    forall j | j in d ensures StoredOk(d, b, place, j) { if j != u { assert StoredOk(c, b, place, j); } }
    forall k | k in place
      ensures PlaceOk(d, q, place, k)
    {
      assert PlaceOk(c, p, place, k);
      if place[k].Held? {
        if place[k].cqid == u {
          HeadHoldsAll(c, b, p, place, k);
          assert SlotHolder(d, u, k);
        } else {
          HolderStays(c, d, p, q, place[k].cqid, k);
        }
      }
    }
  }

  /**
   Slot `i` is freed. `h` is what its request held: nothing, or a buffer that is now taken out of the
   map or that nobody will ever take out.
   */
  lemma ReleaseKeeps(c: map<nat, CompletionEvent>, b: map<nat, Buffer>, p: Ring, q: Ring, place: map<nat, Place>,
                     i: nat, h: Option<nat>, b': map<nat, Buffer>, place': map<nat, Place>)
    requires PlacesOk(c, b, p, place) && StoredNamed(c) && Alone(c - {i}, q, i)
    requires (forall t :: InStages(p, t) <==> InStages(q, t)) && q.pool == p.pool
    requires forall e :: e in q.cq ==> e in p.cq
    requires forall e :: e in p.cq && e.userData != i ==> e in q.cq
    requires forall k | k in place && place[k] == Held(i) :: h == Some(k)
    requires h.Some? ==> h.value in place && place[h.value] == Held(i)
    requires if h.None? then b' == b && place' == place
             else
               || (b' == b - {h.value} && place' == place - {h.value})
               || (b' == b && place' == place[h.value := Leaked])
    ensures PlacesOk(c - {i}, b', q, place')
  {
    var d := c - {i};
    forall t | InStages(q, t) ensures TokenOk(b, place, t) { assert InStages(p, t); }
    forall j | j in d ensures StoredOk(d, b, place, j) { assert StoredOk(c, b, place, j); }
    if h.Some? {
      var id := h.value;
      OthersKeep(d, b, q, place, i, id, b', place');
      OtherPlaces(c, d, p, q, place, place', i, id);
      assert PlaceOk(c, p, place, id);
    } else {
      forall k | k in place
        ensures PlaceOk(d, q, place, k)
      {
        assert PlaceOk(c, p, place, k);
        if place[k].Held? { HolderStays(c, d, p, q, place[k].cqid, k); }
      }
    }
  }
}
