/**
 Buffer ownership: every occupied buffer slot is in exactly one place - with one request, in the
 kernel's pool, or leaked - and whoever holds it finds in it what it should.
 */
module ExecutorPlaces {
  import opened Wrappers
  import opened FixedVecs
  import opened Executor
  import opened ExecutorRouting

  /** A buffer on its way to the kernel keeps its bytes, has length zero, and its id fits 16 bits. */
  ghost predicate TokenOk(b: map<nat, Buffer>, place: map<nat, Place>, t: Token) {
    t.req.op.Provide? ==>
      var id := t.req.op.bufid;
      && id in b && id in place && place[id] == Held(t.userData)
      && b[id] == Buffer(t.req.op.original.data, 0)
      && t.bid == id
  }

  /** A CQE that carries a buffer holds it; a read's buffer starts with what the kernel wrote. */
  ghost predicate CqeOk(b: map<nat, Buffer>, place: map<nat, Place>, e: Cqe) {
    && (e.req.op.Read? && e.res >= 0 ==>
          && e.bufId.Some? && e.bufId.value in b && e.bufId.value in place && place[e.bufId.value] == Held(e.userData)
          && |e.payload| == e.res <= |b[e.bufId.value].data|
          && b[e.bufId.value].data[..e.res] == e.payload)
    && (e.req.op.Provide? && e.res < 0 ==>
          var id := e.req.op.bufid;
          && id in b && id in place && place[id] == Held(e.userData)
          && b[id] == Buffer(e.req.op.original.data, 0))
  }

  ghost predicate StoredOk(c: map<nat, CompletionEvent>, b: map<nat, Buffer>, place: map<nat, Place>, i: nat)
    requires i in c
  {
    c[i].cqe.Some? ==> CqeOk(b, place, c[i].cqe.value)
  }

  ghost predicate TokenHolder(p: Ring, i: nat, id: nat) {
    exists t :: InStages(p, t) && t.userData == i && TokenHolds(t) == Some(id)
  }

  ghost predicate CqeHolder(p: Ring, i: nat, id: nat) {
    exists e :: e in p.cq && e.userData == i && CqeHolds(e) == Some(id)
  }

  ghost predicate SlotHolder(c: map<nat, CompletionEvent>, i: nat, id: nat) {
    i in c && c[i].cqe.Some? && CqeHolds(c[i].cqe.value) == Some(id)
  }

  /** Request `i` really has buffer `id`: as an SQE, as a CQE, or in its completion slot. */
  ghost predicate HasHolder(c: map<nat, CompletionEvent>, p: Ring, i: nat, id: nat) {
    TokenHolder(p, i, id) || CqeHolder(p, i, id) || SlotHolder(c, i, id)
  }

  /** Where slot `id` is said to be is where it is. */
  ghost predicate PlaceOk(c: map<nat, CompletionEvent>, p: Ring, place: map<nat, Place>, id: nat)
    requires id in place
  {
    && id <= U16_MAX
    && (place[id].InPool? <==> id in p.pool)
    && (place[id].Held? ==> HasHolder(c, p, place[id].cqid, id))
  }

  ghost predicate PlacesOk(c: map<nat, CompletionEvent>, b: map<nat, Buffer>, p: Ring, place: map<nat, Place>) {
    && place.Keys == b.Keys
    && p.pool <= place.Keys
    && (forall t | InStages(p, t) :: TokenOk(b, place, t))
    && (forall e | e in p.cq :: CqeOk(b, place, e))
    && (forall i | i in c :: StoredOk(c, b, place, i))
    && (forall id | id in place :: PlaceOk(c, p, place, id))
  }

  /** Same items in flight, same pool. */
  ghost predicate SameItems(p: Ring, q: Ring) {
    && (forall t :: InStages(p, t) <==> InStages(q, t))
    && q.cq == p.cq && q.pool == p.pool
  }

  lemma PlacesStay(c: map<nat, CompletionEvent>, d: map<nat, CompletionEvent>, b: map<nat, Buffer>, p: Ring, q: Ring,
                   place: map<nat, Place>)
    requires PlacesOk(c, b, p, place) && SameItems(p, q)
    requires forall i | i in c :: i in d && d[i].cqe == c[i].cqe
    requires forall i | i in d && i !in c :: d[i].cqe.None?
    ensures PlacesOk(d, b, q, place)
  {
    forall t | InStages(q, t)
      ensures TokenOk(b, place, t)
    {
      assert InStages(p, t);
    }
    forall i | i in d
      ensures StoredOk(d, b, place, i)
    {
      if i in c { assert StoredOk(c, b, place, i); }
    }
    forall id | id in place
      ensures PlaceOk(d, q, place, id)
    {
      assert PlaceOk(c, p, place, id);
      if place[id].Held? { HolderStays(c, d, p, q, place[id].cqid, id); }
    }
  }

  lemma HolderStays(c: map<nat, CompletionEvent>, d: map<nat, CompletionEvent>, p: Ring, q: Ring, i: nat, id: nat)
    requires HasHolder(c, p, i, id)
    requires forall t :: InStages(p, t) && t.userData == i ==> InStages(q, t)
    requires forall e :: e in p.cq && e.userData == i ==> e in q.cq
    requires i in c && c[i].cqe.Some? ==> i in d && d[i].cqe == c[i].cqe
    ensures HasHolder(d, q, i, id)
  {
    if TokenHolder(p, i, id) {
      var t :| InStages(p, t) && t.userData == i && TokenHolds(t) == Some(id);
      assert InStages(q, t);
    } else if CqeHolder(p, i, id) {
      var e :| e in p.cq && e.userData == i && CqeHolds(e) == Some(id);
      assert e in q.cq;
    }
  }

  /** A new request that brings no buffer. */
  lemma PlainCreateKeeps(c: map<nat, CompletionEvent>, b: map<nat, Buffer>, p: Ring, place: map<nat, Place>, t: Token,
                         ce: CompletionEvent)
    requires PlacesOk(c, b, p, place) && p.prep == [] && !t.req.op.Provide? && t.userData !in c && ce.cqe.None?
    ensures PlacesOk(c[t.userData := ce], b, p.(prep := [t]), place)
  {
    var d, q := c[t.userData := ce], p.(prep := [t]);
    forall u | InStages(q, u)
      ensures TokenOk(b, place, u)
    {
      if u != t { assert InStages(p, u); }
    }
    forall i | i in d
      ensures StoredOk(d, b, place, i)
    {
      if i != t.userData { assert StoredOk(c, b, place, i); }
    }
    forall id | id in place
      ensures PlaceOk(d, q, place, id)
    {
      assert PlaceOk(c, p, place, id);
      if place[id].Held? { HolderStays(c, d, p, q, place[id].cqid, id); }
    }
  }

  /** A buffer offered to the kernel gets a fresh slot, held by the new request. */
  lemma ProvideCreateKeeps(c: map<nat, CompletionEvent>, b: map<nat, Buffer>, p: Ring, place: map<nat, Place>, t: Token,
                           ce: CompletionEvent)
    requires PlacesOk(c, b, p, place) && p.prep == [] && t.req.op.Provide? && t.userData !in c && ce.cqe.None?
    requires t.req.op.bufid !in b && t.bid == t.req.op.bufid <= U16_MAX
    ensures PlacesOk(c[t.userData := ce], b[t.bid := Buffer(t.req.op.original.data, 0)], p.(prep := [t]),
                     place[t.bid := Held(t.userData)])
  {
    var d, q, b', place' := c[t.userData := ce], p.(prep := [t]), b[t.bid := Buffer(t.req.op.original.data, 0)],
                            place[t.bid := Held(t.userData)];
    forall u | InStages(q, u)
      ensures TokenOk(b', place', u)
    {
      if u != t { assert InStages(p, u) && TokenOk(b, place, u); }
    }
    forall e | e in q.cq
      ensures CqeOk(b', place', e)
    {
      assert CqeOk(b, place, e);
    }
    forall i | i in d
      ensures StoredOk(d, b', place', i)
    {
      if i != t.userData { assert StoredOk(c, b, place, i); }
    }
    forall id | id in place'
      ensures PlaceOk(d, q, place', id)
    {
      if id == t.bid {
        assert InStages(q, t) && TokenHolds(t) == Some(id);
      } else {
        assert PlaceOk(c, p, place, id);
        if place[id].Held? { HolderStays(c, d, p, q, place[id].cqid, id); }
      }
    }
  }

  /** What is known of an item once no other one carries request `i`'s id. */
  ghost predicate Alone(c: map<nat, CompletionEvent>, p: Ring, i: nat) {
    && (forall t | InStages(p, t) :: t.userData != i)
    && (forall e | e in p.cq :: e.userData != i)
    && (i in c ==> c[i].cqe.None?)
  }

  ghost predicate StoredNamed(c: map<nat, CompletionEvent>) {
    forall i | i in c :: c[i].cqe.Some? ==> c[i].cqe.value.userData == i
  }

  /**
   One buffer slot changes hands. Before, it was with request `i`, which no longer has any item, or in
   the pool; everything that does not concern it stays in order.
   */
  lemma OthersKeep(c: map<nat, CompletionEvent>, b: map<nat, Buffer>, p: Ring, place: map<nat, Place>, i: nat, id: nat,
                   b': map<nat, Buffer>, place': map<nat, Place>)
    requires (forall t | InStages(p, t) :: TokenOk(b, place, t)) && (forall e | e in p.cq :: CqeOk(b, place, e))
    requires (forall j | j in c :: StoredOk(c, b, place, j)) && StoredNamed(c)
    requires Alone(c, p, i) && id in place && (place[id].Held? ==> place[id] == Held(i))
    requires b' - {id} == b - {id} && place' - {id} == place - {id}
    ensures (forall t | InStages(p, t) :: TokenOk(b', place', t)) && (forall e | e in p.cq :: CqeOk(b', place', e))
    ensures forall j | j in c :: StoredOk(c, b', place', j)
  {
    assert forall k | k != id :: (k in b <==> k in b - {id}) && (k in b' <==> k in b' - {id});
    assert forall k | k != id :: (k in place <==> k in place - {id}) && (k in place' <==> k in place' - {id});
    assert forall k | k != id && k in b :: (b - {id})[k] == b[k] && (b' - {id})[k] == b'[k];
    assert forall k | k != id && k in place :: (place - {id})[k] == place[k] && (place' - {id})[k] == place'[k];
    forall t | InStages(p, t)
      ensures TokenOk(b', place', t)
    {
      assert TokenOk(b, place, t);
    }
    forall e | e in p.cq
      ensures CqeOk(b', place', e)
    {
      assert CqeOk(b, place, e);
    }
    forall j | j in c
      ensures StoredOk(c, b', place', j)
    {
      assert StoredOk(c, b, place, j);
    }
  }

  /** The places of all other buffers survive when only items of request `i` disappear. */
  lemma OtherPlaces(c: map<nat, CompletionEvent>, d: map<nat, CompletionEvent>, p: Ring, q: Ring,
                    place: map<nat, Place>, place': map<nat, Place>, i: nat, id: nat)
    requires forall k | k in place :: PlaceOk(c, p, place, k)
    requires place' - {id} == place - {id} && p.pool - {id} == q.pool - {id}
    requires forall k | k in place && k != id && place[k].Held? :: place[k] != Held(i)
    requires forall t :: InStages(p, t) && t.userData != i ==> InStages(q, t)
    requires forall e :: e in p.cq && e.userData != i ==> e in q.cq
    requires forall j | j in c && j != i && c[j].cqe.Some? :: j in d && d[j].cqe == c[j].cqe
    ensures forall k | k in place' && k != id :: PlaceOk(d, q, place', k)
  {
    forall k | k in place' && k != id
      ensures PlaceOk(d, q, place', k)
    {
      assert k in place' - {id} && k in place && place'[k] == place[k];
      assert PlaceOk(c, p, place, k);
      assert k in p.pool <==> k in p.pool - {id};
      assert k in q.pool <==> k in q.pool - {id};
      if place[k].Held? { HolderStays(c, d, p, q, place[k].cqid, k); }
    }
  }

  /** A request that holds `id` holds nothing else. */
  lemma HoldsOneBuffer(c: map<nat, CompletionEvent>, b: map<nat, Buffer>, p: Ring, place: map<nat, Place>, i: nat,
                       k: nat, h: Option<nat>)
    requires PlacesOk(c, b, p, place) && k in place && place[k] == Held(i)
    requires forall t | InStages(p, t) && t.userData == i :: TokenHolds(t) == h
    requires forall e | e in p.cq && e.userData == i :: CqeHolds(e) == h
    requires i in c && c[i].cqe.Some? ==> CqeHolds(c[i].cqe.value) == h
    ensures h == Some(k)
  {
    assert PlaceOk(c, p, place, k);
  }
}
