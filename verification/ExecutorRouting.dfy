/**
 Completion routing: the ids travelling between the program and the kernel are exactly the occupied
 completion slots without a CQE, each once, each still owned by the request that sent it.
 */
module ExecutorRouting {
  import opened Wrappers
  import opened Executor

  datatype Key = Key(cqid: nat, req: Request)

  function TokenKeys(ts: seq<Token>): (r: seq<Key>)
    ensures |r| == |ts| && forall i | 0 <= i < |r| :: r[i] == Key(ts[i].userData, ts[i].req)
  {
    seq(|ts|, (i: nat) requires i < |ts| => Key(ts[i].userData, ts[i].req))
  }

  function CqeKeys(es: seq<Cqe>): (r: seq<Key>)
    ensures |r| == |es| && forall i | 0 <= i < |r| :: r[i] == Key(es[i].userData, es[i].req)
  {
    seq(|es|, (i: nat) requires i < |es| => Key(es[i].userData, es[i].req))
  }

  /** All requests on their way, with multiplicity. */
  ghost function Pipeline(p: Ring): multiset<Key> {
    multiset(TokenKeys(p.prep)) + multiset(TokenKeys(p.batch)) + multiset(TokenKeys(p.sq))
    + multiset(TokenKeys(p.abandoned)) + multiset(TokenKeys(p.flight)) + multiset(CqeKeys(p.cq))
  }

  predicate InStages(p: Ring, t: Token) {
    t in p.prep || t in p.batch || t in p.sq || t in p.abandoned || t in p.flight
  }

  /** Slot `k.cqid` waits for a CQE on behalf of request `k.req`. */
  ghost predicate Awaits(c: map<nat, CompletionEvent>, owner: map<nat, Request>, k: Key) {
    k.cqid in c && c[k.cqid].cqe.None? && k.cqid in owner && owner[k.cqid] == k.req
  }

  ghost predicate RoutingOk(c: map<nat, CompletionEvent>, owner: map<nat, Request>, p: Ring) {
    && c.Keys == owner.Keys
    && forall k: Key :: Pipeline(p)[k] == if Awaits(c, owner, k) then 1 else 0
  }

  lemma TokenKeysAppend(a: seq<Token>, b: seq<Token>)
    ensures multiset(TokenKeys(a + b)) == multiset(TokenKeys(a)) + multiset(TokenKeys(b))
  {
    assert TokenKeys(a + b) == TokenKeys(a) + TokenKeys(b);
  }

  lemma CqeKeysAppend(a: seq<Cqe>, b: seq<Cqe>)
    ensures multiset(CqeKeys(a + b)) == multiset(CqeKeys(a)) + multiset(CqeKeys(b))
  {
    assert CqeKeys(a + b) == CqeKeys(a) + CqeKeys(b);
  }

  lemma SingleToken(t: Token)
    ensures multiset(TokenKeys([t])) == multiset{Key(t.userData, t.req)}
  {
    assert TokenKeys([t]) == [Key(t.userData, t.req)];
  }

  lemma SingleCqe(e: Cqe)
    ensures multiset(CqeKeys([e])) == multiset{Key(e.userData, e.req)}
  {
    assert CqeKeys([e]) == [Key(e.userData, e.req)];
  }

  lemma InPipeline(p: Ring, t: Token)
    requires InStages(p, t)
    ensures Pipeline(p)[Key(t.userData, t.req)] > 0
  {
    forall ts: seq<Token> | t in ts
      ensures Key(t.userData, t.req) in multiset(TokenKeys(ts))
    {
      var i :| 0 <= i < |ts| && ts[i] == t;
      assert TokenKeys(ts)[i] == Key(t.userData, t.req);
    }
  }

  lemma CqeInPipeline(p: Ring, e: Cqe)
    requires e in p.cq
    ensures Pipeline(p)[Key(e.userData, e.req)] > 0
  {
    var i :| 0 <= i < |p.cq| && p.cq[i] == e;
    assert CqeKeys(p.cq)[i] == Key(e.userData, e.req);
  }

  lemma TokenAwaited(c: map<nat, CompletionEvent>, owner: map<nat, Request>, p: Ring, t: Token)
    requires RoutingOk(c, owner, p) && InStages(p, t)
    ensures Awaits(c, owner, Key(t.userData, t.req))
  {
    InPipeline(p, t);
  }

  lemma CqeAwaited(c: map<nat, CompletionEvent>, owner: map<nat, Request>, p: Ring, e: Cqe)
    requires RoutingOk(c, owner, p) && e in p.cq
    ensures Awaits(c, owner, Key(e.userData, e.req))
  {
    CqeInPipeline(p, e);
  }

  /** Once one request's item is taken out, nothing else on its way carries its id. */
  lemma OnlyOne(c: map<nat, CompletionEvent>, owner: map<nat, Request>, p: Ring, rest: Ring, k: Key)
    requires RoutingOk(c, owner, p) && Pipeline(p) == Pipeline(rest) + multiset{k}
    ensures forall t | InStages(rest, t) :: t.userData != k.cqid
    ensures forall e | e in rest.cq :: e.userData != k.cqid
  {
    assert Pipeline(p)[k] == if Awaits(c, owner, k) then 1 else 0;
    forall t | InStages(rest, t)
      ensures t.userData != k.cqid
    {
      InPipeline(rest, t);
      assert Pipeline(p)[Key(t.userData, t.req)] == if Awaits(c, owner, Key(t.userData, t.req)) then 1 else 0;
    }
    forall e | e in rest.cq
      ensures e.userData != k.cqid
    {
      CqeInPipeline(rest, e);
      assert Pipeline(p)[Key(e.userData, e.req)] == if Awaits(c, owner, Key(e.userData, e.req)) then 1 else 0;
    }
  }

  // ------------------------------------------------------------------ moves between stages

  lemma FillMoves(p: Ring)
    requires |p.prep| == 1
    ensures Pipeline(p.(prep := p.prep[1..], batch := p.batch + [p.prep[0]])) == Pipeline(p)
  {
    TokenKeysAppend(p.batch, [p.prep[0]]);
    assert p.prep == [p.prep[0]] && p.prep[1..] == [];
    assert multiset(TokenKeys([])) == multiset{};
  }

  lemma SubmitMoves(p: Ring, n: nat)
    ensures Pipeline(p.(sq := p.sq + p.batch, batch := [], unsubmitted := n)) == Pipeline(p)
  {
    TokenKeysAppend(p.sq, p.batch);
    assert multiset(TokenKeys([])) == multiset{};
  }

  lemma AbandonMoves(p: Ring)
    ensures Pipeline(p.(abandoned := p.abandoned + p.batch, batch := [])) == Pipeline(p)
  {
    TokenKeysAppend(p.abandoned, p.batch);
    assert multiset(TokenKeys([])) == multiset{};
  }

  lemma TakeMoves(p: Ring)
    requires p.sq != []
    ensures Pipeline(p.(sq := p.sq[1..], flight := p.flight + [p.sq[0]])) == Pipeline(p)
  {
    TokenKeysAppend(p.flight, [p.sq[0]]);
    TokenKeysAppend([p.sq[0]], p.sq[1..]);
    assert p.sq == [p.sq[0]] + p.sq[1..];
  }

  lemma WithoutFlight(p: Ring, i: nat)
    requires i < |p.flight|
    ensures Pipeline(p) == Pipeline(p.(flight := p.flight[..i] + p.flight[i + 1..]))
                           + multiset{Key(p.flight[i].userData, p.flight[i].req)}
  {
    TokenKeysAppend(p.flight[..i], [p.flight[i]] + p.flight[i + 1..]);
    TokenKeysAppend([p.flight[i]], p.flight[i + 1..]);
    TokenKeysAppend(p.flight[..i], p.flight[i + 1..]);
    SingleToken(p.flight[i]);
    assert p.flight == p.flight[..i] + ([p.flight[i]] + p.flight[i + 1..]);
  }

  lemma WithCqe(p: Ring, e: Cqe)
    ensures Pipeline(p.(cq := p.cq + [e])) == Pipeline(p) + multiset{Key(e.userData, e.req)}
  {
    CqeKeysAppend(p.cq, [e]);
    SingleCqe(e);
  }

  lemma PostMoves(p: Ring, i: nat, e: Cqe)
    requires i < |p.flight| && e.userData == p.flight[i].userData && e.req == p.flight[i].req
    ensures Pipeline(p.(flight := p.flight[..i] + p.flight[i + 1..], cq := p.cq + [e])) == Pipeline(p)
  {
    WithoutFlight(p, i);
    WithCqe(p.(flight := p.flight[..i] + p.flight[i + 1..]), e);
  }

  lemma WithoutHead(p: Ring)
    requires p.cq != []
    ensures Pipeline(p) == Pipeline(p.(cq := p.cq[1..])) + multiset{Key(p.cq[0].userData, p.cq[0].req)}
  {
    CqeKeysAppend([p.cq[0]], p.cq[1..]);
    SingleCqe(p.cq[0]);
    assert p.cq == [p.cq[0]] + p.cq[1..];
  }

  // ------------------------------------------------------------------ what keeps routing

  /** Changing neither the awaiting slots nor the pipeline keeps routing. */
  lemma RoutingStays(c: map<nat, CompletionEvent>, d: map<nat, CompletionEvent>, owner: map<nat, Request>, p: Ring,
                     q: Ring)
    requires RoutingOk(c, owner, p) && Pipeline(q) == Pipeline(p)
    requires c.Keys == d.Keys && forall i | i in c :: c[i].cqe.None? == d[i].cqe.None?
    ensures RoutingOk(d, owner, q)
  {
    hide Pipeline;
    forall k: Key
      ensures Pipeline(q)[k] == if Awaits(d, owner, k) then 1 else 0
    {
      assert Awaits(c, owner, k) == Awaits(d, owner, k);
      assert Pipeline(p)[k] == if Awaits(c, owner, k) then 1 else 0;
    }
  }

  lemma RoutingAdds(c: map<nat, CompletionEvent>, owner: map<nat, Request>, p: Ring, t: Token, ce: CompletionEvent)
    requires RoutingOk(c, owner, p) && p.prep == [] && t.userData !in c && ce.cqe.None?
    ensures RoutingOk(c[t.userData := ce], owner[t.userData := t.req], p.(prep := [t]))
  {
    var q, key := p.(prep := [t]), Key(t.userData, t.req);
    SingleToken(t);
    assert multiset(TokenKeys(p.prep)) == multiset{};
    assert Pipeline(q) == Pipeline(p) + multiset{key};
    hide Pipeline;
    forall k: Key
      ensures Pipeline(q)[k] == if Awaits(c[t.userData := ce], owner[t.userData := t.req], k) then 1 else 0
    {
      assert Pipeline(p)[k] == if Awaits(c, owner, k) then 1 else 0;
    }
  }

  /** Handling the oldest CQE: its slot gets the CQE, or is freed, and nothing else changes. */
  lemma RoutingDelivers(c: map<nat, CompletionEvent>, d: map<nat, CompletionEvent>, owner: map<nat, Request>,
                        owner': map<nat, Request>, p: Ring)
    requires RoutingOk(c, owner, p) && p.cq != []
    requires var u := p.cq[0].userData;
             || (d == c - {u} && owner' == owner - {u})
             || (u in c && d.Keys == c.Keys && d[u].cqe.Some? && (forall i | i in c && i != u :: d[i] == c[i])
                 && owner' == owner)
    ensures RoutingOk(d, owner', p.(cq := p.cq[1..]))
  {
    var e, q := p.cq[0], p.(cq := p.cq[1..]);
    WithoutHead(p);
    CqeAwaited(c, owner, p, e);
    hide Pipeline;
    forall k: Key
      ensures Pipeline(q)[k] == if Awaits(d, owner', k) then 1 else 0
    {
      assert Pipeline(p)[k] == if Awaits(c, owner, k) then 1 else 0;
      assert Pipeline(p)[k] == Pipeline(q)[k] + multiset{Key(e.userData, e.req)}[k];
    }
  }

  lemma RoutingForgets(c: map<nat, CompletionEvent>, owner: map<nat, Request>, p: Ring, i: nat)
    requires RoutingOk(c, owner, p) && i in c && c[i].cqe.Some?
    ensures RoutingOk(c - {i}, owner - {i}, p)
  {
    hide Pipeline;
    forall k: Key
      ensures Pipeline(p)[k] == if Awaits(c - {i}, owner - {i}, k) then 1 else 0
    {
      assert Pipeline(p)[k] == if Awaits(c, owner, k) then 1 else 0;
    }
  }
}
