/**
 `dedup_partial` of `dedup.rs`: duplicates are dropped with the help of a 128-entry cache that holds
 pointers into the part of the vector already settled, and that evicts instead of growing. The two
 hash functions are parameters; as functions of the value they agree on equal values.
 */
module Dedup {
  import opened Wrappers

  const TABLE: nat := 128

  /**
   The loop state: the vector, the index `i`, and for every table entry the settled position that it
   points to. `slots` is history: the table entry that each settled position was written to.
   */
  datatype State<T> = State(data: seq<T>, i: nat, table: seq<Option<nat>>, slots: seq<nat>)

  predicate Shape<T>(s: State<T>) {
    s.i <= |s.data| && |s.table| == TABLE && forall k | 0 <= k < TABLE :: s.table[k].Some? ==> s.table[k].value < s.i
  }

  function SwapRemove<T>(data: seq<T>, i: nat): seq<T>
    requires i < |data|
  {
    data[i := data[|data| - 1]][..|data| - 1]
  }

  /** `ptr_cmp`. */
  predicate Points<T(==)>(s: State<T>, k: nat, value: T)
    requires Shape(s) && k < TABLE
  {
    s.table[k].Some? && s.data[s.table[k].value] == value
  }

  /** The entry that a kept value goes to: a free one of its two, else one picked by parity. */
  function Pick<T>(s: State<T>, k1: nat, k2: nat): nat
    requires Shape(s) && k1 < TABLE && k2 < TABLE
  {
    if s.table[k1].None? then k1 else if s.table[k2].None? then k2 else if s.i % 2 == 0 then k1 else k2
  }

  function Iterate<T(==)>(s: State<T>, h1: T -> nat, h2: T -> nat): (t: State<T>)
    requires Shape(s) && s.i < |s.data|
    ensures Shape(t) && |t.data| - t.i == |s.data| - s.i - 1
    ensures |s.slots| == s.i ==> |t.slots| == t.i
  {
    var value := s.data[s.i];
    var k1, k2 := h1(value) % TABLE, h2(value) % TABLE;
    if Points(s, k1, value) || Points(s, k2, value) then
      s.(data := SwapRemove(s.data, s.i))
    else
      var k := Pick(s, k1, k2);
      State(s.data, s.i + 1, s.table[k := Some(s.i)], s.slots + [k])
  }

  function Start<T>(data: seq<T>): State<T> {
    State(data, 0, seq(TABLE, _ => None), [])
  }

  function Scan<T(==)>(s: State<T>, h1: T -> nat, h2: T -> nat): State<T>
    requires Shape(s)
    decreases |s.data| - s.i
  {
    if s.i == |s.data| then s else Scan(Iterate(s, h1, h2), h1, h2)
  }

  /** A growable vector. */
  class Vec<T(==)> {
    var items: seq<T>

    constructor (items: seq<T>)
      ensures this.items == items
    {
      this.items := items;
    }

    method RemoveBySwap(i: nat)
      requires i < |items|
      modifies this
      ensures |items| == |old(items)| - 1 && items[..i] == old(items)[..i]
      ensures forall k | i <= k < |items| ::
                items[k] == if k == i then old(items)[|items|] else old(items)[k]
      ensures multiset(items) == multiset(old(items)) - multiset{old(items)[i]}
      ensures items == SwapRemove(old(items), i)
    {
      SwapRemoveCounts(items, i);
      items := items[i := items[|items| - 1]][..|items| - 1];
    }

    /** The loop, with the table on the stack. */
    method DedupPartial(h1: T -> nat, h2: T -> nat)
      modifies this
      ensures items == Scan(Start(old(items)), h1, h2).data
    {
      var table: array<Option<nat>> := new Option<nat>[TABLE](_ => None);
      var i := 0;
      ghost var slots: seq<nat> := [];
      assert State(items, i, table[..], slots) == Start(items);
      while i < |items|
        invariant Shape(State(items, i, table[..], slots))
        invariant Scan(Start(old(items)), h1, h2) == Scan(State(items, i, table[..], slots), h1, h2)
        modifies this, table
        decreases |items| - i
      {
        ghost var s := State(items, i, table[..], slots);
        var value := items[i];
        var k1, k2 := h1(value) % TABLE, h2(value) % TABLE;
        if (table[k1].Some? && items[table[k1].value] == value)
           || (table[k2].Some? && items[table[k2].value] == value)
        {
          RemoveBySwap(i);
        } else {
          slots := slots + [Pick(s, k1, k2)];
          if table[k1].None? {
            table[k1] := Some(i);
          } else if table[k2].None? {
            table[k2] := Some(i);
          } else if i % 2 == 0 {
            table[k1] := Some(i);
          } else {
            table[k2] := Some(i);
          }
          i := i + 1;
        }
        assert State(items, i, table[..], slots) == Iterate(s, h1, h2);
      }
    }
  }

  /** A table entry points to the last settled position that was written to it. */
  ghost predicate LastWriter<T>(s: State<T>, k: nat)
    requires Shape(s) && |s.slots| == s.i && k < TABLE
  {
    match s.table[k]
    case None => forall r | 0 <= r < s.i :: s.slots[r] != k
    case Some(p) => s.slots[p] == k && forall r | p < r < s.i :: s.slots[r] != k
  }

  /** Two settled equal values are separated by a settled value that took the earlier one's entry. */
  ghost predicate Evicted<T>(data: seq<T>, slots: seq<nat>, p: nat, q: nat)
    requires p < q < |slots|
  {
    exists r :: p < r < q && slots[r] == slots[p]
  }

  ghost predicate Settled<T>(s: State<T>, h1: T -> nat, h2: T -> nat) {
    && Shape(s) && |s.slots| == s.i
    && (forall k | 0 <= k < TABLE :: LastWriter(s, k))
    && (forall p | 0 <= p < s.i :: s.slots[p] == h1(s.data[p]) % TABLE || s.slots[p] == h2(s.data[p]) % TABLE)
    && (forall p, q | 0 <= p < q < s.i && s.data[p] == s.data[q] :: Evicted(s.data, s.slots, p, q))
  }

  lemma SwapRemoveCounts<T>(data: seq<T>, i: nat)
    requires i < |data|
    ensures multiset(SwapRemove(data, i)) == multiset(data) - multiset{data[i]}
  {
    var last := |data| - 1;
    assert data == data[..last] + [data[last]];
    if i < last {
      assert SwapRemove(data, i) == data[..last][i := data[last]];
    } else {
      assert SwapRemove(data, i) == data[..last];
    }
  }

  lemma SwapRemoveMembers<T>(data: seq<T>, i: nat, p: nat)
    requires p < i < |data| && data[p] == data[i]
    ensures forall x :: x in SwapRemove(data, i) <==> x in data
  {
    var last, r := |data| - 1, SwapRemove(data, i);
    assert forall k | 0 <= k < last :: r[k] == if k == i then data[last] else data[k];
    forall x | x in data
      ensures x in r
    {
      var k :| 0 <= k < |data| && data[k] == x;
      var j := if k == i then p else if k == last then i else k;
      assert r[j] == x;
    }
  }

  lemma KeepSettles<T>(s: State<T>, h1: T -> nat, h2: T -> nat)
    requires Settled(s, h1, h2) && s.i < |s.data|
    requires Iterate(s, h1, h2).i == s.i + 1
    ensures Settled(Iterate(s, h1, h2), h1, h2)
  {
    var t, value := Iterate(s, h1, h2), s.data[s.i];
    var k1, k2 := h1(value) % TABLE, h2(value) % TABLE;
    assert !Points(s, k1, value) && !Points(s, k2, value);
    forall k | 0 <= k < TABLE
      ensures LastWriter(t, k)
    {
      assert LastWriter(s, k);
    }
    forall p, q | 0 <= p < q < t.i && t.data[p] == t.data[q]
      ensures Evicted(t.data, t.slots, p, q)
    {
      if q < s.i {
        assert Evicted(s.data, s.slots, p, q);
        var r :| p < r < q && s.slots[r] == s.slots[p];
        assert t.slots[r] == t.slots[p];
      } else {
        var k := s.slots[p];
        assert LastWriter(s, k);
        var r := s.table[k].value;
        assert t.slots[r] == t.slots[p];
      }
    }
  }

  lemma RemoveSettles<T>(s: State<T>, h1: T -> nat, h2: T -> nat)
    requires Settled(s, h1, h2) && s.i < |s.data|
    requires Iterate(s, h1, h2).i == s.i
    ensures Settled(Iterate(s, h1, h2), h1, h2)
  {
    var t := Iterate(s, h1, h2);
    assert forall p | 0 <= p < s.i :: t.data[p] == s.data[p];
    forall k | 0 <= k < TABLE
      ensures LastWriter(t, k)
    {
      assert LastWriter(s, k);
    }
    forall p, q | 0 <= p < q < t.i && t.data[p] == t.data[q]
      ensures Evicted(t.data, t.slots, p, q)
    {
      assert Evicted(s.data, s.slots, p, q);
    }
  }

  ghost predicate SameValues<T(!new)>(a: seq<T>, b: seq<T>) {
    && (forall x :: x in a <==> x in b)
    && multiset(a) <= multiset(b)
  }

  lemma {:induction false} ScanSettles<T(!new)>(s: State<T>, h1: T -> nat, h2: T -> nat)
    requires Settled(s, h1, h2)
    ensures var t := Scan(s, h1, h2);
            Settled(t, h1, h2) && t.i == |t.data| && SameValues(t.data, s.data)
    decreases |s.data| - s.i
  {
    if s.i < |s.data| {
      var t, value := Iterate(s, h1, h2), s.data[s.i];
      if t.i == s.i {
        var k1, k2 := h1(value) % TABLE, h2(value) % TABLE;
        var k := if Points(s, k1, value) then k1 else k2;
        SwapRemoveCounts(s.data, s.i);
        SwapRemoveMembers(s.data, s.i, s.table[k].value);
        RemoveSettles(s, h1, h2);
      } else {
        KeepSettles(s, h1, h2);
      }
      ScanSettles(t, h1, h2);
    }
  }

  /**
   For every input and every pair of hash functions: no value appears or disappears, nothing gains
   copies, no two neighbours are equal, and two equal values both survive only if a value kept between
   them took over the table entry of the earlier one.
   */
  lemma DedupPartialCorrect<T(!new)>(data: seq<T>, h1: T -> nat, h2: T -> nat)
    ensures var t := Scan(Start(data), h1, h2);
            && SameValues(t.data, data)
            && (forall p | 0 <= p < |t.data| - 1 :: t.data[p] != t.data[p + 1])
            && |t.slots| == |t.data|
            && (forall p, q | 0 <= p < q < |t.data| && t.data[p] == t.data[q] :: Evicted(t.data, t.slots, p, q))
            && (forall p | 0 <= p < |t.data| ::
                  t.slots[p] == h1(t.data[p]) % TABLE || t.slots[p] == h2(t.data[p]) % TABLE)
  {
    assert Settled(Start(data), h1, h2);
    ScanSettles(Start(data), h1, h2);
    var t := Scan(Start(data), h1, h2);
    forall p | 0 <= p < |t.data| - 1
      ensures t.data[p] != t.data[p + 1]
    {
      assert t.data[p] == t.data[p + 1] ==> Evicted(t.data, t.slots, p, p + 1);
    }
  }

  /** Some position before `r` was written to entry `k`. */
  ghost predicate InUse(slots: seq<nat>, r: nat, k: nat)
    requires r <= |slots|
  {
    exists q :: 0 <= q < r && slots[q] == k
  }

  /**
   Where the value kept at position `r` goes: to the first of its two entries that is not in use, and if
   both are, to one of them by parity.
   */
  ghost predicate PlacedByRule<T>(data: seq<T>, slots: seq<nat>, h1: T -> nat, h2: T -> nat, r: nat)
    requires r < |slots| && r < |data|
  {
    var k1, k2 := h1(data[r]) % TABLE, h2(data[r]) % TABLE;
    slots[r] == if !InUse(slots, r, k1) then k1
                else if !InUse(slots, r, k2) then k2
                else if r % 2 == 0 then k1 else k2
  }

  ghost predicate AllByRule<T>(s: State<T>, h1: T -> nat, h2: T -> nat) {
    |s.slots| == s.i <= |s.data| && forall r | 0 <= r < s.i :: PlacedByRule(s.data, s.slots, h1, h2, r)
  }

  lemma InUsePrefix(a: seq<nat>, b: seq<nat>, r: nat, k: nat)
    requires r <= |a|
    ensures InUse(a + b, r, k) <==> InUse(a, r, k)
  {
    if InUse(a, r, k) {
      var q :| 0 <= q < r && a[q] == k;
      assert (a + b)[q] == k;
    }
  }

  lemma EntryInUse<T>(s: State<T>, k: nat)
    requires Shape(s) && |s.slots| == s.i && k < TABLE && LastWriter(s, k)
    ensures s.table[k].Some? <==> InUse(s.slots, s.i, k)
  {
  }

  lemma StepKeepsRule<T>(s: State<T>, h1: T -> nat, h2: T -> nat)
    requires Settled(s, h1, h2) && AllByRule(s, h1, h2) && s.i < |s.data|
    ensures AllByRule(Iterate(s, h1, h2), h1, h2)
  {
    var t, value := Iterate(s, h1, h2), s.data[s.i];
    var k1, k2 := h1(value) % TABLE, h2(value) % TABLE;
    EntryInUse(s, k1);
    EntryInUse(s, k2);
    forall r | 0 <= r < t.i
      ensures PlacedByRule(t.data, t.slots, h1, h2, r)
    {
      assert t.data[r] == s.data[r];
      if t.i > s.i {
        var added := [Pick(s, k1, k2)];
        InUsePrefix(s.slots, added, r, h1(t.data[r]) % TABLE);
        InUsePrefix(s.slots, added, r, h2(t.data[r]) % TABLE);
      }
      if r < s.i { assert PlacedByRule(s.data, s.slots, h1, h2, r); }
    }
  }

  lemma {:induction false} ScanKeepsRule<T(!new)>(s: State<T>, h1: T -> nat, h2: T -> nat)
    requires Settled(s, h1, h2) && AllByRule(s, h1, h2)
    ensures AllByRule(Scan(s, h1, h2), h1, h2)
    decreases |s.data| - s.i
  {
    if s.i < |s.data| {
      hide Settled, AllByRule, Iterate;
      StepKeepsRule(s, h1, h2);
      IterateSettles(s, h1, h2);
      ScanKeepsRule(Iterate(s, h1, h2), h1, h2);
    }
  }

  lemma IterateSettles<T(!new)>(s: State<T>, h1: T -> nat, h2: T -> nat)
    requires Settled(s, h1, h2) && s.i < |s.data|
    ensures Settled(Iterate(s, h1, h2), h1, h2)
  {
    if Iterate(s, h1, h2).i == s.i { RemoveSettles(s, h1, h2); } else { KeepSettles(s, h1, h2); }
  }

  /**
   The table of every scan, told by its result alone: every kept value went to the entry that the rule
   gives it. So an entry in use is taken over only by a value both of whose entries are in use.
   */
  lemma EntriesByRule<T(!new)>(data: seq<T>, h1: T -> nat, h2: T -> nat)
    ensures var t := Scan(Start(data), h1, h2);
            && |t.slots| == |t.data|
            && (forall r | 0 <= r < |t.data| :: PlacedByRule(t.data, t.slots, h1, h2, r))
            && (forall p, r | 0 <= p < r < |t.data| && t.slots[p] == t.slots[r] ::
                  InUse(t.slots, r, h1(t.data[r]) % TABLE) && InUse(t.slots, r, h2(t.data[r]) % TABLE))
  {
    assert Settled(Start(data), h1, h2);
    ScanSettles(Start(data), h1, h2);
    ScanKeepsRule(Start(data), h1, h2);
    var t := Scan(Start(data), h1, h2);
    forall p, r | 0 <= p < r < |t.data| && t.slots[p] == t.slots[r]
      ensures InUse(t.slots, r, h1(t.data[r]) % TABLE) && InUse(t.slots, r, h2(t.data[r]) % TABLE)
    {
      assert PlacedByRule(t.data, t.slots, h1, h2, r);
      assert InUse(t.slots, r, t.slots[r]);
    }
  }

  ghost predicate Distinct<T>(data: seq<T>) {
    forall p, q | 0 <= p < q < |data| :: data[p] != data[q]
  }

  /** Nothing is removed, and nothing moves, where there is nothing to remove. */
  lemma {:induction false} DistinctUnchanged<T>(s: State<T>, h1: T -> nat, h2: T -> nat)
    requires Shape(s) && Distinct(s.data)
    ensures Scan(s, h1, h2).data == s.data
    decreases |s.data| - s.i
  {
    if s.i < |s.data| {
      DistinctUnchanged(Iterate(s, h1, h2), h1, h2);
    }
  }

  /** Different values of the input never compete for a table entry. */
  ghost predicate CollisionFree<T>(data: seq<T>, h1: T -> nat, h2: T -> nat) {
    forall x, y | x in data && y in data && x != y ::
      && h1(x) % TABLE != h1(y) % TABLE && h1(x) % TABLE != h2(y) % TABLE && h2(x) % TABLE != h2(y) % TABLE
  }

  lemma {:induction false} NoTwin<T(!new)>(t: State<T>, h1: T -> nat, h2: T -> nat, p: nat, q: nat)
    requires Settled(t, h1, h2) && CollisionFree(t.data, h1, h2) && p < q < t.i
    ensures t.data[p] != t.data[q]
    decreases q
  {
    if t.data[p] == t.data[q] {
      assert Evicted(t.data, t.slots, p, q);
      var r :| p < r < q && t.slots[r] == t.slots[p];
      assert t.data[r] in t.data && t.data[p] in t.data;
      NoTwin(t, h1, h2, p, r);
    }
  }

  /** On an input whose different values do not collide, every duplicate is removed. */
  lemma CollisionFreeNoDuplicates<T(!new)>(data: seq<T>, h1: T -> nat, h2: T -> nat)
    requires CollisionFree(data, h1, h2)
    ensures var t := Scan(Start(data), h1, h2);
            forall p, q | 0 <= p < q < |t.data| :: t.data[p] != t.data[q]
  {
    assert Settled(Start(data), h1, h2);
    ScanSettles(Start(data), h1, h2);
    var t := Scan(Start(data), h1, h2);
    assert forall x | x in t.data :: x in data;
    forall p, q | 0 <= p < q < |t.data|
      ensures t.data[p] != t.data[q]
    {
      NoTwin(t, h1, h2, p, q);
    }
  }

  // ------------------------------------------------------------------ exactly which copies survive

  /** No value kept later has taken over the table entry of settled position `p`. */
  ghost predicate Current<T>(s: State<T>, p: nat)
    requires p < |s.slots|
  {
    forall r | p < r < |s.slots| :: s.slots[r] != s.slots[p]
  }

  /** The table still knows a copy of the value that is looked at. */
  ghost predicate Recalls<T>(s: State<T>)
    requires Shape(s) && |s.slots| == s.i < |s.data|
  {
    exists p :: 0 <= p < s.i && s.data[p] == s.data[s.i] && Current(s, p)
  }

  /** A value is removed exactly if a copy of it was kept whose table entry nobody has taken since. */
  lemma RemovedIff<T>(s: State<T>, h1: T -> nat, h2: T -> nat)
    requires Settled(s, h1, h2) && s.i < |s.data|
    ensures Iterate(s, h1, h2).i == s.i <==> Recalls(s)
  {
    var value := s.data[s.i];
    var k1, k2 := h1(value) % TABLE, h2(value) % TABLE;
    assert LastWriter(s, k1) && LastWriter(s, k2);
    if Points(s, k1, value) {
      assert Current(s, s.table[k1].value);
    } else if Points(s, k2, value) {
      assert Current(s, s.table[k2].value);
    }
  }

  /** How often the scan looks at `x` when it no longer, or not yet, knows a copy. */
  ghost function Misses<T>(s: State<T>, h1: T -> nat, h2: T -> nat, x: T): nat
    requires Shape(s) && |s.slots| == s.i
    decreases |s.data| - s.i
  {
    if s.i == |s.data| then 0
    else (if s.data[s.i] == x && !Recalls(s) then 1 else 0) + Misses(Iterate(s, h1, h2), h1, h2, x)
  }

  lemma {:induction false} CopiesFrom<T(!new)>(s: State<T>, h1: T -> nat, h2: T -> nat, x: T)
    requires Settled(s, h1, h2)
    ensures multiset(Scan(s, h1, h2).data)[x] == multiset(s.data[..s.i])[x] + Misses(s, h1, h2, x)
    decreases |s.data| - s.i
  {
    hide Recalls;
    if s.i == |s.data| {
      assert s.data[..s.i] == s.data;
    } else {
      var t := Iterate(s, h1, h2);
      RemovedIff(s, h1, h2);
      if t.i == s.i {
        assert t.data[..t.i] == s.data[..s.i];
        RemoveSettles(s, h1, h2);
      } else {
        assert t.data[..t.i] == s.data[..s.i] + [s.data[s.i]];
        KeepSettles(s, h1, h2);
      }
      CopiesFrom(t, h1, h2, x);
    }
  }

  /** For every input and every value: as many copies survive as there are looks at it that find no copy. */
  lemma CopiesExact<T(!new)>(data: seq<T>, h1: T -> nat, h2: T -> nat, x: T)
    ensures multiset(Scan(Start(data), h1, h2).data)[x] == Misses(Start(data), h1, h2, x)
  {
    assert Settled(Start(data), h1, h2);
    CopiesFrom(Start(data), h1, h2, x);
  }

  /** Whenever the scan looks at `x` after having kept a copy, the table still knows one. */
  ghost predicate Remembers<T>(s: State<T>, h1: T -> nat, h2: T -> nat, x: T)
    requires Shape(s) && |s.slots| == s.i
    decreases |s.data| - s.i
  {
    s.i < |s.data| ==>
      (s.data[s.i] == x && x in s.data[..s.i] ==> Recalls(s)) && Remembers(Iterate(s, h1, h2), h1, h2, x)
  }

  lemma {:induction false} RemembersIff<T(!new)>(s: State<T>, h1: T -> nat, h2: T -> nat, x: T)
    requires Settled(s, h1, h2)
    ensures Remembers(s, h1, h2, x) <==> Misses(s, h1, h2, x) <= if x in s.data[..s.i] then 0 else 1
    decreases |s.data| - s.i
  {
    hide Iterate;
    if s.i < |s.data| {
      var t := Iterate(s, h1, h2);
      StepFacts(s, h1, h2);
      RemembersIff(t, h1, h2, x);
    }
  }

  lemma StepFacts<T(!new)>(s: State<T>, h1: T -> nat, h2: T -> nat)
    requires Settled(s, h1, h2) && s.i < |s.data|
    ensures var t := Iterate(s, h1, h2);
            && Settled(t, h1, h2)
            && t.data[..t.i] == s.data[..s.i] + if Recalls(s) then [] else [s.data[s.i]]
    ensures Recalls(s) ==> s.data[s.i] in s.data[..s.i]
  {
    RemovedIff(s, h1, h2);
    var t := Iterate(s, h1, h2);
    if t.i == s.i { RemoveSettles(s, h1, h2); } else { KeepSettles(s, h1, h2); }
    if Recalls(s) {
      var p :| 0 <= p < s.i && s.data[p] == s.data[s.i] && Current(s, p);
      assert s.data[..s.i][p] == s.data[s.i];
    }
  }

  /**
   The documented guarantee, made exact: of a value of the input, neighbouring copies included, just one
   copy is left if and only if the table remembers it at every later look.
   */
  lemma OneCopyIff<T(!new)>(data: seq<T>, h1: T -> nat, h2: T -> nat, x: T)
    requires x in data
    ensures multiset(Scan(Start(data), h1, h2).data)[x] == 1 <==> Remembers(Start(data), h1, h2, x)
  {
    assert Settled(Start(data), h1, h2);
    CopiesExact(data, h1, h2, x);
    RemembersIff(Start(data), h1, h2, x);
    ScanSettles(Start(data), h1, h2);
  }

  lemma {:induction false} DistinctIff<T(!new)>(data: seq<T>)
    ensures Distinct(data) <==> forall x | x in data :: multiset(data)[x] == 1
  {
    if data != [] {
      var init, last := data[..|data| - 1], data[|data| - 1];
      assert data == init + [last];
      DistinctIff(init);
      if Distinct(data) {
        assert Distinct(init);
        assert last !in init;
      } else if forall x | x in data :: multiset(data)[x] == 1 {
        assert multiset(data)[last] == 1;
        assert last !in init;
        forall x | x in init
          ensures multiset(init)[x] == 1
        {
          assert x in data && multiset(data)[x] == 1;
        }
      }
    }
  }

  /** All duplicates go, for every input, if and only if no value of it is ever forgotten. */
  lemma NoDuplicatesIff<T(!new)>(data: seq<T>, h1: T -> nat, h2: T -> nat)
    ensures Distinct(Scan(Start(data), h1, h2).data) <==> forall x | x in data :: Remembers(Start(data), h1, h2, x)
  {
    hide Remembers;
    assert Settled(Start(data), h1, h2);
    ScanSettles(Start(data), h1, h2);
    var t := Scan(Start(data), h1, h2);
    DistinctIff(t.data);
    assert forall x :: x in t.data <==> x in data;
    forall x | x in data
      ensures multiset(t.data)[x] == 1 <==> Remembers(Start(data), h1, h2, x)
    {
      OneCopyIff(data, h1, h2, x);
    }
  }

  /** What is assumed of the hash functions in the example. */
  ghost predicate WordHashes(h1: int -> nat, h2: int -> nat, a: nat, b: nat) {
    (forall v | v % 128 == 0 :: h1(v) % TABLE == a && h2(v) % TABLE == b) && a != b
  }

  /**
   `Vec::dedup` is not subsumed: `swap_remove` reorders, so neighbours of the input can end up apart
   and both survive an eviction. The hashes are such as fxhash has for words: their low bits come from the
   low bits of the word, and the two entries of a word differ. 0 0 128 0 256 256 becomes 0 256 128 0 256.
   */
  lemma InputNeighboursMaySurvive(h1: int -> nat, h2: int -> nat, a: nat, b: nat)
    requires WordHashes(h1, h2, a, b)
    ensures Scan(Start([0, 0, 128, 0, 256, 256]), h1, h2).data == [0, 256, 128, 0, 256]
    ensures !Remembers(Start([0, 0, 128, 0, 256, 256]), h1, h2, 256)
  {
    hide Scan, Remembers, Settled, Iterate;
    var data := [0, 0, 128, 0, 256, 256];
    var s1 := FirstLooks(h1, h2, a, b);
    var s3 := MiddleLooks(s1, h1, h2, a, b);
    LaterLooks(s3, h1, h2, a, b);
    OneCopyIff(data, h1, h2, 256);
    assert data[4] == 256;
    assert Scan(Start(data), h1, h2).data == [0, 256, 128] + [0, 256];
  }

  lemma FirstLooks(h1: int -> nat, h2: int -> nat, a: nat, b: nat) returns (s: State<int>)
    requires WordHashes(h1, h2, a, b)
    ensures Shape(s) && Scan(Start([0, 0, 128, 0, 256, 256]), h1, h2) == Scan(s, h1, h2)
    ensures a < TABLE && b < TABLE
    ensures s.data == [0, 256, 128, 0, 256] && s.i == 1 && s.table[a] == Some(0) && s.table[b] == None
  {
    hide Scan;
    assert h1(0) % TABLE == a && h2(0) % TABLE == b;
    var s0 := Start([0, 0, 128, 0, 256, 256]);
    var s1 := Iterate(s0, h1, h2);
    s := Iterate(s1, h1, h2);
    ScanUnfolds(s0, h1, h2);
    ScanUnfolds(s1, h1, h2);
  }

  lemma MiddleLooks(s: State<int>, h1: int -> nat, h2: int -> nat, a: nat, b: nat) returns (t: State<int>)
    requires WordHashes(h1, h2, a, b) && a < TABLE && b < TABLE && Shape(s)
    requires s.data == [0, 256, 128, 0, 256] && s.i == 1 && s.table[a] == Some(0) && s.table[b] == None
    ensures Shape(t) && Scan(s, h1, h2) == Scan(t, h1, h2)
    ensures t.data == s.data && t.i == 3 && t.table[a] == Some(2) && t.table[b] == Some(1)
  {
    hide Scan;
    assert h1(128) % TABLE == h1(256) % TABLE == a;
    assert h2(128) % TABLE == h2(256) % TABLE == b;
    var s1 := Iterate(s, h1, h2);
    t := Iterate(s1, h1, h2);
    ScanUnfolds(s, h1, h2);
    ScanUnfolds(s1, h1, h2);
  }

  lemma LaterLooks(s: State<int>, h1: int -> nat, h2: int -> nat, a: nat, b: nat)
    requires WordHashes(h1, h2, a, b) && a < TABLE && b < TABLE && Shape(s)
    requires s.data == [0, 256, 128, 0, 256] && s.i == 3
    requires s.table[a] == Some(2) && s.table[b] == Some(1)
    ensures Scan(s, h1, h2).data == s.data
  {
    hide Scan;
    assert h1(0) % TABLE == h1(256) % TABLE == a;
    assert h2(0) % TABLE == h2(256) % TABLE == b;
    var s1 := Iterate(s, h1, h2);
    var s2 := Iterate(s1, h1, h2);
    ScanUnfolds(s, h1, h2);
    ScanUnfolds(s1, h1, h2);
    ScanEnds(s2, h1, h2);
  }

  lemma ScanEnds<T>(s: State<T>, h1: T -> nat, h2: T -> nat)
    requires Shape(s) && s.i == |s.data|
    ensures Scan(s, h1, h2) == s
  {
  }

  lemma ScanUnfolds<T>(s: State<T>, h1: T -> nat, h2: T -> nat)
    requires Shape(s) && s.i < |s.data|
    ensures Scan(s, h1, h2) == Scan(Iterate(s, h1, h2), h1, h2)
  {
  }
}
