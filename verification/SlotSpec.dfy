/**
 The slot allocator of `stable_slotmap.rs` as a value: one flat sequence of entries, the head of
 the intrusive free list and the element count. `StableSlotmap` (StableSlotmap.dfy) is the
 imperative form; this module holds its specification functions and the facts about them.
 */
module SlotSpec {
  import opened Wrappers

  const SENTINEL: nat := 0xFFFF_FFFF_FFFF_FFFF
  const SLABSIZE: nat := 1024

  datatype Entry<+T> = Element(value: T) | Link(next: nat)

  datatype Slots<+T> = Slots(entries: seq<Entry<T>>, head: nat, size: nat)

  function Empty<T>(): Slots<T> {
    Slots([], SENTINEL, 0)
  }

  /** The entries of a new slab: each links to its successor, the last one to `head`. */
  function FreshSlab<T>(head: nat, base: nat): seq<Entry<T>> {
    seq(SLABSIZE, (i: nat) => if i < SLABSIZE - 1 then Link(base + i + 1) else Link(head))
  }

  function Expand<T>(s: Slots<T>): Slots<T> {
    Slots(s.entries + FreshSlab(s.head, |s.entries|), |s.entries|, s.size)
  }

  /** `next_slot`: a slab is added only when the free list is empty. */
  function Prepared<T>(s: Slots<T>): Slots<T> {
    if s.head == SENTINEL then Expand(s) else s
  }

  /** The head is the sentinel or names a free entry, so `insert` has something to unlink. */
  predicate HeadOk<T>(s: Slots<T>) {
    s.head == SENTINEL || (s.head < |s.entries| && s.entries[s.head].Link?)
  }

  function Insert<T>(s: Slots<T>, v: T): (Slots<T>, nat)
    requires HeadOk(s)
  {
    var p := Prepared(s);
    (Slots(p.entries[p.head := Element(v)], p.entries[p.head].next, p.size + 1), p.head)
  }

  predicate Occupied<T>(s: Slots<T>, k: nat) {
    k < |s.entries| && s.entries[k].Element?
  }

  function Get<T>(s: Slots<T>, k: nat): Option<T> {
    if Occupied(s, k) then Some(s.entries[k].value) else None
  }

  /** Overwrites the element in an occupied slot, as code does through `get_mut`. */
  function Put<T>(s: Slots<T>, k: nat, v: T): Slots<T>
    requires Occupied(s, k)
  {
    s.(entries := s.entries[k := Element(v)])
  }

  function Remove<T>(s: Slots<T>, k: nat): (Slots<T>, Option<T>) {
    if Occupied(s, k) then
      (Slots(s.entries[k := Link(s.head)], k, if s.size == 0 then 0 else s.size - 1), Some(s.entries[k].value))
    else
      (s, None)
  }

  /** The finite map that a slotmap stands for. */
  function Contents<T>(s: Slots<T>): map<nat, T> {
    map k | 0 <= k < |s.entries| && s.entries[k].Element? :: s.entries[k].value
  }

  predicate IsFree<T>(s: Slots<T>, k: nat) {
    k < |s.entries| && s.entries[k].Link?
  }

  /** Position `i` of the free list holds a free slot whose link leads to position `i + 1`. */
  predicate LinkAt<T>(s: Slots<T>, chain: seq<nat>, i: nat)
    requires i < |chain|
  {
    IsFree(s, chain[i]) && s.entries[chain[i]].next == if i + 1 < |chain| then chain[i + 1] else SENTINEL
  }

  /**
   `chain` is the free list: it starts at `head`, follows the links, ends at the sentinel, visits
   every `Link` entry exactly once, and together with the `size` elements fills the slabs.
   */
  ghost predicate FreeChain<T>(s: Slots<T>, chain: seq<nat>) {
    && |s.entries| <= SENTINEL
    && |s.entries| % SLABSIZE == 0
    && s.size + |chain| == |s.entries|
    && s.head == (if chain == [] then SENTINEL else chain[0])
    && (forall i | 0 <= i < |chain| :: LinkAt(s, chain, i))
    && (forall k: nat :: multiset(chain)[k] == if IsFree(s, k) then 1 else 0)
  }

  ghost predicate Valid<T>(s: Slots<T>) {
    exists chain :: FreeChain(s, chain)
  }

  ghost function AfterInsert<T>(s: Slots<T>, chain: seq<nat>): seq<nat> {
    if chain == [] then Interval(|s.entries|, SLABSIZE)[1..] else chain[1..]
  }

  /** The interval base, base + 1, ..., base + n - 1. */
  ghost function Interval(base: nat, n: nat): (r: seq<nat>)
    ensures |r| == n && forall i | 0 <= i < n :: r[i] == base + i
    ensures forall k: nat :: multiset(r)[k] == if base <= k < base + n then 1 else 0
  {
    if n == 0 then [] else Interval(base, n - 1) + [base + n - 1]
  }

  lemma ExpandKeepsChain<T>(s: Slots<T>)
    requires FreeChain(s, []) && |s.entries| + SLABSIZE <= SENTINEL
    ensures FreeChain(Expand(s), Interval(|s.entries|, SLABSIZE))
    ensures Contents(Expand(s)) == Contents(s)
  {
    hide Interval;
    var t, none: seq<nat> := Expand(s), [];
    forall k: nat | k < |s.entries|
      ensures !IsFree(t, k)
    {
      assert multiset(none)[k] == if IsFree(s, k) then 1 else 0;
    }
  }

  lemma HeadIsFree<T>(s: Slots<T>, chain: seq<nat>)
    requires FreeChain(s, chain)
    ensures HeadOk(s)
    ensures s.head == SENTINEL <==> s.size == |s.entries|
  {
    if chain != [] {
      assert LinkAt(s, chain, 0);
    }
  }

  lemma PopHead<T>(s: Slots<T>, chain: seq<nat>, v: T)
    requires FreeChain(s, chain) && chain != []
    ensures IsFree(s, s.head)
    ensures var t := Slots(s.entries[s.head := Element(v)], s.entries[s.head].next, s.size + 1);
            && FreeChain(t, chain[1..])
            && Contents(t) == Contents(s)[s.head := v]
  {
    assert LinkAt(s, chain, 0);
    assert chain == [chain[0]] + chain[1..];
    var t, rest := Slots(s.entries[s.head := Element(v)], s.entries[s.head].next, s.size + 1), chain[1..];
    forall k: nat
      ensures multiset(rest)[k] == if IsFree(t, k) then 1 else 0
    {
      assert multiset(chain)[k] == if IsFree(s, k) then 1 else 0;
    }
    forall i | 0 <= i < |rest|
      ensures LinkAt(t, rest, i)
    {
      assert LinkAt(s, chain, i + 1);
      assert rest[i] in multiset(rest);
    }
  }

  /** `insert` pops the free list and adds one fresh key to the map; all other keys stay. */
  lemma InsertRefines<T>(s: Slots<T>, chain: seq<nat>, v: T)
    requires FreeChain(s, chain) && |s.entries| + SLABSIZE <= SENTINEL
    ensures HeadOk(s)
    ensures var (t, k) := Insert(s, v);
            && k !in Contents(s)
            && Contents(t) == Contents(s)[k := v]
            && FreeChain(t, AfterInsert(s, chain))
            && t.size == s.size + 1
            && |t.entries| == if s.size == |s.entries| then |s.entries| + SLABSIZE else |s.entries|
  {
    if chain == [] {
      ExpandKeepsChain(s);
      PopHead(Expand(s), Interval(|s.entries|, SLABSIZE), v);
    } else {
      PopHead(s, chain, v);
    }
  }

  /** `remove` of an occupied key deletes exactly that key and pushes its slot on the free list. */
  lemma RemoveRefines<T>(s: Slots<T>, chain: seq<nat>, k: nat)
    requires FreeChain(s, chain)
    ensures var (t, r) := Remove(s, k);
            && r == (if k in Contents(s) then Some(Contents(s)[k]) else None)
            && Contents(t) == Contents(s) - {k}
            && FreeChain(t, if k in Contents(s) then [k] + chain else chain)
            && t.size == (if k in Contents(s) then s.size - 1 else s.size)
            && |t.entries| == |s.entries|
  {
    if Occupied(s, k) {
      SizeCountsElements(s, chain);
      assert k in Contents(s);
      var t, longer: seq<nat> := Remove(s, k).0, [k] + chain;
      forall i | 0 <= i < |longer|
        ensures LinkAt(t, longer, i)
      {
        if i > 0 {
          assert LinkAt(s, chain, i - 1);
        }
      }
      forall j: nat
        ensures multiset(longer)[j] == if IsFree(t, j) then 1 else 0
      {
        assert multiset(chain)[j] == if IsFree(s, j) then 1 else 0;
      }
    }
  }

  lemma PutRefines<T>(s: Slots<T>, chain: seq<nat>, k: nat, v: T)
    requires FreeChain(s, chain) && Occupied(s, k)
    ensures FreeChain(Put(s, k, v), chain)
    ensures Contents(Put(s, k, v)) == Contents(s)[k := v]
  {
    var t := Put(s, k, v);
    forall i | 0 <= i < |chain|
      ensures LinkAt(t, chain, i)
    {
      assert LinkAt(s, chain, i);
    }
    forall j: nat
      ensures multiset(chain)[j] == if IsFree(t, j) then 1 else 0
    {
      assert IsFree(t, j) == IsFree(s, j);
    }
  }

  ghost function FreeSet<T>(s: Slots<T>): set<nat> {
    set k | 0 <= k < |s.entries| && s.entries[k].Link?
  }

  lemma FreeCount<T>(s: Slots<T>, chain: seq<nat>)
    requires forall k: nat :: multiset(chain)[k] == if IsFree(s, k) then 1 else 0
    ensures |FreeSet(s)| == |chain|
  {
    assert multiset(chain) == multiset(FreeSet(s));
    assert |multiset(chain)| == |chain|;
    assert |multiset(FreeSet(s))| == |FreeSet(s)|;
  }

  /** `len` is the number of elements. */
  lemma SizeCountsElements<T>(s: Slots<T>, chain: seq<nat>)
    requires FreeChain(s, chain)
    ensures s.size == |Contents(s)|
  {
    FreeCount(s, chain);
    var keys, free := Contents(s).Keys, FreeSet(s);
    assert keys !! free;
    assert keys + free == Below(|s.entries|);
    BelowCount(|s.entries|);
  }

  ghost function Below(n: nat): (r: set<nat>)
    ensures forall k: nat :: k in r <==> k < n
  {
    if n == 0 then {} else Below(n - 1) + {n - 1}
  }

  lemma {:induction false} BelowCount(n: nat)
    ensures |Below(n)| == n
  {
    if n > 0 {
      BelowCount(n - 1);
    }
  }

  // ------------------------------------------------------------------ seen as a map

  lemma InsertAsMap<T>(s: Slots<T>, v: T)
    requires Valid(s) && |s.entries| + SLABSIZE <= SENTINEL
    ensures HeadOk(s)
    ensures var (t, k) := Insert(s, v);
            && Valid(t) && Occupied(t, k) && k !in Contents(s)
            && Contents(t) == Contents(s)[k := v]
            && |t.entries| == if s.size == |s.entries| then |s.entries| + SLABSIZE else |s.entries|
  {
    var chain :| FreeChain(s, chain);
    InsertRefines(s, chain, v);
    var t := Insert(s, v).0;
    assert FreeChain(t, AfterInsert(s, chain));
  }

  lemma RemoveAsMap<T>(s: Slots<T>, k: nat)
    requires Valid(s)
    ensures var (t, r) := Remove(s, k);
            && Valid(t) && |t.entries| == |s.entries|
            && r == (if k in Contents(s) then Some(Contents(s)[k]) else None)
            && Contents(t) == Contents(s) - {k}
  {
    var chain :| FreeChain(s, chain);
    RemoveRefines(s, chain, k);
    assert FreeChain(Remove(s, k).0, if k in Contents(s) then [k] + chain else chain);
  }

  /** The free list is a stack: the next insert gets the key that was removed last, and nothing else changes. */
  lemma FreedKeyIsNext<T>(s: Slots<T>, k: nat, v: T)
    requires Valid(s) && Occupied(s, k)
    ensures HeadOk(Remove(s, k).0) && Insert(Remove(s, k).0, v) == (Put(s, k, v), k)
  {
    var chain :| FreeChain(s, chain);
    SizeCountsElements(s, chain);
    assert k in Contents(s);
    assert s.entries[k := Link(s.head)][k := Element(v)] == s.entries[k := Element(v)];
  }

  lemma PutAsMap<T>(s: Slots<T>, k: nat, v: T)
    requires Valid(s) && Occupied(s, k)
    ensures Valid(Put(s, k, v)) && |Put(s, k, v).entries| == |s.entries|
    ensures Contents(Put(s, k, v)) == Contents(s)[k := v]
  {
    var chain :| FreeChain(s, chain);
    PutRefines(s, chain, k, v);
    assert FreeChain(Put(s, k, v), chain);
  }

  lemma ValidFacts<T>(s: Slots<T>)
    requires Valid(s)
    ensures HeadOk(s) && s.size == |Contents(s)| && |s.entries| % SLABSIZE == 0 && |s.entries| <= SENTINEL
    ensures s.size <= |s.entries|
    ensures forall k :: Occupied(s, k) <==> k in Contents(s)
    ensures forall k | k in Contents(s) :: s.entries[k].value == Contents(s)[k] && k < |s.entries|
  {
    var chain :| FreeChain(s, chain);
    HeadIsFree(s, chain);
    SizeCountsElements(s, chain);
  }

  lemma EmptyIsValid<T>()
    ensures Valid(Empty<T>()) && Contents(Empty<T>()) == map[]
  {
    assert FreeChain(Empty<T>(), []);
  }

  // ------------------------------------------------------------------ whole runs

  datatype Call<T> = InsertCall(value: T) | RemoveCall(key: nat)

  /** A run so far: the slotmap, its free list, a plain map fed the same calls, and the largest size. */
  datatype Trace<T> = Trace(slots: Slots<T>, chain: seq<nat>, mirror: map<nat, T>, peak: nat)

  ghost predicate RunOk<T>(r: Trace<T>) {
    && FreeChain(r.slots, r.chain)
    && Contents(r.slots) == r.mirror
    && r.slots.size == |r.mirror| <= r.peak
    && |r.slots.entries| < r.peak + SLABSIZE
  }

  ghost function StepRun<T>(r: Trace<T>, c: Call<T>): Trace<T>
    requires HeadOk(r.slots)
  {
    match c
    case InsertCall(v) =>
      var (t, k) := Insert(r.slots, v);
      var m := r.mirror[k := v];
      Trace(t, AfterInsert(r.slots, r.chain), m, if |m| > r.peak then |m| else r.peak)
    case RemoveCall(k) =>
      Trace(Remove(r.slots, k).0, if k in r.mirror then [k] + r.chain else r.chain, r.mirror - {k}, r.peak)
  }

  ghost function Replay<T>(calls: seq<Call<T>>): Trace<T>
  {
    if calls == [] then Trace(Empty(), [], map[], 0)
    else
      var r := Replay(calls[..|calls| - 1]);
      if HeadOk(r.slots) then StepRun(r, calls[|calls| - 1]) else r
  }

  lemma StepKeepsRun<T>(r: Trace<T>, c: Call<T>)
    requires RunOk(r) && r.peak + 2 * SLABSIZE <= SENTINEL
    ensures HeadOk(r.slots) && RunOk(StepRun(r, c))
    ensures c.InsertCall? ==> Insert(r.slots, c.value).1 !in r.mirror
  {
    HeadIsFree(r.slots, r.chain);
    var t := StepRun(r, c);
    match c {
      case InsertCall(v) => InsertRefines(r.slots, r.chain, v);
      case RemoveCall(k) => RemoveRefines(r.slots, r.chain, k);
    }
    SizeCountsElements(t.slots, t.chain);
  }

  /**
   After any sequence of calls the slotmap equals the map fed the same calls, every insert key was
   fresh, the free list is exact, and the slabs hold fewer than `peak + 1024` slots.
   */
  lemma {:induction false} ReplayRefinesMap<T>(calls: seq<Call<T>>)
    requires |calls| + 2 * SLABSIZE <= SENTINEL
    ensures var r := Replay(calls);
            && RunOk(r)
            && HeadOk(r.slots)
            && r.peak <= |calls|
    ensures calls != [] && calls[|calls| - 1].InsertCall? ==>
              var before := Replay(calls[..|calls| - 1]);
              HeadOk(before.slots) && Insert(before.slots, calls[|calls| - 1].value).1 !in before.mirror
  {
    if calls == [] {
      assert Contents(Empty<T>()) == map[];
    } else {
      ReplayRefinesMap(calls[..|calls| - 1]);
      StepKeepsRun(Replay(calls[..|calls| - 1]), calls[|calls| - 1]);
      HeadIsFree(Replay(calls).slots, Replay(calls).chain);
    }
  }

  /** The bound is tight: `peak` is a size that the map really had. */
  lemma {:induction false} PeakIsAttained<T>(calls: seq<Call<T>>)
    ensures exists n :: 0 <= n <= |calls| && |Replay(calls[..n]).mirror| == Replay(calls).peak
  {
    assert calls[..|calls|] == calls;
    if calls == [] {
      assert |Replay(calls[..0]).mirror| == Replay(calls).peak;
    } else {
      var prefix := calls[..|calls| - 1];
      PeakIsAttained(prefix);
      var n :| 0 <= n <= |prefix| && |Replay(prefix[..n]).mirror| == Replay(prefix).peak;
      assert prefix[..n] == calls[..n];
    }
  }
}
