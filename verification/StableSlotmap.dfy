/**
 `StableSlotmap` of `stable_slotmap.rs` in its own form: a growing list of heap-allocated slabs that
 are updated in place and never replaced. Every method is proved against the functions of `SlotSpec`.
 */
module StableSlotmaps {
  import opened Wrappers
  import opened SlotSpec

  lemma SlotIndex(i: nat, slabs: nat)
    requires i < slabs * SLABSIZE
    ensures i / SLABSIZE < slabs && i % SLABSIZE < SLABSIZE
  {
  }

  /** `create_slab`: fills the array link by link. */
  method CreateSlab<T>(head: nat, base: nat) returns (slab: array<Entry<T>>)
    ensures fresh(slab) && slab.Length == SLABSIZE
    ensures slab[..] == FreshSlab(head, base)
  {
    slab := new Entry<T>[SLABSIZE](_ => Link(head));
    for i := 0 to SLABSIZE - 1
      invariant forall j | 0 <= j < i :: slab[j] == Link(base + j + 1)
      invariant forall j | i <= j < SLABSIZE :: slab[j] == Link(head)
    {
      slab[i] := Link(base + i + 1);
    }
  }

  ghost predicate ShapeOf<T>(slabs: seq<array<Entry<T>>>) {
    && (forall a | 0 <= a < |slabs| :: slabs[a].Length == SLABSIZE)
    && (forall a, b | 0 <= a < b < |slabs| :: slabs[a] != slabs[b])
  }

  /** All entries in index order: entry `i` lives in slab `i / 1024` at offset `i % 1024`. */
  ghost function FlatOf<T>(slabs: seq<array<Entry<T>>>): (r: seq<Entry<T>>)
    requires ShapeOf(slabs)
    reads slabs
    ensures |r| == |slabs| * SLABSIZE
    ensures forall i | 0 <= i < |r| :: i / SLABSIZE < |slabs| && r[i] == slabs[i / SLABSIZE][i % SLABSIZE]
  {
    seq(|slabs| * SLABSIZE, (i: nat) requires i < |slabs| * SLABSIZE reads slabs =>
      SlotIndex(i, |slabs|); slabs[i / SLABSIZE][i % SLABSIZE])
  }

  /** The free list is exact and the slabs hold fewer than `peak + 1024` slots. */
  ghost predicate Accounted<T>(m: Slots<T>, chain: seq<nat>, peak: nat) {
    FreeChain(m, chain) && m.size <= peak && |m.entries| < peak + SLABSIZE
  }

  ghost function NewPeak<T>(m: Slots<T>, peak: nat): nat {
    if m.size > peak then m.size else peak
  }

  /** A slab is added only when every slot is occupied, so an insert keeps the tight bound. */
  lemma InsertKeepsAccount<T>(m: Slots<T>, chain: seq<nat>, peak: nat, v: T)
    requires Accounted(m, chain, peak) && |m.entries| + SLABSIZE <= SENTINEL
    ensures HeadOk(m)
    ensures var t := SlotSpec.Insert(m, v).0; Accounted(t, AfterInsert(m, chain), NewPeak(t, peak))
  {
    InsertRefines(m, chain, v);
  }

  lemma RemoveKeepsAccount<T>(m: Slots<T>, chain: seq<nat>, peak: nat, k: nat)
    requires Accounted(m, chain, peak) && Occupied(m, k)
    ensures m.size > 0 && Accounted(SlotSpec.Remove(m, k).0, [k] + chain, peak)
  {
    RemoveRefines(m, chain, k);
    SizeCountsElements(m, chain);
    assert k in Contents(m);
  }

  class StableSlotmap<T> {
    var slabs: seq<array<Entry<T>>>
    var head: nat
    var size: nat
    ghost var chain: seq<nat>
    ghost var peak: nat

    ghost predicate Shape()
      reads `slabs, slabs
    {
      ShapeOf(slabs)
    }

    ghost function Flat(): seq<Entry<T>>
      requires Shape()
      reads `slabs, slabs
    {
      FlatOf(slabs)
    }

    ghost function Model(): Slots<T>
      requires Shape()
      reads `slabs, `head, `size, slabs
    {
      Slots(Flat(), head, size)
    }

    ghost predicate Valid()
      reads this, slabs
    {
      Shape() && Accounted(Model(), chain, peak)
    }

    constructor ()
      ensures Valid() && Model() == Empty() && peak == 0
    {
      slabs, head, size := [], SENTINEL, 0;
      chain, peak := [], 0;
    }

    method SlotAt(index: nat) returns (r: Option<Entry<T>>)
      requires Shape()
      ensures r == if index < |Flat()| then Some(Flat()[index]) else None
    {
      if index / SLABSIZE < |slabs| {
        r := Some(slabs[index / SLABSIZE][index % SLABSIZE]);
      } else {
        r := None;
      }
    }

    /** Writing through `slot_at_mut` changes one flat entry and nothing else. */
    method SetSlot(index: nat, e: Entry<T>)
      requires Shape() && index < |Flat()|
      modifies slabs
      ensures Shape() && Flat() == old(Flat())[index := e]
    {
      slabs[index / SLABSIZE][index % SLABSIZE] := e;
      forall i | 0 <= i < |Flat()|
        ensures Flat()[i] == old(Flat())[index := e][i]
      {
        if i != index {
          assert i / SLABSIZE != index / SLABSIZE || i % SLABSIZE != index % SLABSIZE;
        }
      }
    }

    method Expand()
      requires Shape()
      modifies `slabs, `head
      ensures Shape() && Model() == SlotSpec.Expand(old(Model()))
      ensures |slabs| == |old(slabs)| + 1 && old(slabs) == slabs[..|old(slabs)|] && fresh(slabs[|old(slabs)|])
      ensures unchanged(old(slabs))
    {
      var base := |slabs| * SLABSIZE;
      ghost var flat := Flat();
      var slab := CreateSlab(head, base);
      slabs := slabs + [slab];
      head := base;
      forall i | 0 <= i < |Flat()|
        ensures Flat()[i] == (flat + slab[..])[i]
      {
        if i >= base {
          assert i / SLABSIZE == |slabs| - 1;
        }
      }
    }

    method NextSlot() returns (index: nat)
      requires Shape() && HeadOk(Model())
      modifies `slabs, `head
      ensures Shape() && Model() == Prepared(old(Model())) && index == head && IsFree(Model(), head)
      ensures old(slabs) <= slabs && unchanged(old(slabs))
      ensures forall a | |old(slabs)| <= a < |slabs| :: fresh(slabs[a])
    {
      if head == SENTINEL {
        Expand();
      }
      index := head;
    }

    /** Unlinks the free slot at `head` and stores `value` in it. */
    method TakeHead(value: T)
      requires Shape() && IsFree(Model(), head)
      modifies `head, `size, slabs
      ensures Shape()
      ensures var m := old(Model());
              Model() == Slots(m.entries[m.head := Element(value)], m.entries[m.head].next, m.size + 1)
    {
      var index := head;
      var entry := SlotAt(index);
      SetSlot(index, Element(value));
      head := entry.value.next;
      size := size + 1;
    }

    /**
     `insert`. The address space bounds the number of slots, so one more slab must fit below the
     sentinel. Slabs already allocated stay where they are.
     */
    method Insert(value: T) returns (index: nat)
      requires Valid() && |slabs| * SLABSIZE + SLABSIZE <= SENTINEL
      modifies this, slabs
      ensures Valid() && old(slabs) <= slabs
      ensures forall a | |old(slabs)| <= a < |slabs| :: fresh(slabs[a])
      ensures HeadOk(old(Model())) && (Model(), index) == SlotSpec.Insert(old(Model()), value)
      ensures peak == NewPeak(Model(), old(peak))
    {
      InsertKeepsAccount(Model(), chain, peak, value);
      ghost var after := SlotSpec.Insert(Model(), value).0;
      chain, peak := AfterInsert(Model(), chain), NewPeak(after, peak);
      index := NextSlot();
      TakeHead(value);
      assert Model() == after;
    }

    /** Turns an occupied slot into the new head of the free list. */
    method FreeSlot(index: nat)
      requires Shape() && Occupied(Model(), index) && size > 0
      modifies `head, `size, slabs
      ensures Shape() && Model() == SlotSpec.Remove(old(Model()), index).0
    {
      SetSlot(index, Link(head));
      head := index;
      size := size - 1;
    }

    method Remove(index: nat) returns (r: Option<T>)
      requires Valid()
      modifies this, slabs
      ensures Valid() && slabs == old(slabs) && peak == old(peak)
      ensures (Model(), r) == SlotSpec.Remove(old(Model()), index)
    {
      var entry := SlotAt(index);
      if entry.None? || entry.value.Link? {
        return None;
      }
      RemoveKeepsAccount(Model(), chain, peak, index);
      ghost var after := SlotSpec.Remove(Model(), index).0;
      chain := [index] + chain;
      FreeSlot(index);
      r := Some(entry.value.value);
      assert Model() == after;
    }

    method Get(index: nat) returns (r: Option<T>)
      requires Valid()
      ensures r == if index in Contents(Model()) then Some(Contents(Model())[index]) else None
    {
      var entry := SlotAt(index);
      r := if entry.Some? && entry.value.Element? then Some(entry.value.value) else None;
    }

    method Len() returns (n: nat)
      requires Valid()
      ensures n == |Contents(Model())|
    {
      SizeCountsElements(Model(), chain);
      n := size;
    }
  }
}
