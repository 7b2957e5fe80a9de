/** The ring views of `ringbuf.rs`: masked indexing, and iteration as two chained slices. */
module RingBuf {
  import opened Wrappers
  import opened Bits

  /** A window of `size` slots that starts at `offset` in a backing store of `mask + 1` slots. */
  datatype View<T> = View(backing: seq<T>, offset: nat, size: nat, mask: nat)

  /** What the constructors assert. */
  ghost predicate WellFormed<T>(v: View<T>) {
    IsMask(v.mask) && |v.backing| == v.mask + 1 && v.size <= v.mask + 1
  }

  function Get<T>(v: View<T>, index: nat): Option<T> {
    if index >= v.size then None
    else
      var slot := And(v.offset + index, v.mask);
      if slot < |v.backing| then Some(v.backing[slot]) else None
  }

  /** `into_iter`: the elements of the two chained slices, or None where slicing panics. */
  function IntoIter<T>(v: View<T>): Option<seq<T>> {
    var end := v.offset + v.size;
    var wrapped := And(end, v.mask);
    if wrapped == end then
      if end <= |v.backing| then Some(v.backing[v.offset..end]) else None
    else if v.offset <= |v.backing| && wrapped <= v.offset then
      Some(v.backing[v.offset..] + v.backing[..v.offset][..wrapped])
    else
      None
  }

  /** Iteration yields exactly get(0), ..., get(size - 1). */
  ghost predicate Enumerates<T>(v: View<T>, r: Option<seq<T>>) {
    && r.Some?
    && |r.value| == v.size
    && forall i | 0 <= i < v.size :: Get(v, i) == Some(r.value[i])
  }

  /** Indexed access never leaves the backing store, and is refused exactly past the end of the view. */
  lemma IndexInBounds<T>(v: View<T>, i: nat)
    requires IsMask(v.mask) && |v.backing| == v.mask + 1
    ensures And(v.offset + i, v.mask) < |v.backing|
    ensures Get(v, i) == if i < v.size then Some(v.backing[(v.offset + i) % |v.backing|]) else None
  {
    hide And, IsMask;
    Masked(v.offset + i, v.mask);
  }

  /** Different indices within a view hit different slots. */
  lemma IndexingDistinct<T>(v: View<T>, i: nat, j: nat)
    requires WellFormed(v) && i < j < v.size
    ensures And(v.offset + i, v.mask) != And(v.offset + j, v.mask)
  {
    Masked(v.offset + i, v.mask);
    Masked(v.offset + j, v.mask);
    ModDistinct(v.offset + i, v.offset + j, v.mask + 1);
  }

  lemma Slot(v: nat, mask: nat)
    requires IsMask(mask)
    ensures v <= mask ==> And(v, mask) == v
    ensures mask < v <= 2 * mask + 1 ==> And(v, mask) == v - (mask + 1)
  {
    Masked(v, mask);
    if v <= mask {
      ModIs(v, mask + 1, 0, v);
    } else if v <= 2 * mask + 1 {
      ModIs(v, mask + 1, 1, v - (mask + 1));
    }
  }

  /** Within the first two laps the index wraps by at most one capacity. */
  lemma IterationMatchesIndexing<T>(v: View<T>)
    requires WellFormed(v)
    requires v.offset <= v.mask || (v.offset == v.mask + 1 && v.size <= v.mask)
    ensures Enumerates(v, IntoIter(v))
  {
    Slot(v.offset + v.size, v.mask);
    var r := IntoIter(v);
    assert r.Some? && |r.value| == v.size;
    forall i | 0 <= i < v.size
      ensures Get(v, i) == Some(r.value[i])
    {
      Slot(v.offset + i, v.mask);
    }
  }

  /**
   Iteration refines indexing exactly when the offset was masked, or lies one past the mask with a
   free slot left. An unmasked offset, as `sqes()` passes it, is good for indexed access only.
   */
  lemma IterationExact<T>(v: View<T>)
    requires WellFormed(v)
    ensures Enumerates(v, IntoIter(v)) <==>
            v.offset <= v.mask || (v.offset == v.mask + 1 && v.size <= v.mask)
  {
    var n, end := v.mask + 1, v.offset + v.size;
    if v.offset <= v.mask || (v.offset == n && v.size <= v.mask) {
      IterationMatchesIndexing(v);
    } else {
      Masked(end, v.mask);
      assert And(end, v.mask) < end;
      if v.offset == n {
        ModIs(end, n, 2, 0);
        assert |IntoIter(v).value| == 0;
      }
    }
  }
}
