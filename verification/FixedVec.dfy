/** `FixedVec<u8>` of `fixedvec.rs`: a length and a buffer that is never reallocated. */
module FixedVecs {
  newtype byte = x: int | 0 <= x < 256

  class FixedVec {
    const data: array<byte>
    var size: nat

    ghost predicate Valid()
      reads this
    {
      size <= data.Length
    }

    ghost function Contents(): seq<byte>
      requires Valid()
      reads this, data
    {
      data[..size]
    }

    constructor WithCapacity(capacity: nat)
      ensures Valid() && fresh(data) && data.Length == capacity && Contents() == []
    {
      data := new byte[capacity];
      size := 0;
    }

    function Available(): nat
      requires Valid()
      reads this
    {
      data.Length - size
    }

    method Clear()
      requires Valid()
      modifies `size
      ensures Valid() && Contents() == []
    {
      size := 0;
    }

    /** Appends as much of `other` as fits. */
    method ExtendFromSlice(other: seq<byte>) returns (n: nat)
      requires Valid()
      modifies this, data
      ensures Valid()
      ensures n == if |other| <= data.Length - old(size) then |other| else data.Length - old(size)
      ensures Contents() == old(Contents()) + other[..n]
    {
      n := if |other| <= Available() then |other| else Available();
      for i := 0 to n
        invariant size == old(size)
        invariant data[..size + i] == old(Contents()) + other[..i]
      {
        data[size + i] := other[i];
      }
      size := size + n;
    }

    /** `drain(start..end)` dropped at once: the tail moves down over the removed range. */
    method Drain(start: nat, end: nat)
      requires Valid() && start <= end <= size
      modifies this, data
      ensures Valid() && Contents() == old(Contents())[..start] + old(Contents())[end..]
    {
      ghost var was := data[..];
      var len := size;
      for i := 0 to len - end
        invariant size == len
        invariant data[..start + i] == was[..start] + was[end..end + i]
        invariant data[end + i..] == was[end + i..]
      {
        assert data[end + i] == data[end + i..][0];
        data[start + i] := data[end + i];
      }
      size := len - (end - start);
      assert was[end..end + (len - end)] == old(Contents())[end..];
    }

    /** `drain(..count)` dropped at once. */
    method DrainFront(count: nat)
      requires Valid() && count <= size
      modifies this, data
      ensures Valid() && Contents() == old(Contents())[count..]
    {
      Drain(0, count);
    }

    /** `&self[from..]`. */
    function Slice(from: nat): (r: seq<byte>)
      requires Valid() && from <= size
      reads this, data
      ensures r == Contents()[from..]
    {
      data[from..size]
    }

    /** `io::Write::write_all`: true if all of `buf` fitted; what fits is written either way. */
    method WriteAll(buf: seq<byte>) returns (ok: bool)
      requires Valid()
      modifies this, data
      ensures Valid()
      ensures ok <==> |buf| <= data.Length - old(size)
      ensures Contents() == old(Contents()) + if ok then buf else buf[..data.Length - old(size)]
    {
      var n := ExtendFromSlice(buf);
      ok := n == |buf|;
    }
  }
}
