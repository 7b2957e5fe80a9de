/** `DisjointChunksExact` of `disjoint_chunks.rs`: fixed-size chunks across two slices. */
module DisjointChunks {
  import opened Wrappers
  import opened FixedVecs

  /** The bytes left in a stack of slices, the last slice first. */
  ghost function Joined(slices: seq<seq<byte>>): seq<byte> {
    if slices == [] then [] else slices[|slices| - 1] + Joined(slices[..|slices| - 1])
  }

  class DisjointChunksExact {
    const n: nat
    var slices: seq<seq<byte>>

    constructor (n: nat, a: seq<byte>, b: seq<byte>)
      ensures this.n == n && Joined(slices) == a + b
    {
      this.n := n;
      slices := [b, a];
      new;
      assert slices[..1] == [b] && slices[..1][..0] == [];
      assert Joined(slices[..1]) == b + [];
    }

    /**
     `next`: the next `n` bytes, across the seam if need be. A rest shorter than `n` is swallowed.
     */
    method Next() returns (chunk: Option<seq<byte>>)
      modifies this
      ensures var rest := old(Joined(slices));
              if |rest| >= n then chunk == Some(rest[..n]) && Joined(slices) == rest[n..]
              else chunk == None && Joined(slices) == []
    {
      var remaining := n;
      var tmp: seq<byte> := [];
      while remaining > 0
        invariant 0 <= remaining <= n && |tmp| == n - remaining
        invariant old(Joined(slices)) == tmp + Joined(slices)
        decreases remaining + |slices|
      {
        if slices == [] { return None; }
        var first := slices[|slices| - 1];
        var count := if |first| < remaining then |first| else remaining;
        ghost var others, prefix := slices[..|slices| - 1], tmp;
        tmp := tmp + first[..count];
        remaining := remaining - count;
        assert prefix + (first + Joined(others)) == tmp + (first[count..] + Joined(others));
        if first[count..] == [] {
          slices := slices[..|slices| - 1];
          assert Joined(slices) == first[count..] + Joined(others);
        } else {
          slices := slices[|slices| - 1 := first[count..]];
          assert slices[..|slices| - 1] == others;
        }
      }
      assert (tmp + Joined(slices))[..n] == tmp && (tmp + Joined(slices))[n..] == Joined(slices);
      chunk := Some(tmp);
    }
  }
}
