/**
 The framing loop of `pingserver.rs`: split what was kept and what was read into PING frames, answer
 each with a PONG, keep the rest for the next round.
 */
module PingServer {
  import opened Wrappers
  import opened FixedVecs
  import opened DisjointChunks

  const BUFFER_SIZE: nat := 65536
  const FRAME: nat := 6
  const PING: seq<byte> := [80, 73, 78, 71, 13, 10]
  const PONG: seq<byte> := [80, 79, 78, 71, 13, 10]

  ghost function Repeat(frame: seq<byte>, k: nat): (r: seq<byte>)
    ensures |r| == k * |frame|
  {
    if k == 0 then [] else Repeat(frame, k - 1) + frame
  }

  /** The k-th chunk of six bytes is a PING. */
  ghost predicate PingAt(input: seq<byte>, k: nat)
    requires FRAME * (k + 1) <= |input|
  {
    input[FRAME * k..FRAME * (k + 1)] == PING
  }

  /**
   How many frames the loop takes when `room` bytes of the write buffer are free: as many as there are, but
   the answers never fill the buffer to the last byte.
   */
  function Frames(len: nat, room: nat): (k: nat)
    ensures FRAME * k <= len && (k > 0 ==> FRAME * k < room)
    ensures FRAME * (k + 1) <= len ==> room <= FRAME * (k + 1)
  {
    var fits := if room > FRAME then (room - 1) / FRAME else 0;
    if len / FRAME < fits then len / FRAME else fits
  }

  ghost predicate AllPings(input: seq<byte>, k: nat)
    requires FRAME * k <= |input|
  {
    forall i | 0 <= i < k :: PingAt(input, i)
  }

  /**
   Logically removes `count` bytes from the front of a ++ b and moves what remains to `a` as far as
   its capacity allows.
   */
  method TransferRemainder(a: FixedVec, b: FixedVec, count: nat)
    requires a.Valid() && b.Valid() && a != b && a.data != b.data
    requires count <= a.size + b.size
    modifies a, a.data, b, b.data
    ensures a.Valid() && b.Valid()
    ensures a.Contents() + b.Contents() == old(a.Contents() + b.Contents())[count..]
    ensures b.Contents() == [] || a.size == a.data.Length
  {
    var aCount := if count <= a.size then count else a.size;
    var bCount := count - aCount;
    ghost var wasA, wasB := a.Contents(), b.Contents();
    a.DrainFront(aCount);
    var moved := a.ExtendFromSlice(b.Slice(bCount));
    b.DrainFront(bCount + moved);
    MovedBytes(wasA, wasB, aCount, bCount, moved);
  }

  lemma MovedBytes(a: seq<byte>, b: seq<byte>, i: nat, j: nat, moved: nat)
    requires i <= |a| && j + moved <= |b| && (i == |a| || j == 0)
    ensures a[i..] + b[j..][..moved] + b[j + moved..] == (a + b)[i + j..]
  {
  }

  lemma FramesFit(len: nat, room: nat)
    ensures FRAME * Frames(len, room) <= len
  {
  }

  lemma PingAtIs(input: seq<byte>, k: nat, chunk: seq<byte>)
    requires FRAME * (k + 1) <= |input| && chunk == input[FRAME * k..][..FRAME]
    ensures PingAt(input, k) <==> chunk == PING
  {
    assert input[FRAME * k..][..FRAME] == input[FRAME * k..FRAME * (k + 1)];
  }

  lemma RepeatNext(frame: seq<byte>, k: nat)
    ensures Repeat(frame, k + 1) == Repeat(frame, k) + frame
    ensures Repeat(frame, 0) == []
  {
  }

  /** Not enough input for another frame, or not enough room for another answer. */
  predicate Exhausted(len: nat, room: nat, k: nat) {
    len < FRAME * (k + 1) || room <= FRAME * (k + 1)
  }

  /** The inner loop; `k` is the number of frames it answered. */
  method AnswerChunks(iter: DisjointChunksExact, wbuf: FixedVec, ghost input: seq<byte>)
    returns (ok: bool, count: nat, ghost k: nat)
    requires wbuf.Valid() && iter.n == FRAME && Joined(iter.slices) == input
    modifies iter, wbuf, wbuf.data
    ensures wbuf.Valid() && count == FRAME * k <= |input| && AllPings(input, k)
    ensures wbuf.Contents() == old(wbuf.Contents()) + Repeat(PONG, k)
    ensures k > 0 ==> !Exhausted(|input|, old(wbuf.Available()), k - 1)
    ensures if ok then Exhausted(|input|, old(wbuf.Available()), k)
            else !Exhausted(|input|, old(wbuf.Available()), k) && !PingAt(input, k)
  {
    hide PingAt, Repeat;
    ghost var was, room := wbuf.Contents(), wbuf.Available();
    k, count := 0, 0;
    RepeatNext(PONG, 0);
    while wbuf.Available() > FRAME
      invariant wbuf.Valid() && count == FRAME * k <= |input| && room == wbuf.Available() + count
      invariant k > 0 ==> !Exhausted(|input|, room, k - 1)
      invariant Joined(iter.slices) == input[count..]
      invariant AllPings(input, k)
      invariant wbuf.Contents() == was + Repeat(PONG, k)
      decreases wbuf.Available()
    {
      var chunk := iter.Next();
      if chunk.None? {
        return true, count, k;
      }
      PingAtIs(input, k, chunk.value);
      if chunk.value != PING {
        return false, count, k;
      }
      RepeatNext(PONG, k);
      var fits := wbuf.WriteAll(PONG);
      count := count + |chunk.value|;
      k := k + 1;
    }
    ok := true;
  }

  /** The loop stops after exactly `Frames` frames. */
  lemma FramesAre(len: nat, room: nat, k: nat)
    requires FRAME * k <= len && (k > 0 ==> !Exhausted(len, room, k - 1))
    ensures k <= Frames(len, room)
    ensures k < Frames(len, room) <==> !Exhausted(len, room, k)
  {
  }

  /**
   Answering: on true it took `count` bytes, all of them PINGs, and appended one PONG for each; on
   false it met a chunk that is no PING.
   */
  method Answer(iter: DisjointChunksExact, wbuf: FixedVec, ghost input: seq<byte>) returns (ok: bool, count: nat)
    requires wbuf.Valid() && iter.n == FRAME && Joined(iter.slices) == input
    modifies iter, wbuf, wbuf.data
    ensures wbuf.Valid()
    ensures var k := Frames(|input|, old(wbuf.Available()));
            && FRAME * k <= |input|
            && (ok <==> AllPings(input, k))
            && (ok ==> count == FRAME * k && wbuf.Contents() == old(wbuf.Contents()) + Repeat(PONG, k))
  {
    hide Frames, PingAt, Repeat, Exhausted;
    ghost var room := wbuf.Available();
    ghost var k;
    FramesFit(|input|, room);
    ok, count, k := AnswerChunks(iter, wbuf, input);
    FramesAre(|input|, room, k);
  }

  // ------------------------------------------------------------------ rounds

  /** What the round leaves unconsumed. */
  ghost function Rest(tbuf: seq<byte>, recv: seq<byte>): seq<byte> {
    FramesFit(|tbuf + recv|, BUFFER_SIZE);
    (tbuf + recv)[FRAME * Frames(|tbuf + recv|, BUFFER_SIZE)..]
  }

  ghost function Kept(tbuf: seq<byte>, recv: seq<byte>): seq<byte> {
    if |Rest(tbuf, recv)| <= BUFFER_SIZE then Rest(tbuf, recv) else Rest(tbuf, recv)[..BUFFER_SIZE]
  }

  /** Left in the read buffer, which goes back to the pool: these bytes are lost. */
  ghost function Spilled(tbuf: seq<byte>, recv: seq<byte>): seq<byte> {
    if |Rest(tbuf, recv)| <= BUFFER_SIZE then [] else Rest(tbuf, recv)[BUFFER_SIZE..]
  }

  /** A connection: the kept bytes and the logs of what came in, was consumed, answered and lost. */
  datatype Session = Session(tbuf: seq<byte>, received: seq<byte>, consumed: seq<byte>, sent: seq<byte>,
                             lost: seq<byte>, open: bool)

  ghost function Round(s: Session, recv: seq<byte>): Session {
    var input := s.tbuf + recv;
    FramesFit(|input|, BUFFER_SIZE);
    var k := Frames(|input|, BUFFER_SIZE);
    if !s.open then s
    else if !AllPings(input, k) then s.(received := s.received + recv, open := false)
    else Session(Kept(s.tbuf, recv), s.received + recv, s.consumed + input[..FRAME * k], s.sent + Repeat(PONG, k),
                 s.lost + Spilled(s.tbuf, recv), true)
  }

  /** One round of the connection task up to the submission of its three requests. */
  method ServeRound(tbuf: FixedVec, rbuf: FixedVec, wbuf: FixedVec) returns (ok: bool)
    requires tbuf.Valid() && rbuf.Valid() && wbuf.Valid()
    requires tbuf.data.Length == BUFFER_SIZE == rbuf.data.Length == wbuf.data.Length && wbuf.size == 0
    requires tbuf != rbuf && rbuf != wbuf && wbuf != tbuf
    requires tbuf.data != rbuf.data && rbuf.data != wbuf.data && wbuf.data != tbuf.data
    modifies tbuf, tbuf.data, rbuf, rbuf.data, wbuf, wbuf.data
    ensures tbuf.Valid() && rbuf.Valid() && wbuf.Valid()
    ensures var t, r := old(tbuf.Contents()), old(rbuf.Contents());
            var k := Frames(|t + r|, BUFFER_SIZE);
            && FRAME * k <= |t + r|
            && (ok <==> AllPings(t + r, k))
            && (ok ==>
                  wbuf.Contents() == Repeat(PONG, k) && tbuf.Contents() == Kept(t, r)
                  && rbuf.Contents() == Spilled(t, r))
    ensures forall s: Session | s.open && s.tbuf == old(tbuf.Contents()) ::
              var u := Round(s, old(rbuf.Contents()));
              && u.open == ok && u.received == s.received + old(rbuf.Contents())
              && (ok ==> u.tbuf == tbuf.Contents() && u.sent == s.sent + wbuf.Contents()
                         && u.lost == s.lost + rbuf.Contents())
  {
    hide Frames, AllPings, Repeat;
    ghost var t, r := tbuf.Contents(), rbuf.Contents();
    var iter := new DisjointChunksExact(FRAME, tbuf.Slice(0), rbuf.Slice(0));
    var count;
    assert tbuf.Slice(0) == t && rbuf.Slice(0) == r;
    FramesFit(|t + r|, BUFFER_SIZE);
    ok, count := Answer(iter, wbuf, t + r);
    if ok {
      TransferRemainder(tbuf, rbuf, count);
      SplitAt(tbuf.Contents(), rbuf.Contents(), Rest(t, r));
    }
  }

  lemma SplitAt(a: seq<byte>, b: seq<byte>, rest: seq<byte>)
    requires a + b == rest && |a| <= BUFFER_SIZE && (b == [] || |a| == BUFFER_SIZE)
    ensures |rest| <= BUFFER_SIZE ==> a == rest && b == []
    ensures |rest| > BUFFER_SIZE ==> a == rest[..BUFFER_SIZE] && b == rest[BUFFER_SIZE..]
  {
    assert (a + b)[..|a|] == a && (a + b)[|a|..] == b;
  }

  ghost function Serve(recvs: seq<seq<byte>>): Session {
    if recvs == [] then Session([], [], [], [], [], true)
    else Round(Serve(recvs[..|recvs| - 1]), recvs[|recvs| - 1])
  }

  ghost function Concat(recvs: seq<seq<byte>>): seq<byte> {
    if recvs == [] then [] else Concat(recvs[..|recvs| - 1]) + recvs[|recvs| - 1]
  }

  /** All frames that the round takes are PINGs. */
  ghost predicate GoodRound(s: Session, recv: seq<byte>) {
    FramesFit(|s.tbuf + recv|, BUFFER_SIZE);
    AllPings(s.tbuf + recv, Frames(|s.tbuf + recv|, BUFFER_SIZE))
  }

  /**
   A session is open exactly while all rounds were good. The first bad round, number `n`, closes it; nothing
   is read after it, and nothing of it is answered, consumed or kept.
   */
  lemma {:induction false} SessionOutcome(recvs: seq<seq<byte>>) returns (n: nat)
    ensures n <= |recvs| && Serve(recvs).received == Concat(recvs[..n])
    ensures Serve(recvs).open <==> forall i | 0 <= i < |recvs| :: GoodRound(Serve(recvs[..i]), recvs[i])
    ensures Serve(recvs).open ==> n == |recvs|
    ensures !Serve(recvs).open ==>
              && n > 0 && Serve(recvs[..n - 1]).open && !GoodRound(Serve(recvs[..n - 1]), recvs[n - 1])
              && Serve(recvs) == Serve(recvs[..n - 1]).(received := Concat(recvs[..n]), open := false)
  {
    hide GoodRound, Frames, AllPings, Kept, Spilled, Repeat;
    assert recvs[..|recvs|] == recvs;
    if recvs == [] {
      n := 0;
    } else {
      var init, recv := recvs[..|recvs| - 1], recvs[|recvs| - 1];
      n := SessionOutcome(init);
      assert forall i | 0 <= i <= |init| :: init[..i] == recvs[..i];
      RoundOutcome(Serve(init), recv);
      if Serve(init).open {
        assert init[..n] == init;
        n := |recvs|;
      }
    }
  }

  lemma RoundOutcome(s: Session, recv: seq<byte>)
    ensures !s.open ==> Round(s, recv) == s
    ensures s.open ==> Round(s, recv).received == s.received + recv && (Round(s, recv).open <==> GoodRound(s, recv))
    ensures s.open && !GoodRound(s, recv) ==> Round(s, recv) == s.(received := s.received + recv, open := false)
  {
  }

  /** A round loses nothing exactly when what it leaves fits the carry-over buffer. */
  lemma RoundConservesIff(tbuf: seq<byte>, recv: seq<byte>)
    ensures Kept(tbuf, recv) + Spilled(tbuf, recv) == Rest(tbuf, recv)
    ensures Spilled(tbuf, recv) == [] <==>
            |tbuf| + |recv| - FRAME * Frames(|tbuf| + |recv|, BUFFER_SIZE) <= BUFFER_SIZE
  {
  }

  /** The leftover grows by at most four bytes a round once it is above five. */
  lemma LeftoverBound(tbuf: seq<byte>, recv: seq<byte>)
    requires |recv| <= BUFFER_SIZE
    ensures |Rest(tbuf, recv)| <= if |tbuf| + 4 > 5 then |tbuf| + 4 else 5
  {
  }

  lemma {:induction false} RepeatAdds(frame: seq<byte>, j: nat, k: nat)
    ensures Repeat(frame, j + k) == Repeat(frame, j) + Repeat(frame, k)
  {
    if k > 0 {
      RepeatAdds(frame, j, k - 1);
    }
  }

  lemma {:induction false} PingsRepeat(input: seq<byte>, k: nat)
    requires FRAME * k <= |input| && AllPings(input, k)
    ensures input[..FRAME * k] == Repeat(PING, k)
  {
    if k > 0 {
      PingsRepeat(input, k - 1);
      assert PingAt(input, k - 1);
      assert input[..FRAME * k] == input[..FRAME * (k - 1)] + input[FRAME * (k - 1)..FRAME * k];
    }
  }

  /** Each consumed byte belongs to a PING, and each PING is answered by one PONG. */
  lemma {:induction false} OnePongPerPing(recvs: seq<seq<byte>>) returns (k: nat)
    ensures Serve(recvs).consumed == Repeat(PING, k)
    ensures Serve(recvs).sent == Repeat(PONG, k)
  {
    if recvs == [] {
      k := 0;
    } else {
      hide Frames, Repeat;
      var s, recv := Serve(recvs[..|recvs| - 1]), recvs[|recvs| - 1];
      k := OnePongPerPing(recvs[..|recvs| - 1]);
      var input := s.tbuf + recv;
      FramesFit(|input|, BUFFER_SIZE);
      var n := Frames(|input|, BUFFER_SIZE);
      if s.open && AllPings(input, n) {
        PingsRepeat(input, n);
        RepeatAdds(PING, k, n);
        RepeatAdds(PONG, k, n);
        k := k + n;
      }
    }
  }

  /** A round that fits keeps the balance of bytes. */
  lemma RoundKeepsBalance(s: Session, recv: seq<byte>)
    requires s.consumed + s.tbuf == s.received && |s.tbuf| + 4 <= BUFFER_SIZE && |recv| <= BUFFER_SIZE
    ensures var t := Round(s, recv);
            && t.lost == s.lost
            && (t.open ==> t.consumed + t.tbuf == t.received)
            && |t.tbuf| <= if |s.tbuf| + 4 > 5 then |s.tbuf| + 4 else 5
  {
    hide Frames, Repeat, AllPings;
    LeftoverBound(s.tbuf, recv);
    var input := s.tbuf + recv;
    FramesFit(|input|, BUFFER_SIZE);
    var n := FRAME * Frames(|input|, BUFFER_SIZE);
    assert s.consumed + input[..n] + input[n..] == (s.consumed + s.tbuf) + recv;
  }

  /** For the first 16383 rounds no byte is lost: what was consumed and what is kept is what came in. */
  lemma {:induction false} StreamConserved(recvs: seq<seq<byte>>)
    requires |recvs| <= 16383 && forall i | 0 <= i < |recvs| :: |recvs[i]| <= BUFFER_SIZE
    ensures var s := Serve(recvs);
            && s.lost == []
            && (s.open ==> s.consumed + s.tbuf == s.received)
            && |s.tbuf| <= 4 * |recvs| + 1
  {
    if recvs != [] {
      StreamConserved(recvs[..|recvs| - 1]);
      var s, recv := Serve(recvs[..|recvs| - 1]), recvs[|recvs| - 1];
      if s.open {
        hide Round;
        RoundKeepsBalance(s, recv);
      }
    }
  }

  /** Frame `i` of what is left is frame `k + i` of the whole. */
  lemma LaterFrame(stream: seq<byte>, rest: seq<byte>, k: nat, i: nat)
    requires FRAME * k <= |stream| && rest == stream[FRAME * k..] && FRAME * (i + 1) <= |rest|
    ensures FRAME * (k + i + 1) <= |stream| && (PingAt(rest, i) <==> PingAt(stream, k + i))
  {
    assert rest[FRAME * i..FRAME * (i + 1)] == stream[FRAME * (k + i)..FRAME * (k + i + 1)];
  }

  /** A client whose stream consists of PINGs, however it is cut into reads, is never turned away. */
  lemma {:induction false} PingsStayOpen(recvs: seq<seq<byte>>)
    requires |recvs| <= 16383 && forall i | 0 <= i < |recvs| :: |recvs[i]| <= BUFFER_SIZE
    requires AllPings(Concat(recvs), |Concat(recvs)| / FRAME)
    ensures Serve(recvs).open && Serve(recvs).received == Concat(recvs)
  {
    if recvs != [] {
      hide PingAt, Repeat, Frames, Round;
      var init, recv := recvs[..|recvs| - 1], recvs[|recvs| - 1];
      var all := Concat(recvs);
      forall i | 0 <= i < |Concat(init)| / FRAME
        ensures PingAt(Concat(init), i)
      {
        assert PingAt(all, i);
        PrefixFrame(Concat(init), recv, i);
      }
      PingsStayOpen(init);
      StreamConserved(init);
      var k := OnePongPerPing(init);
      var s := Serve(init);
      var input := s.tbuf + recv;
      ConsumedIsFrames(k);
      assert all == s.consumed + input;
      FramesFit(|input|, BUFFER_SIZE);
      forall i | 0 <= i < Frames(|input|, BUFFER_SIZE)
        ensures PingAt(input, i)
      {
        LaterFrame(all, input, k, i);
      }
      RoundOutcome(s, recv);
    }
  }

  lemma ConsumedIsFrames(k: nat)
    ensures |Repeat(PING, k)| == FRAME * k
  {
  }

  lemma PrefixFrame(a: seq<byte>, b: seq<byte>, i: nat)
    requires FRAME * (i + 1) <= |a|
    ensures PingAt(a, i) <==> PingAt(a + b, i)
  {
    assert (a + b)[FRAME * i..FRAME * (i + 1)] == a[FRAME * i..FRAME * (i + 1)];
  }

  // ------------------------------------------------------------------ the bound is tight

  /** `len` bytes of an endless stream of PINGs, starting `from` bytes in. */
  ghost function Stream(from: nat, len: nat): seq<byte> {
    seq(len, (i: nat) => PING[(from + i) % FRAME])
  }

  /** Five bytes first, then full reads. */
  ghost function Feed(n: nat): seq<seq<byte>> {
    if n == 0 then [] else Feed(n - 1) + [if n == 1 then Stream(0, 5) else Stream(4 * (n - 1) + 1, BUFFER_SIZE)]
  }

  lemma StreamIsPings(len: nat, k: nat)
    requires FRAME * k <= len
    ensures AllPings(Stream(0, len), k)
  {
    forall i | 0 <= i < k
      ensures PingAt(Stream(0, len), i)
    {
      forall j | 0 <= j < FRAME
        ensures Stream(0, len)[FRAME * i + j] == PING[j]
      {
        assert (0 + (FRAME * i + j)) % FRAME == j;
      }
    }
  }

  lemma FullRound(n: nat)
    requires n >= 1
    ensures AllPings(Stream(0, 4 * n + 1) + Stream(4 * n + 1, BUFFER_SIZE), 10922)
    ensures Frames(4 * n + 1 + BUFFER_SIZE, BUFFER_SIZE) == 10922
    ensures Rest(Stream(0, 4 * n + 1), Stream(4 * n + 1, BUFFER_SIZE)) == Stream(0, 4 * n + 5)
  {
    var input := Stream(0, 4 * n + 1) + Stream(4 * n + 1, BUFFER_SIZE);
    assert input == Stream(0, 4 * n + 1 + BUFFER_SIZE);
    StreamIsPings(4 * n + 1 + BUFFER_SIZE, 10922);
    assert input[65532..] == Stream(0, 4 * n + 5);
  }

  lemma FullStep(s: Session, n: nat)
    requires 1 <= n <= 16382 && s.open && s.tbuf == Stream(0, 4 * n + 1)
    ensures var t := Round(s, Stream(4 * n + 1, BUFFER_SIZE));
            t.open && t.tbuf == Stream(0, 4 * n + 5)
  {
    hide Frames, AllPings, Stream;
    FullRound(n);
    StreamLength(0, 4 * n + 1);
    StreamLength(0, 4 * n + 5);
    StreamLength(4 * n + 1, BUFFER_SIZE);
  }

  lemma FirstStep()
    ensures var t := Round(Session([], [], [], [], [], true), Stream(0, 5));
            t.open && t.tbuf == Stream(0, 5)
  {
    assert [] + Stream(0, 5) == Stream(0, 5);
    assert Stream(0, 5)[0..] == Stream(0, 5);
  }

  lemma FeedPrefix(n: nat)
    requires n >= 1
    ensures Feed(n)[..|Feed(n)| - 1] == Feed(n - 1)
    ensures Feed(n) != []
    ensures Feed(n)[|Feed(n)| - 1] == if n == 1 then Stream(0, 5) else Stream(4 * (n - 1) + 1, BUFFER_SIZE)
  {
  }

  lemma {:induction false} FeedFillsCarryOver(n: nat)
    requires 1 <= n <= 16383
    ensures Serve(Feed(n)).open && Serve(Feed(n)).tbuf == Stream(0, 4 * n + 1)
  {
    hide Feed, Stream, Round;
    FeedPrefix(n);
    if n == 1 {
      FeedShape(0);
      FirstStep();
    } else {
      FeedFillsCarryOver(n - 1);
      FullStep(Serve(Feed(n - 1)), n - 1);
    }
  }

  lemma StreamLength(from: nat, len: nat)
    ensures |Stream(from, len)| == len
  {
  }

  lemma {:induction false} FeedShape(n: nat)
    ensures |Feed(n)| == n && forall i | 0 <= i < n :: 0 < |Feed(n)[i]| <= BUFFER_SIZE
  {
    if n > 0 {
      FeedShape(n - 1);
    }
  }

  /** With the carry-over buffer three bytes short of full, a full read overflows it by one byte. */
  lemma OverflowingRound(s: Session)
    requires s.open && s.tbuf == Stream(0, 65533) && s.lost == []
    ensures var t := Round(s, Stream(65533, BUFFER_SIZE)); t.open && |t.lost| == 1
  {
    hide Frames, AllPings, Stream;
    FullRound(16383);
    StreamLength(0, 65533);
    StreamLength(65533, BUFFER_SIZE);
    StreamLength(0, 65537);
  }

  /** One round later a byte can be lost: a client that sends nothing but PINGs loses one in round 16384. */
  lemma Round16384LosesAByte()
    ensures var recvs := Feed(16384);
            && |recvs| == 16384
            && (forall i | 0 <= i < 16384 :: 0 < |recvs[i]| <= BUFFER_SIZE)
            && Serve(recvs).open
            && |Serve(recvs).lost| == 1
  {
    hide Stream, Feed, Round, Frames, Repeat;
    FeedShape(16384);
    FeedShape(16383);
    FeedFillsCarryOver(16383);
    StreamConserved(Feed(16383));
    OverflowingRound(Serve(Feed(16383)));
    FeedPrefix(16384);
  }
}
