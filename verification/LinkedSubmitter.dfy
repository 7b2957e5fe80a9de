/**
 Publishing linked chains: `LinkedSubmitter::{submit_sqe, submit}` of `handle.rs` on the ring of
 `sqe.rs`, interleaved with the kernel taking SQEs. The counters are the 32-bit words shared with
 the kernel; `published`, `draft`, `taken` and `batches` are history.
 */
module LinkedSubmission {
  import opened Wrappers
  import opened Bits
  import opened SubmissionRing

  /** An SQE: the request's id, everything else the caller prepared, and the IO_LINK flag. */
  datatype Sqe = Sqe(userData: nat, body: nat, ioLink: bool)

  datatype Ring = Ring(slots: seq<Sqe>, mask: nat, khead: nat, ktail: nat)

  ghost predicate RingOk(r: Ring) {
    IsMask(r.mask) && |r.slots| == r.mask + 1 && r.khead < U32 && r.ktail < U32
  }

  /** `sqes().get_mut(i)`: the slot of the i-th free SQE. */
  function GetMut(r: Ring, i: nat): (slot: Option<nat>)
    requires RingOk(r)
    ensures slot.Some? ==> slot.value < |r.slots|
  {
    Masked(r.ktail + i, r.mask);
    if i < WrappingDist(r.khead, r.ktail, r.mask) then Some(And(r.ktail + i, r.mask)) else None
  }

  /** One attempt of `submit_sqe`: fill SQE `count` with the link flag set, or None if there is no room. */
  function Fill(r: Ring, count: nat, e: Sqe): Option<Ring>
    requires RingOk(r)
  {
    var slot := GetMut(r, count);
    if slot.None? then None else Some(r.(slots := r.slots[slot.value := e.(ioLink := true)]))
  }

  /** `submit`: unlink the last SQE of the batch and move the tail over all of it. */
  function Publish(r: Ring, count: nat): Option<Ring>
    requires RingOk(r)
  {
    if count == 0 then Some(r) else
      var slot := GetMut(r, count - 1);
      if slot.None? then None else
        Some(r.(slots := r.slots[slot.value := r.slots[slot.value].(ioLink := false)],
                ktail := WrappingAdd(r.ktail, count)))
  }

  // ------------------------------------------------------------------ the program's form

  class SubmissionQueue {
    const mask: nat
    const sqes: array<Sqe>
    var khead: nat
    var ktail: nat
    /** The tail up to which the kernel has been told. */
    var sqeTail: nat

    ghost predicate Valid()
      reads this, sqes
    {
      RingOk(View()) && sqeTail < U32
    }

    ghost function View(): Ring
      reads this, sqes
    {
      Ring(sqes[..], mask, khead, ktail)
    }

    constructor (mask: nat)
      requires IsMask(mask)
      ensures Valid() && this.mask == mask && khead == 0 == ktail && fresh(sqes)
    {
      this.mask := mask;
      sqes := new Sqe[mask + 1](_ => Sqe(0, 0, false));
      khead, ktail, sqeTail := 0, 0, 0;
    }

    /** Between one and the capacity: the step from the tail that first comes round to the head. */
    method FreeSqes() returns (free: nat)
      requires Valid()
      ensures 1 <= free <= mask + 1
      ensures And(WrappingAdd(ktail, free), mask) == And(khead, mask)
      ensures forall k | 1 <= k < free :: And(WrappingAdd(ktail, k), mask) != And(khead, mask)
      ensures free == WrappingDist(khead, ktail, mask)
    {
      DistIsFirstStep(khead, ktail, mask);
      free := WrappingDist(khead, ktail, mask);
    }

    /**
     `sqes().get_mut(i)`: the slot `i` places after the tail, as long as walking there from the tail does
     not come round to the head.
     */
    method SqeSlot(i: nat) returns (slot: Option<nat>)
      requires Valid()
      ensures slot.Some? <==> forall k | 1 <= k <= i :: And(WrappingAdd(ktail, k), mask) != And(khead, mask)
      ensures slot.Some? ==> slot.value == (ktail + i) % (mask + 1) < sqes.Length
      ensures slot == GetMut(View(), i)
    {
      Masked(ktail + i, mask);
      var free := FreeSqes();
      slot := if i < free then Some(And(ktail + i, mask)) else None;
    }

    method Advance(count: nat)
      requires Valid()
      modifies `ktail
      ensures Valid() && View() == old(View()).(ktail := WrappingAdd(old(ktail), count))
    {
      ktail := WrappingAdd(ktail, count);
    }

    /**
     `submit_and_wait` without SQPOLL. `kernelOk` is the outcome of the system call, if it is made; on
     an error the caller sees None and the same SQEs count as unsubmitted next time.
     */
    method SubmitAndWait(waitFor: nat, kernelOk: bool) returns (submitted: Option<nat>, enters: bool)
      requires Valid()
      modifies `sqeTail
      ensures Valid() && View() == old(View())
      ensures enters <==> waitFor != 0 || ktail != old(sqeTail)
      ensures submitted == if enters && !kernelOk then None else Some(WrappingSub(ktail, old(sqeTail)))
      ensures sqeTail == if submitted.None? then old(sqeTail) else ktail
    {
      var count := WrappingSub(ktail, sqeTail);
      enters := waitFor != 0 || count > 0;
      if enters && !kernelOk {
        return None, enters;
      }
      sqeTail := ktail;
      submitted := Some(count);
    }
  }

  class LinkedSubmitter {
    const sq: SubmissionQueue
    var count: nat

    constructor (sq: SubmissionQueue)
      ensures this.sq == sq && count == 0
    {
      this.sq := sq;
      count := 0;
    }

    /**
     One round of the loop in `submit_sqe`: the next slot of the batch gets the SQE, linked, and no other
     slot changes. It fails if the batch has come round to the head; then the caller submits and tries again.
     */
    method SubmitSqe(e: Sqe) returns (ok: bool)
      requires sq.Valid() && count != sq.mask + 1
      modifies this, sq.sqes
      ensures sq.Valid()
      ensures ok <==> forall k | 1 <= k <= old(count) ::
                        And(WrappingAdd(sq.ktail, k), sq.mask) != And(sq.khead, sq.mask)
      ensures count == old(count) + if ok then 1 else 0
      ensures forall j | 0 <= j < sq.sqes.Length ::
                sq.sqes[j] == if ok && j == (sq.ktail + old(count)) % sq.sqes.Length then e.(ioLink := true)
                              else old(sq.sqes[j])
      ensures var next := Fill(old(sq.View()), old(count), e);
              && ok == next.Some?
              && sq.View() == (if ok then next.value else old(sq.View()))
              && count == (if ok then old(count) + 1 else old(count))
    {
      var slot := sq.SqeSlot(count);
      ok := slot.Some?;
      if ok {
        sq.sqes[slot.value] := e.(ioLink := true);
        count := count + 1;
      }
    }

    /** The last SQE of the batch loses its link flag, no other SQE changes, and the tail moves over the batch. */
    method Submit() returns (ok: bool)
      requires sq.Valid()
      modifies sq, sq.sqes
      ensures sq.Valid() && sq.khead == old(sq.khead) && sq.sqeTail == old(sq.sqeTail)
      ensures count == 0 ==> ok
      ensures sq.ktail == if ok then WrappingAdd(old(sq.ktail), count) else old(sq.ktail)
      ensures forall j | 0 <= j < sq.sqes.Length ::
                sq.sqes[j] == if ok && count > 0 && j == (old(sq.ktail) + count - 1) % sq.sqes.Length
                              then old(sq.sqes[j]).(ioLink := false) else old(sq.sqes[j])
      ensures ok == Publish(old(sq.View()), count).Some?
      ensures sq.View() == if ok then Publish(old(sq.View()), count).value else old(sq.View())
    {
      ok := true;
      if count != 0 {
        var slot := sq.SqeSlot(count - 1);
        if slot.None? { return false; }
        sq.sqes[slot.value] := sq.sqes[slot.value].(ioLink := false);
        sq.Advance(count);
      }
    }
  }

  // ------------------------------------------------------------------ whole runs

  datatype State = State(ring: Ring, count: nat, draft: seq<Sqe>, published: seq<Sqe>, taken: seq<Sqe>,
                         batches: seq<seq<Sqe>>)

  /** The kernel takes one SQE off the head whenever the tail says there is one. */
  datatype Step = SubmitSqe(e: Sqe) | SubmitBatch | DropBatch | KernelTake

  ghost predicate Init(s: State) {
    RingOk(s.ring) && s.ring.khead == 0 == s.ring.ktail && s == State(s.ring, 0, [], [], [], [])
  }

  ghost function Closed(draft: seq<Sqe>): seq<Sqe>
    requires draft != []
  {
    draft[|draft| - 1 := draft[|draft| - 1].(ioLink := false)]
  }

  ghost predicate IsChain(b: seq<Sqe>) {
    b != [] && (forall i | 0 <= i < |b| - 1 :: b[i].ioLink) && !b[|b| - 1].ioLink
  }

  ghost function Concat(bs: seq<seq<Sqe>>): seq<Sqe> {
    if bs == [] then [] else bs[0] + Concat(bs[1..])
  }

  /** How the kernel reads a stream: `open` is the chain being collected, an unlinked SQE ends it. */
  ghost function Chains(open: seq<Sqe>, s: seq<Sqe>): seq<seq<Sqe>>
    decreases |s|
  {
    if s == [] then if open == [] then [] else [open]
    else if s[0].ioLink then Chains(open + [s[0]], s[1..])
    else [open + [s[0]]] + Chains([], s[1..])
  }

  function InFlight(s: State): int {
    |s.published| - |s.taken|
  }

  /** Callers may not link more SQEs than the queue holds, and a batch must start on a non-full queue. */
  ghost predicate Allowed(s: State, step: Step) {
    step.SubmitSqe? ==> s.count != s.ring.mask + 1 && (s.count == 0 ==> InFlight(s) <= s.ring.mask)
  }

  ghost function Next(s: State, step: Step): State
    requires RingOk(s.ring)
  {
    match step
    case SubmitSqe(e) =>
      var next := Fill(s.ring, s.count, e);
      if next.None? then s
      else s.(ring := next.value, count := s.count + 1, draft := s.draft + [e.(ioLink := true)])
    case SubmitBatch =>
      var next := Publish(s.ring, s.count);
      if s.draft == [] || next.None? then s
      else s.(ring := next.value, count := 0, draft := [], published := s.published + Closed(s.draft),
              batches := s.batches + [Closed(s.draft)])
    case DropBatch => s.(count := 0, draft := [])
    case KernelTake =>
      Masked(s.ring.khead, s.ring.mask);
      if s.ring.khead == s.ring.ktail then s
      else s.(taken := s.taken + [s.ring.slots[And(s.ring.khead, s.ring.mask)]],
              ring := s.ring.(khead := WrappingAdd(s.ring.khead, 1)))
  }

  ghost function All(s: State): seq<Sqe> {
    s.published + s.draft
  }

  /** Every SQE published or drafted but not yet taken sits unharmed in its slot. */
  ghost predicate Intact(s: State)
    requires RingOk(s.ring)
  {
    Holds(s.ring.slots, |s.taken|, All(s))
  }

  ghost predicate Inv(s: State) {
    && RingOk(s.ring)
    && s.ring.khead == |s.taken| % U32 && s.ring.ktail == |s.published| % U32
    && s.taken <= s.published
    && |s.draft| == s.count
    && Intact(s)
    && (forall e | e in s.draft :: e.ioLink)
    && s.published == Concat(s.batches)
    && (forall b | b in s.batches :: IsChain(b))
  }

  lemma SlotOf(s: State, j: nat)
    requires Inv(s) && (s.count == 0 ==> InFlight(s) <= s.ring.mask)
    ensures GetMut(s.ring, j) ==
            if j <= s.ring.mask - InFlight(s) then Some((|s.published| + j) % (s.ring.mask + 1)) else None
  {
    FreeSlots(|s.taken|, InFlight(s), s.ring.mask);
    TruncatedOffset(|s.published|, j, s.ring.mask);
  }

  lemma FillKeepsInv(s: State, e: Sqe)
    requires Inv(s) && Allowed(s, Step.SubmitSqe(e))
    ensures Inv(Next(s, Step.SubmitSqe(e)))
    ensures Next(s, Step.SubmitSqe(e)) == s <==> InFlight(s) + s.count == s.ring.mask + 1
  {
    hide Concat, GetMut, Chains;
    SlotOf(s, s.count);
    if InFlight(s) + s.count <= s.ring.mask {
      HoldsPush(s.ring.slots, |s.taken|, All(s), e.(ioLink := true));
      assert All(Next(s, Step.SubmitSqe(e))) == All(s) + [e.(ioLink := true)];
    }
  }

  lemma {:induction false} ConcatAppend(bs: seq<seq<Sqe>>, b: seq<Sqe>)
    ensures Concat(bs + [b]) == Concat(bs) + b
  {
    if bs == [] {
      assert bs + [b] == [b] && Concat([b]) == b + Concat([]);
    } else {
      ConcatAppend(bs[1..], b);
      assert (bs + [b])[1..] == bs[1..] + [b];
    }
  }

  /** `submit` moves the tail by exactly `count` and publishes one whole chain. */
  lemma PublishKeepsInv(s: State)
    requires Inv(s)
    ensures var t := Next(s, SubmitBatch);
            && Inv(t)
            && |t.published| == |s.published| + s.count
            && t.ring.ktail == WrappingAdd(s.ring.ktail, s.count)
            && t.batches == (if s.count == 0 then s.batches else s.batches + [Closed(s.draft)])
            && t.count == 0
  {
    hide Concat, GetMut, Holds;
    if s.count != 0 {
      PublishRing(s);
      assert All(Next(s, SubmitBatch)) == s.published + Closed(s.draft);
      ConcatAppend(s.batches, Closed(s.draft));
    }
  }

  /** On the ring, publishing rewrites the slot of the last draft and moves the tail. */
  lemma PublishRing(s: State)
    requires Inv(s) && s.count != 0
    ensures var r, n := Publish(s.ring, s.count), |s.published| + s.count;
            && r.Some? && RingOk(r.value)
            && r.value.mask == s.ring.mask && r.value.khead == s.ring.khead && r.value.ktail == n % U32
            && Holds(r.value.slots, |s.taken|, s.published + Closed(s.draft))
  {
    hide Concat;
    var last := |All(s)| - 1;
    ModAdd(|s.published|, s.count, U32);
    SlotOf(s, s.count - 1);
    assert All(s)[last] == s.draft[s.count - 1];
    HoldsUpdate(s.ring.slots, |s.taken|, All(s), last, All(s)[last].(ioLink := false));
    assert s.published + Closed(s.draft) == All(s)[last := All(s)[last].(ioLink := false)];
  }

  /** The kernel takes published SQEs only, in order; a draft stays invisible until `submit`. */
  lemma TakeKeepsInv(s: State)
    requires Inv(s)
    ensures Inv(Next(s, KernelTake))
    ensures Next(s, KernelTake).taken ==
            if InFlight(s) == 0 then s.taken else s.taken + [s.published[|s.taken|]]
  {
    MaskFits(s.ring.mask);
    TruncatedMask(|s.taken|, s.ring.mask);
    ModAdd(|s.taken|, 1, U32);
    if InFlight(s) > 0 {
      ModDistinct(|s.taken|, |s.published|, U32);
      assert All(s)[|s.taken|] == s.published[|s.taken|];
    }
  }

  ghost predicate Run(states: seq<State>, steps: seq<Step>) {
    && |states| == |steps| + 1
    && Init(states[0])
    && forall i | 0 <= i < |steps| ::
         RingOk(states[i].ring) && Allowed(states[i], steps[i]) && states[i + 1] == Next(states[i], steps[i])
  }

  lemma {:induction false} RunKeepsInv(states: seq<State>, steps: seq<Step>)
    requires Run(states, steps)
    ensures Inv(states[|steps|])
  {
    if steps != [] {
      var k := |steps| - 1;
      RunKeepsInv(states[..k + 1], steps[..k]);
      match steps[k] {
        case SubmitSqe(e) => FillKeepsInv(states[k], e);
        case SubmitBatch => PublishKeepsInv(states[k]);
        case DropBatch =>
          PrefixHeld(states[k]);
          assert All(states[k + 1]) == states[k].published;
        case KernelTake => TakeKeepsInv(states[k]);
      }
    }
  }

  lemma {:induction false} ChainIsRead(open: seq<Sqe>, b: seq<Sqe>, rest: seq<Sqe>)
    requires IsChain(b)
    ensures Chains(open, b + rest) == [open + b] + Chains([], rest)
    decreases |b|
  {
    assert (b + rest)[1..] == b[1..] + rest;
    if |b| == 1 {
      assert open + b == open + [b[0]];
    } else {
      ChainIsRead(open + [b[0]], b[1..], rest);
      assert open + [b[0]] + b[1..] == open + b;
    }
  }

  /** Reading a stream of published batches gives back exactly the batches: chains never merge. */
  lemma {:induction false} ChainsAreBatches(bs: seq<seq<Sqe>>)
    requires forall b | b in bs :: IsChain(b)
    ensures Chains([], Concat(bs)) == bs
  {
    if bs != [] {
      ChainsAreBatches(bs[1..]);
      ChainIsRead([], bs[0], Concat(bs[1..]));
      assert [] + bs[0] == bs[0];
    }
  }

  /**
   In every run the kernel has taken a prefix of what was published, unharmed and in order, and the
   IO_LINK runs of the published stream are exactly the batches that were submitted.
   */
  lemma LinkedChainsPublishAtomically(states: seq<State>, steps: seq<Step>)
    requires Run(states, steps)
    ensures var s := states[|steps|];
            && s.taken <= s.published
            && Chains([], s.published) == s.batches
            && RingOk(s.ring) && Intact(s)
  {
    RunKeepsInv(states, steps);
    ChainsAreBatches(states[|steps|].batches);
  }

  // ------------------------------------------------------------------ the full queue

  /** The SQEs in flight are still the published ones. */
  ghost predicate InFlightIntact(s: State)
    requires RingOk(s.ring)
  {
    Holds(s.ring.slots, |s.taken|, s.published)
  }

  /**
   Starting a batch leaves the SQEs in flight alone, whatever is written, exactly when the queue is
   not full: on a full queue the distance reads as empty and the first slot belongs to the kernel.
   */
  lemma BatchStartIsSafeIffNotFull(s: State)
    requires Inv(s) && s.count == 0
    ensures (forall e :: InFlightIntact(Next(s, Step.SubmitSqe(e)))) <==> InFlight(s) <= s.ring.mask
  {
    if InFlight(s) <= s.ring.mask {
      forall e
        ensures InFlightIntact(Next(s, Step.SubmitSqe(e)))
      {
        FillKeepsInv(s, e);
        PrefixHeld(Next(s, Step.SubmitSqe(e)));
      }
    } else {
      var n := s.ring.mask + 1;
      FreeSlots(|s.taken|, n, s.ring.mask);
      TruncatedOffset(|s.published|, 0, s.ring.mask);
      ModAdd(n, |s.taken|, n);
      var e := Sqe(s.published[|s.taken|].userData + 1, 0, true);
      assert Next(s, Step.SubmitSqe(e)).ring.slots[|s.taken| % n] == e;
    }
  }

  /** A run that fills `n` SQEs of one batch on an empty ring. */
  lemma {:induction false} BatchOf(mask: nat, n: nat) returns (states: seq<State>, steps: seq<Step>)
    requires IsMask(mask) && n <= mask + 1
    ensures Run(states, steps) && |steps| == n
    ensures var s := states[n]; s.ring.mask == mask && s.count == n && s.published == s.taken == []
  {
    if n == 0 {
      var r := Ring(seq(mask + 1, _ => Sqe(0, 0, false)), mask, 0, 0);
      states, steps := [State(r, 0, [], [], [], [])], [];
    } else {
      hide Next, GetMut, Concat;
      states, steps := BatchOf(mask, n - 1);
      var s, step := states[n - 1], Step.SubmitSqe(Sqe(n, 0, false));
      RunKeepsInv(states, steps);
      FillKeepsInv(s, step.e);
      FillCounts(s, step.e);
      states, steps := states + [Next(s, step)], steps + [step];
    }
  }

  lemma FillCounts(s: State, e: Sqe)
    requires RingOk(s.ring)
    ensures var t := Next(s, Step.SubmitSqe(e));
            && t.published == s.published && t.taken == s.taken && t.ring.mask == s.ring.mask
            && (t != s ==> t.count == s.count + 1)
  {
    hide GetMut;
  }

  /**
   Full queues do occur: on every ring one batch of as many SQEs as there are slots, which `submit_sqe`
   permits, fills it, and the next batch then overwrites an SQE that the kernel has not taken.
   */
  lemma FullQueueReachable(mask: nat) returns (states: seq<State>, steps: seq<Step>)
    requires IsMask(mask)
    ensures Run(states, steps)
    ensures var s := states[|steps|];
            && s.ring.mask == mask && InFlight(s) == mask + 1 && s.count == 0 && RingOk(s.ring)
            && exists e :: !InFlightIntact(Next(s, Step.SubmitSqe(e)))
  {
    hide GetMut, Concat, InFlightIntact;
    states, steps := BatchOf(mask, mask + 1);
    var s := states[mask + 1];
    RunKeepsInv(states, steps);
    PublishKeepsInv(s);
    PublishTakesNothing(s);
    var t := Next(s, SubmitBatch);
    states, steps := states + [t], steps + [SubmitBatch];
    RunKeepsInv(states, steps);
    BatchStartIsSafeIffNotFull(t);
  }

  lemma PublishTakesNothing(s: State)
    requires RingOk(s.ring)
    ensures Next(s, SubmitBatch).taken == s.taken && Next(s, SubmitBatch).ring.mask == s.ring.mask
  {
    hide GetMut;
  }

  lemma PrefixHeld(s: State)
    requires Inv(s)
    ensures InFlightIntact(s)
  {
    assert forall i | |s.taken| <= i < |s.published| :: All(s)[i] == s.published[i];
  }
}
