/**
 The completion queue of `cqe.rs` and the way `process_cqes` of `handle.rs` drains it, interleaved
 with a kernel that goes on posting. The counters are the shared 32-bit words; `posted`, `handled`
 and `released` are history.
 */
module CompletionRing {
  import opened Wrappers
  import opened Bits
  import opened RingBuf
  import opened SubmissionRing

  datatype Ring<T> = Ring(slots: seq<T>, mask: nat, khead: nat, ktail: nat)

  ghost predicate RingOk<T>(r: Ring<T>) {
    IsMask(r.mask) && |r.slots| == r.mask + 1 && r.khead < U32 && r.ktail < U32
  }

  /** `available`: the window from head to tail. */
  function Window<T>(r: Ring<T>): View<T>
    requires r.khead < U32 && r.ktail < U32
  {
    View(r.slots, And(r.khead, r.mask), WrappingSub(r.ktail, r.khead), r.mask)
  }

  lemma SizeReachesTail(head: nat, tail: nat)
    requires head < U32 && tail < U32
    ensures WrappingAdd(head, WrappingSub(tail, head)) == tail
  {
    if tail < head { ModIs(tail + U32, U32, 1, tail); }
  }

  lemma WindowSlot<T>(r: Ring<T>, i: nat)
    requires RingOk(r) && i < Window(r).size
    ensures Get(Window(r), i) == Some(r.slots[(r.khead + i) % |r.slots|])
  {
    hide And, IsMask, WrappingSub, Get;
    Masked(r.khead, r.mask);
    IndexInBounds(Window(r), i);
    ModAdd(r.khead, i, r.mask + 1);
  }

  function Advanced<T>(r: Ring<T>, count: nat): Ring<T> {
    r.(khead := WrappingAdd(r.khead, count))
  }

  predicate SeesNext<T>(r: Ring<T>) {
    r.khead < r.ktail
  }

  class CompletionQueue<T(0)> {
    const mask: nat
    const cqes: array<T>
    var khead: nat
    var ktail: nat

    ghost function View(): Ring<T>
      reads this, cqes
    {
      Ring(cqes[..], mask, khead, ktail)
    }

    ghost predicate Valid()
      reads this, cqes
    {
      RingOk(View())
    }

    constructor (mask: nat)
      requires IsMask(mask)
      ensures Valid() && this.mask == mask && khead == 0 == ktail && fresh(cqes)
    {
      this.mask := mask;
      cqes := new T[mask + 1];
      khead, ktail := 0, 0;
    }

    /** The view covers all counters from head to tail; its i-th entry is the slot of counter head + i. */
    method Available() returns (v: View<T>)
      requires Valid()
      ensures WrappingAdd(khead, v.size) == ktail && v.offset <= mask
      ensures v.size <= mask + 1 ==> WellFormed(v)
      ensures forall i | 0 <= i < v.size :: Get(v, i) == Some(cqes[(khead + i) % cqes.Length])
      ensures v == Window(View())
    {
      hide And, Get, IsMask;
      v := RingBuf.View(cqes[..], And(khead, mask), WrappingSub(ktail, khead), mask);
      Masked(khead, mask);
      SizeReachesTail(khead, ktail);
      forall i | 0 <= i < v.size
        ensures Get(v, i) == Some(cqes[(khead + i) % cqes.Length])
      {
        WindowSlot(View(), i);
      }
    }

    method Advance(count: nat)
      requires Valid()
      modifies `khead
      ensures Valid() && View() == Advanced(old(View()), count)
    {
      khead := WrappingAdd(khead, count);
    }

    method HasNext() returns (b: bool)
      requires Valid()
      ensures b == SeesNext(View())
    {
      b := khead < ktail;
    }
  }

  /** A pass over the queue: the window fixed by `available` and how far the loop has come. */
  datatype Scan = Scan(offset: nat, size: nat, next: nat)

  datatype State<T> = State(ring: Ring<T>, scan: Option<Scan>, posted: seq<T>, handled: seq<T>, released: nat)

  datatype Step<T> = KernelPost(e: T) | Begin | Handle | Finish

  ghost predicate Init<T>(s: State<T>) {
    RingOk(s.ring) && s.ring.khead == 0 == s.ring.ktail && s == State(s.ring, None, [], [], 0)
  }

  /** The kernel posts only while the queue has a free slot; the loop runs to its end before `advance`. */
  ghost predicate Allowed<T>(s: State<T>, step: Step<T>) {
    match step
    case KernelPost(_) => |s.posted| - s.released <= s.ring.mask
    case Begin => s.scan.None?
    case Handle => s.scan.Some? && s.scan.value.next < s.scan.value.size
    case Finish => s.scan.Some? && s.scan.value.next == s.scan.value.size
  }

  ghost function Next<T>(s: State<T>, step: Step<T>): State<T>
    requires RingOk(s.ring) && Allowed(s, step)
  {
    match step
    case KernelPost(e) =>
      Masked(s.ring.ktail, s.ring.mask);
      s.(ring := s.ring.(slots := s.ring.slots[And(s.ring.ktail, s.ring.mask) := e],
                         ktail := WrappingAdd(s.ring.ktail, 1)),
         posted := s.posted + [e])
    case Begin =>
      var v := Window(s.ring);
      s.(scan := Some(Scan(v.offset, v.size, 0)))
    case Handle =>
      var sc := s.scan.value;
      var e := Get(View(s.ring.slots, sc.offset, sc.size, s.ring.mask), sc.next);
      if e.None? then s
      else s.(handled := s.handled + [e.value], scan := Some(sc.(next := sc.next + 1)))
    case Finish =>
      s.(ring := Advanced(s.ring, s.scan.value.size), scan := None, released := s.released + s.scan.value.size)
  }

  /** The law of the queue: what was handled is exactly the first part of what was posted. */
  ghost predicate Inv<T>(s: State<T>) {
    && RingOk(s.ring)
    && s.released <= |s.posted|
    && s.ring.khead == s.released % U32 && s.ring.ktail == |s.posted| % U32
    && Holds(s.ring.slots, s.released, s.posted)
    && s.handled <= s.posted
    && match s.scan
       case None => |s.handled| == s.released
       case Some(sc) =>
         && sc.next <= sc.size && s.released + sc.size <= |s.posted|
         && sc.offset == s.released % (s.ring.mask + 1)
         && |s.handled| == s.released + sc.next
  }

  lemma PostKeepsInv<T>(s: State<T>, e: T)
    requires Inv(s) && Allowed(s, KernelPost(e))
    ensures Inv(Next(s, KernelPost(e)))
  {
    hide And, IsMask;
    TruncatedMask(|s.posted|, s.ring.mask);
    HoldsPush(s.ring.slots, s.released, s.posted, e);
    ModAdd(|s.posted|, 1, U32);
  }

  lemma BeginKeepsInv<T>(s: State<T>)
    requires Inv(s) && Allowed(s, Begin)
    ensures Inv(Next(s, Begin))
    ensures Window(s.ring).size == |s.posted| - s.released
    ensures WellFormed(Window(s.ring)) && Window(s.ring).offset <= s.ring.mask
  {
    MaskFits(s.ring.mask);
    CounterDistance(s.released, |s.posted|);
    TruncatedMask(s.released, s.ring.mask);
  }

  lemma HandleKeepsInv<T>(s: State<T>)
    requires Inv(s) && Allowed(s, Handle)
    ensures Inv(Next(s, Handle))
    ensures Next(s, Handle).handled == s.handled + [s.posted[|s.handled|]]
  {
    hide And, IsMask;
    var sc := s.scan.value;
    Masked(sc.offset + sc.next, s.ring.mask);
    ModAdd(s.released, sc.next, s.ring.mask + 1);
  }

  lemma FinishKeepsInv<T>(s: State<T>)
    requires Inv(s) && Allowed(s, Finish)
    ensures Inv(Next(s, Finish))
  {
    ModAdd(s.released, s.scan.value.size, U32);
  }

  ghost predicate Run<T>(states: seq<State<T>>, steps: seq<Step<T>>) {
    && |states| == |steps| + 1
    && Init(states[0])
    && forall i | 0 <= i < |steps| ::
         RingOk(states[i].ring) && Allowed(states[i], steps[i]) && states[i + 1] == Next(states[i], steps[i])
  }

  lemma StepKeepsInv<T>(s: State<T>, step: Step<T>)
    requires Inv(s) && Allowed(s, step)
    ensures Inv(Next(s, step))
  {
    match step {
      case KernelPost(e) => PostKeepsInv(s, e);
      case Begin => BeginKeepsInv(s);
      case Handle => HandleKeepsInv(s);
      case Finish => FinishKeepsInv(s);
    }
  }

  lemma {:induction false} RunKeepsInv<T>(states: seq<State<T>>, steps: seq<Step<T>>)
    requires Run(states, steps)
    ensures Inv(states[|steps|])
  {
    if steps != [] {
      var k := |steps| - 1;
      RunKeepsInv(states[..k + 1], steps[..k]);
      StepKeepsInv(states[k], steps[k]);
    }
  }

  /**
   Exactly once and in order: in every interleaving of kernel posts with passes over the queue, the
   posted events are the handled ones followed by the live ones; between passes the window is
   exactly the live ones, whatever the 32-bit counters have wrapped to.
   */
  lemma ExactlyOnceInOrder<T>(states: seq<State<T>>, steps: seq<Step<T>>)
    requires Run(states, steps)
    ensures var s := states[|steps|];
            && s.handled <= s.posted
            && (s.scan.None? ==> RingOk(s.ring) && IntoIter(Window(s.ring)) == Some(s.posted[|s.handled|..]))
  {
    RunKeepsInv(states, steps);
    if states[|steps|].scan.None? {
      AvailableIsWindow(states[|steps|]);
    }
  }

  lemma WindowEntry<T>(s: State<T>, i: nat)
    requires Inv(s) && s.scan.None? && s.released + i < |s.posted|
    ensures Window(s.ring).size == |s.posted| - s.released
    ensures Get(Window(s.ring), i) == Some(s.posted[s.released + i])
  {
    hide WrappingSub, And, IsMask, Get;
    BeginKeepsInv(s);
    IndexInBounds(Window(s.ring), i);
    ModAdd(s.released, i, s.ring.mask + 1);
    TruncatedMask(s.released, s.ring.mask);
  }

  /** Iterating over `available` visits the unprocessed events oldest first. */
  lemma AvailableIsWindow<T>(s: State<T>)
    requires Inv(s) && s.scan.None?
    ensures IntoIter(Window(s.ring)) == Some(s.posted[s.released..])
  {
    BeginKeepsInv(s);
    hide IntoIter, Get, WrappingSub, Holds;
    var v := Window(s.ring);
    IterationMatchesIndexing(v);
    forall i | 0 <= i < v.size
      ensures Get(v, i) == Some(s.posted[s.released + i])
    {
      WindowEntry(s, i);
    }
    assert IntoIter(v).value == s.posted[s.released..];
  }

  /**
   `has_next` compares the raw counters. It tells the truth exactly when the queue is empty or the
   tail has not wrapped past 2^32 ahead of the head.
   */
  lemma HasNextExact<T>(s: State<T>)
    requires Inv(s)
    ensures (SeesNext(s.ring) <==> s.released < |s.posted|)
            <==> (s.released == |s.posted| || s.released / U32 == |s.posted| / U32)
  {
    MaskFits(s.ring.mask);
    var h, t := s.released, |s.posted|;
    assert h == U32 * (h / U32) + h % U32 && t == U32 * (t / U32) + t % U32;
  }

  lemma Extend<T>(states: seq<State<T>>, steps: seq<Step<T>>, step: Step<T>) returns (t: State<T>)
    requires Run(states, steps) && RingOk(states[|steps|].ring) && Allowed(states[|steps|], step)
    ensures t == Next(states[|steps|], step) && Run(states + [t], steps + [step])
    ensures (states + [t])[|steps + [step]|] == t
  {
    hide Next, Allowed;
    t := Next(states[|steps|], step);
  }

  /** A run that posts and handles `n` events one by one. */
  lemma {:induction false} HandledOneByOne<T>(mask: nat, e: T, n: nat)
    returns (states: seq<State<T>>, steps: seq<Step<T>>)
    requires IsMask(mask)
    ensures Run(states, steps)
    ensures var s := states[|steps|];
            && RingOk(s.ring) && s.ring.mask == mask && s.scan.None?
            && |s.posted| == s.released == n
  {
    if n == 0 {
      var r := Ring(seq(mask + 1, _ => e), mask, 0, 0);
      states, steps := [State(r, None, [], [], 0)], [];
    } else {
      states, steps := HandledOneByOne(mask, e, n - 1);
      states, steps := OneMore(states, steps, e);
    }
  }

  lemma OneMore<T>(states: seq<State<T>>, steps: seq<Step<T>>, e: T)
    returns (states': seq<State<T>>, steps': seq<Step<T>>)
    requires Run(states, steps)
    requires var s := states[|steps|]; RingOk(s.ring) && s.scan.None? && |s.posted| == s.released
    ensures Run(states', steps')
    ensures var s, t := states[|steps|], states'[|steps'|];
            && RingOk(t.ring) && t.ring.mask == s.ring.mask && t.scan.None?
            && |t.posted| == t.released == s.released + 1
  {
    var s := states[|steps|];
    hide Run, And, IsMask, Holds, WrappingSub, WrappingAdd;
    RunKeepsInv(states, steps);
    PostKeepsInv(s, e);
    var a := Extend(states, steps, KernelPost(e));
    BeginKeepsInv(a);
    var b := Extend(states + [a], steps + [KernelPost(e)], Begin);
    HandleKeepsInv(b);
    var c := Extend(states + [a] + [b], steps + [KernelPost(e)] + [Begin], Handle);
    FinishKeepsInv(c);
    var d := Extend(states + [a] + [b] + [c], steps + [KernelPost(e)] + [Begin] + [Handle], Finish);
    states', steps' := states + [a] + [b] + [c] + [d], steps + [KernelPost(e)] + [Begin] + [Handle] + [Finish];
  }

  /** `has_next` does lie: after 2^32 - 1 events it denies that the next one is there, on a ring of any size. */
  lemma HasNextLies<T>(mask: nat, e: T) returns (states: seq<State<T>>, steps: seq<Step<T>>)
    requires IsMask(mask)
    ensures Run(states, steps)
    ensures var s := states[|steps|];
            s.ring.mask == mask && s.released < |s.posted| && !SeesNext(s.ring)
  {
    hide And, IsMask, Holds;
    states, steps := HandledOneByOne(mask, e, U32 - 1);
    var s := states[|steps|];
    RunKeepsInv(states, steps);
    PostKeepsInv(s, e);
    var t := Extend(states, steps, KernelPost(e));
    states, steps := states + [t], steps + [KernelPost(e)];
    assert t.ring.khead == U32 - 1 && t.ring.ktail == 0;
  }
}
