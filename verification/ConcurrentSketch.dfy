/**
 Any number of `insert_n` calls running at once on one sketch (`ddsketch.rs`). Each atomic access is a
 step: `fetch_max`, `fetch_min`, and for both counters the load and the compare-exchange of
 `saturating_add`, whose weak form may also fail for no reason.
 */
module ConcurrentSketch {
  import opened RealPow
  import opened SketchIndex
  import opened SketchSpec

  datatype Pc =
    | Start
    | MaxDone
    | MinDone
    | CountLoaded(expected: nat)
    | CountDone
    | BucketLoaded(expected: nat)
    | Done

  datatype Call = Call(sample: Sample, pc: Pc)

  /** The shared cells and all calls ever made, in the order in which they began. */
  datatype State = State(cells: Sketch, calls: seq<Call>)

  datatype Step = Begin(sample: Sample) | Advance(i: nat, spurious: bool)

  ghost predicate Allowed(g: real, s: State, step: Step)
    requires g > 1.0
  {
    match step
    case Begin(x) => Storable(g, x)
    case Advance(i, _) => i < |s.calls| && !s.calls[i].pc.Done?
  }

  function At(s: State, i: nat, pc: Pc): State
    requires i < |s.calls|
  {
    s.(calls := s.calls[i := s.calls[i].(pc := pc)])
  }

  ghost function Next(g: real, s: State, step: Step): State
    requires g > 1.0 && Allowed(g, s, step)
    requires forall c | c in s.calls :: IndexOf(g, c.sample.value) < |s.cells.buckets|
  {
    match step
    case Begin(x) => s.(calls := s.calls + [Call(x, Start)])
    case Advance(i, spurious) =>
      var c, cells := s.calls[i], s.cells;
      var v, b := c.sample.value, IndexOf(g, c.sample.value);
      match c.pc
      case Start => At(s.(cells := cells.(max := if v > cells.max then v else cells.max)), i, MaxDone)
      case MaxDone => At(s.(cells := cells.(min := if v < cells.min then v else cells.min)), i, MinDone)
      case MinDone => At(s, i, CountLoaded(cells.count))
      case CountLoaded(expected) =>
        if cells.count != expected || spurious then At(s, i, CountLoaded(cells.count))
        else At(s.(cells := cells.(count := SatAdd(expected, c.sample.n))), i, CountDone)
      case CountDone => At(s, i, BucketLoaded(cells.buckets[b]))
      case BucketLoaded(expected) =>
        if cells.buckets[b] != expected || spurious then At(s, i, BucketLoaded(cells.buckets[b]))
        else At(s.(cells := cells.(buckets := cells.buckets[b := SatAdd(expected, c.sample.n)])), i, Done)
      case Done => s
  }

  predicate Maxed(c: Call) { !c.pc.Start? }

  predicate Minned(c: Call) { !c.pc.Start? && !c.pc.MaxDone? }

  predicate Counted(c: Call) { c.pc.CountDone? || c.pc.BucketLoaded? || c.pc.Done? }

  ghost function Binned(g: real, j: nat): Call -> bool
    requires g > 1.0
  {
    (c: Call) => c.pc.Done? && IndexOf(g, c.sample.value) == j
  }

  /** Occurrences added so far by the calls that satisfy `p`. */
  ghost function Added(calls: seq<Call>, p: Call -> bool): nat {
    if calls == [] then 0
    else Added(calls[..|calls| - 1], p) + if p(calls[|calls| - 1]) then calls[|calls| - 1].sample.n else 0
  }

  lemma {:induction false} AddedUpdate(calls: seq<Call>, i: nat, c: Call, p: Call -> bool)
    requires i < |calls| && c.sample == calls[i].sample
    ensures Added(calls[i := c], p) + (if p(calls[i]) then c.sample.n else 0) ==
            Added(calls, p) + if p(c) then c.sample.n else 0
  {
    var last := |calls| - 1;
    if i < last {
      AddedUpdate(calls[..last], i, c, p);
      assert calls[i := c][..last] == calls[..last][i := c];
    } else {
      assert calls[i := c][..last] == calls[..last];
    }
  }

  ghost predicate CallsOk(g: real, s: State)
    requires g > 1.0
  {
    && |s.cells.buckets| == NumBuckets(g)
    && forall i | 0 <= i < |s.calls| :: Storable(g, s.calls[i].sample)
  }

  ghost predicate CountOk(s: State) {
    s.cells.count == Sat(Added(s.calls, Counted))
  }

  ghost predicate BucketsOk(g: real, s: State)
    requires g > 1.0
  {
    forall j | 0 <= j < |s.cells.buckets| :: s.cells.buckets[j] == Sat(Added(s.calls, Binned(g, j)))
  }

  ghost predicate MinMaxOk(s: State) {
    && (forall i | 0 <= i < |s.calls| :: Maxed(s.calls[i]) ==> s.calls[i].sample.value <= s.cells.max)
    && (forall i | 0 <= i < |s.calls| :: Minned(s.calls[i]) ==> s.cells.min <= s.calls[i].sample.value)
    && (s.cells.max == 0 || exists i :: 0 <= i < |s.calls| && s.calls[i].sample.value == s.cells.max)
    && (s.cells.min == U64_MAX || exists i :: 0 <= i < |s.calls| && s.calls[i].sample.value == s.cells.min)
  }

  ghost predicate Inv(g: real, s: State)
    requires g > 1.0
  {
    CallsOk(g, s) && CountOk(s) && BucketsOk(g, s) && MinMaxOk(s)
  }

  ghost predicate Run(g: real, states: seq<State>, steps: seq<Step>)
    requires g > 1.0
  {
    && |states| == |steps| + 1
    && states[0] == State(Empty(g), [])
    && forall i | 0 <= i < |steps| ::
         CallsOk(g, states[i]) && Allowed(g, states[i], steps[i]) && states[i + 1] == Next(g, states[i], steps[i])
  }

  lemma BeginKeepsInv(g: real, s: State, x: Sample)
    requires g > 1.0 && Inv(g, s) && Storable(g, x)
    ensures Inv(g, Next(g, s, Begin(x)))
  {
    hide IndexOf, NumBuckets;
    var t := Next(g, s, Begin(x));
    assert t.calls[..|s.calls|] == s.calls;
    assert forall i | 0 <= i < |s.calls| :: t.calls[i] == s.calls[i];
  }

  lemma AdvanceKeepsCount(g: real, s: State, i: nat, spurious: bool)
    requires g > 1.0 && Inv(g, s) && i < |s.calls| && !s.calls[i].pc.Done?
    ensures CountOk(Next(g, s, Advance(i, spurious)))
  {
    hide IndexOf, NumBuckets;
    AddedUpdate(s.calls, i, Next(g, s, Advance(i, spurious)).calls[i], Counted);
  }

  lemma AdvanceKeepsBuckets(g: real, s: State, i: nat, spurious: bool)
    requires g > 1.0 && Inv(g, s) && i < |s.calls| && !s.calls[i].pc.Done?
    ensures BucketsOk(g, Next(g, s, Advance(i, spurious)))
  {
    hide IndexOf, NumBuckets;
    var t := Next(g, s, Advance(i, spurious));
    forall j | 0 <= j < |t.cells.buckets|
      ensures t.cells.buckets[j] == Sat(Added(t.calls, Binned(g, j)))
    {
      AddedUpdate(s.calls, i, t.calls[i], Binned(g, j));
    }
  }

  lemma AdvanceKeepsMinMax(g: real, s: State, i: nat, spurious: bool)
    requires g > 1.0 && Inv(g, s) && i < |s.calls| && !s.calls[i].pc.Done?
    ensures MinMaxOk(Next(g, s, Advance(i, spurious)))
  {
    hide IndexOf, NumBuckets, Added;
    var t := Next(g, s, Advance(i, spurious));
    assert t.calls[i].sample == s.calls[i].sample;
    if s.cells.max != 0 {
      var k :| 0 <= k < |s.calls| && s.calls[k].sample.value == s.cells.max;
      assert t.calls[k].sample == s.calls[k].sample;
    }
    if s.cells.min != U64_MAX {
      var k :| 0 <= k < |s.calls| && s.calls[k].sample.value == s.cells.min;
      assert t.calls[k].sample == s.calls[k].sample;
    }
  }

  lemma {:induction false} RunKeepsInv(g: real, states: seq<State>, steps: seq<Step>)
    requires g > 1.0 && Run(g, states, steps)
    ensures Inv(g, states[|steps|])
  {
    hide IndexOf, NumBuckets;
    if steps != [] {
      var k := |steps| - 1;
      RunKeepsInv(g, states[..k + 1], steps[..k]);
      match steps[k] {
        case Begin(x) => BeginKeepsInv(g, states[k], x);
        case Advance(i, spurious) =>
          AdvanceKeepsCount(g, states[k], i, spurious);
          AdvanceKeepsBuckets(g, states[k], i, spurious);
          AdvanceKeepsMinMax(g, states[k], i, spurious);
      }
    }
  }

  ghost function Samples(calls: seq<Call>): (xs: seq<Sample>)
    ensures |xs| == |calls| && forall i | 0 <= i < |xs| :: xs[i] == calls[i].sample
  {
    if calls == [] then [] else Samples(calls[..|calls| - 1]) + [calls[|calls| - 1].sample]
  }

  lemma {:induction false} AddedIsWeight(calls: seq<Call>, p: Call -> bool, q: nat -> bool)
    requires forall i | 0 <= i < |calls| :: p(calls[i]) == q(calls[i].sample.value)
    ensures Added(calls, p) == Weight(Samples(calls), q)
  {
    if calls != [] {
      AddedIsWeight(calls[..|calls| - 1], p, q);
    }
  }

  /**
   Whatever the interleaving, once all calls have returned the sketch is the one that inserting their
   samples one after another leaves: every counter is the capped true sum, min and max are exact.
   */
  lemma QuiescentIsSequential(g: real, states: seq<State>, steps: seq<Step>)
    requires g > 1.0 && Run(g, states, steps)
    requires forall c | c in states[|steps|].calls :: c.pc.Done?
    ensures AllStorable(g, Samples(states[|steps|].calls))
    ensures states[|steps|].cells == SketchOf(g, Samples(states[|steps|].calls))
  {
    hide IndexOf, NumBuckets;
    RunKeepsInv(g, states, steps);
    var s := states[|steps|];
    var xs := Samples(s.calls);
    forall j | 0 <= j < NumBuckets(g)
      ensures s.cells.buckets[j] == SketchOf(g, xs).buckets[j]
    {
      CellsCount(g, xs, j);
      AddedIsWeight(s.calls, Binned(g, j), InBucket(g, j));
    }
    NumBucketsPositive(g);
    CellsCount(g, xs, 0);
    AddedIsWeight(s.calls, Counted, (v: nat) => true);
    assert s.cells.buckets == SketchOf(g, xs).buckets;
    SameMinMax(g, s);
  }

  lemma NumBucketsPositive(g: real)
    requires g > 1.0
    ensures NumBuckets(g) > 0
  {
  }

  lemma SameMinMax(g: real, s: State)
    requires g > 1.0 && CallsOk(g, s) && MinMaxOk(s) && forall c | c in s.calls :: c.pc.Done?
    ensures var t := SketchOf(g, Samples(s.calls));
            s.cells.min == t.min && s.cells.max == t.max
  {
    hide IndexOf, NumBuckets;
    var xs := Samples(s.calls);
    if xs != [] {
      forall i | 0 <= i < |xs|
        ensures SketchOf(g, xs).min <= xs[i].value <= SketchOf(g, xs).max
        ensures s.cells.min <= xs[i].value <= s.cells.max
      {
        MinMaxExact(g, xs, i);
        assert s.calls[i] in s.calls;
      }
      MinMaxExact(g, xs, 0);
    }
  }

  // ------------------------------------------------------------------ progress

  /** How many more steps a call needs if nobody interferes. */
  function StepsLeft(pc: Pc): nat {
    match pc
    case Start => 6
    case MaxDone => 5
    case MinDone => 4
    case CountLoaded(_) => 3
    case CountDone => 2
    case BucketLoaded(_) => 1
    case Done => 0
  }

  /** The expected value is the one in the cell, so that the next compare-exchange succeeds. */
  predicate Fresh(g: real, s: State, i: nat)
    requires g > 1.0 && i < |s.calls| && IndexOf(g, s.calls[i].sample.value) < |s.cells.buckets|
  {
    match s.calls[i].pc
    case CountLoaded(e) => e == s.cells.count
    case BucketLoaded(e) => e == s.cells.buckets[IndexOf(g, s.calls[i].sample.value)]
    case _ => true
  }

  /** Call `i` takes `n` steps, none of them spuriously failing, while no other call takes any. */
  ghost function Alone(g: real, s: State, i: nat, n: nat): (t: State)
    requires g > 1.0 && CallsOk(g, s) && i < |s.calls|
    ensures CallsOk(g, t) && |t.calls| == |s.calls| && t.calls[i].sample == s.calls[i].sample
    decreases n
  {
    if n == 0 || s.calls[i].pc.Done? then s
    else
      NextKeepsCalls(g, s, Advance(i, false));
      Alone(g, Next(g, s, Advance(i, false)), i, n - 1)
  }

  lemma NextKeepsCalls(g: real, s: State, step: Step)
    requires g > 1.0 && CallsOk(g, s) && Allowed(g, s, step)
    ensures forall c | c in s.calls :: IndexOf(g, c.sample.value) < |s.cells.buckets|
    ensures var t := Next(g, s, step);
            && CallsOk(g, t)
            && (step.Advance? ==> |t.calls| == |s.calls|
                                  && forall j | 0 <= j < |s.calls| :: t.calls[j].sample == s.calls[j].sample)
  {
    hide IndexOf, NumBuckets;
    forall c | c in s.calls
      ensures IndexOf(g, c.sample.value) < |s.cells.buckets|
    {
      var j :| 0 <= j < |s.calls| && s.calls[j] == c;
      assert Storable(g, s.calls[j].sample);
    }
  }

  /**
   A compare-exchange that meets its expected value and does not fail spuriously gets through; one that does
   not meet it tries again with what it found. So `insert_n` is over after at most six steps of its own, if
   nobody interferes; and its sample is then in the cells.
   */
  lemma {:induction false} AloneFinishes(g: real, s: State, i: nat)
    requires g > 1.0 && CallsOk(g, s) && i < |s.calls|
    ensures Alone(g, s, i, 6).calls[i].pc.Done?
  {
    AloneTakes(g, s, i, 6);
  }

  lemma {:induction false} AloneTakes(g: real, s: State, i: nat, n: nat)
    requires g > 1.0 && CallsOk(g, s) && i < |s.calls|
    requires IndexOf(g, s.calls[i].sample.value) < |s.cells.buckets|
    requires n >= StepsLeft(s.calls[i].pc) + if Fresh(g, s, i) then 0 else 1
    ensures Alone(g, s, i, n).calls[i].pc.Done?
    decreases n
  {
    hide IndexOf, NumBuckets;
    if !s.calls[i].pc.Done? {
      NextKeepsCalls(g, s, Advance(i, false));
      AloneTakes(g, Next(g, s, Advance(i, false)), i, n - 1);
    }
  }
}
