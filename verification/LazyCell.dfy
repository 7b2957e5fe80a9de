/**
 The once-initialisation protocol of `lazy_cell.rs` as a state machine over its atomic steps, for any
 number of threads, followed by the life of the cell up to its drop. Every access to the `state` byte
 is one step; code between two accesses belongs to the step before it.
 */
module LazyCell {
  import opened Wrappers

  const UNINIT: nat := 0
  const INIT_IN_PROGRESS: nat := 1
  const INIT: nat := 2
  const POISONED: nat := 3

  /** Where a thread stands. The four states after `Initing` are those of the thread that won the CAS. */
  datatype Pc<T> =
    | Idle
    | Forcing
    | Getting
    | Initing
    | Calling
    | Storing(v: T)
    | Publishing(v: T)
    | Poisoning
    | Spinning
    | Reading
    | Returned(v: T)
    | Panicked
    | Unreachable

  /**
   `state` and `value` are the cell; the rest is history: the winner of the CAS, how often the
   initialiser was moved out, run and dropped, how often a value was created, handed to the owner and
   dropped, the first value created, every value a caller was given, and what `into_inner` returned.
   */
  datatype State<T> = State(
    state: nat, value: Option<T>, threads: map<nat, Pc<T>>, alive: bool, ownerStuck: bool,
    winner: Option<nat>, funcTaken: nat, funcRun: nat, funcDropped: nat,
    created: nat, returned: nat, dropped: nat, first: Option<T>, seen: set<T>, handedBack: Option<T>)

  datatype Step<T> =
    | Begin(t: nat)
    | BeginGet(t: nat)
    | Load(t: nat)
    | LoadGet(t: nat)
    | CompareExchange(t: nat)
    | Call(t: nat, outcome: Option<T>)
    | WriteValue(t: nat)
    | StoreState(t: nat)
    | Spin(t: nat)
    | Read(t: nat)
    | Release(t: nat)
    | ForceMut(outcome: Option<T>)
    | IntoInner
    | Drop

  ghost predicate Init<T>(s: State<T>) {
    && s.state == UNINIT && s.value.None? && s.alive && !s.ownerStuck && s.winner.None?
    && s.funcTaken == s.funcRun == s.funcDropped == 0 == s.created == s.returned == s.dropped
    && s.first.None? && s.seen == {} && s.handedBack.None?
    && forall t | t in s.threads :: s.threads[t].Idle?
  }

  /** No thread holds a reference to the cell, as a `&mut` borrow or ownership demands. */
  ghost predicate Exclusive<T>(s: State<T>) {
    s.alive && forall t | t in s.threads :: s.threads[t].Idle? || s.threads[t].Panicked?
  }

  ghost predicate Allowed<T>(s: State<T>, step: Step<T>) {
    match step
    case Begin(t) => s.alive && t in s.threads && (s.threads[t].Idle? || s.threads[t].Panicked?)
    case BeginGet(t) => s.alive && t in s.threads && (s.threads[t].Idle? || s.threads[t].Panicked?)
    case Load(t) => t in s.threads && s.threads[t].Forcing?
    case LoadGet(t) => t in s.threads && s.threads[t].Getting?
    case CompareExchange(t) => t in s.threads && s.threads[t].Initing?
    case Call(t, _) => t in s.threads && s.threads[t].Calling?
    case WriteValue(t) => t in s.threads && s.threads[t].Storing?
    case StoreState(t) => t in s.threads && (s.threads[t].Publishing? || s.threads[t].Poisoning?)
    case Spin(t) => t in s.threads && s.threads[t].Spinning?
    case Read(t) => t in s.threads && s.threads[t].Reading?
    case Release(t) => t in s.threads && s.threads[t].Returned?
    case ForceMut(_) => Exclusive(s)
    case IntoInner => Exclusive(s)
    case Drop => Exclusive(s)
  }

  function AfterForceLoad<T>(state: nat): Pc<T> {
    if state == INIT then Reading
    else if state == POISONED then Panicked
    else if state == INIT_IN_PROGRESS || state == UNINIT then Initing
    else Unreachable
  }

  /** The arms of `init` for a failed CAS. */
  function AfterFailedCas<T>(state: nat): Pc<T> {
    if state == INIT then Reading
    else if state == INIT_IN_PROGRESS then Spinning
    else if state == POISONED then Panicked
    else Unreachable
  }

  function AfterSpinLoad<T>(state: nat): Pc<T> {
    if state == INIT_IN_PROGRESS then Spinning
    else if state == INIT then Reading
    else if state == POISONED then Panicked
    else Unreachable
  }

  function At<T>(s: State<T>, t: nat, pc: Pc<T>): State<T> {
    s.(threads := s.threads[t := pc])
  }

  /** Creating the value: the initialiser was run to its end. */
  ghost function Created<T>(s: State<T>, v: T): State<T> {
    s.(created := s.created + 1, first := if s.first.None? then Some(v) else s.first)
  }

  ghost function Seen<T>(s: State<T>): State<T> {
    if s.value.None? then s.(ownerStuck := true) else s.(seen := s.seen + {s.value.value})
  }

  /** `init_mut` and the arms of `force_mut`. */
  ghost function ForcedMut<T>(s: State<T>, outcome: Option<T>): State<T> {
    if s.state == INIT then Seen(s)
    else if s.state == UNINIT then
      var called := s.(funcTaken := s.funcTaken + 1, funcRun := s.funcRun + 1);
      match outcome
      case None => called.(state := POISONED)
      case Some(v) => Seen(Created(called, v).(value := Some(v), state := INIT))
    else if s.state == POISONED then s
    else s.(ownerStuck := true)
  }

  /** `Drop::drop`. */
  ghost function Dropped<T>(s: State<T>): State<T> {
    if s.state == UNINIT then s.(alive := false, funcDropped := s.funcDropped + 1)
    else if s.state == INIT then s.(alive := false, value := None, dropped := s.dropped + 1)
    else s.(alive := false)
  }

  ghost function Next<T>(s: State<T>, step: Step<T>): State<T>
    requires Allowed(s, step)
  {
    match step
    case Begin(t) => At(s, t, Forcing)
    case BeginGet(t) => At(s, t, Getting)
    case Load(t) => At(s, t, AfterForceLoad(s.state))
    case LoadGet(t) => At(s, t, if s.state == INIT then Reading else Idle)
    case CompareExchange(t) =>
      if s.state == UNINIT then
        At(s, t, Calling).(state := INIT_IN_PROGRESS, winner := Some(t), funcTaken := s.funcTaken + 1)
      else
        At(s, t, AfterFailedCas(s.state))
    case Call(t, outcome) =>
      var called := s.(funcRun := s.funcRun + 1);
      (match outcome
       case None => At(called, t, Poisoning)
       case Some(v) => At(Created(called, v), t, Storing(v)))
    case WriteValue(t) => At(s, t, Publishing(s.threads[t].v)).(value := Some(s.threads[t].v))
    case StoreState(t) =>
      if s.threads[t].Poisoning? then At(s, t, Panicked).(state := POISONED, winner := None)
      else At(s, t, Reading).(state := INIT, winner := None)
    case Spin(t) => At(s, t, AfterSpinLoad(s.state))
    case Read(t) => if s.value.None? then At(s, t, Unreachable) else At(Seen(s), t, Returned(s.value.value))
    case Release(t) => At(s, t, Idle)
    case ForceMut(outcome) => ForcedMut(s, outcome)
    case IntoInner =>
      if s.state == INIT then
        Dropped(s.(state := POISONED, value := None, returned := s.returned + 1, handedBack := s.value))
      else Dropped(s)
    case Drop => Dropped(s)
  }

  predicate Critical<T>(pc: Pc<T>) {
    pc.Calling? || pc.Storing? || pc.Publishing? || pc.Poisoning?
  }

  /** What holds of thread `t`. */
  ghost predicate ThreadOk<T>(s: State<T>, t: nat)
    requires t in s.threads
  {
    match s.threads[t]
    case Reading => s.state == INIT && s.alive
    case Returned(v) => s.state == INIT && s.alive && s.value == Some(v)
    case Spinning => s.state != UNINIT && s.alive
    case Unreachable => false
    case Idle => true
    case Panicked => s.state == POISONED && s.first.None?
    case _ => s.alive
  }

  /** What holds of the cell, told by the byte and by how far the winner has come. */
  ghost predicate CellOk<T>(s: State<T>) {
    && s.state <= POISONED
    && (s.winner.Some? <==> s.state == INIT_IN_PROGRESS)
    && (s.winner.Some? ==> s.winner.value in s.threads && s.alive)
    && s.funcTaken == (if s.state == UNINIT then 0 else 1)
    && s.funcRun == (if s.state == UNINIT || (s.winner.Some? && s.threads[s.winner.value].Calling?) then 0 else 1)
    && s.created == (if s.first.Some? then 1 else 0)
    && (s.value.Some? ==> s.value == s.first)
    && (s.state == INIT && s.alive ==> s.value.Some?)
    && (s.state == UNINIT ==> s.first.None?)
    && (s.state == POISONED && s.alive ==> s.first.None?)
    && (s.winner.Some? ==>
          match s.threads[s.winner.value]
          case Storing(v) => s.first == Some(v)
          case Publishing(v) => s.first == Some(v) == s.value
          case _ => s.first.None?)
    && (forall v | v in s.seen :: s.first == Some(v))
  }

  /** While the cell lives nothing has been given back; afterwards each resource was used up once. */
  ghost predicate Accounts<T>(s: State<T>) {
    && (if s.alive then s.funcDropped == s.returned == s.dropped == 0
        else s.funcTaken + s.funcDropped == 1 && s.returned + s.dropped == s.created)
    && (s.returned == if s.handedBack.Some? then 1 else 0)
    && (s.handedBack.Some? ==> s.handedBack == s.first)
  }

  ghost predicate Inv<T>(s: State<T>) {
    && CellOk(s)
    && Accounts(s)
    && !s.ownerStuck
    && (forall t | t in s.threads :: ThreadOk(s, t))
    && (forall t | t in s.threads :: Critical(s.threads[t]) <==> s.winner == Some(t))
  }

  predicate OwnerStep<T>(step: Step<T>) {
    step.ForceMut? || step.IntoInner? || step.Drop?
  }

  /** The steps of a thread that holds a shared reference. */
  predicate LoadStep<T>(step: Step<T>) {
    step.Begin? || step.BeginGet? || step.Load? || step.LoadGet? || step.Spin? || step.Read? || step.Release?
  }

  lemma OwnerKeepsInv<T>(s: State<T>, step: Step<T>)
    requires Inv(s) && Allowed(s, step) && OwnerStep(step)
    ensures Inv(Next(s, step))
  {
    assert s.winner.None?;
  }

  lemma MoveKeepsInv<T>(s: State<T>, t: nat, pc: Pc<T>)
    requires Inv(s) && t in s.threads && !Critical(s.threads[t]) && !Critical(pc)
    requires ThreadOk(At(s, t, pc), t)
    ensures Inv(At(s, t, pc))
  {
    forall u | u in s.threads && u != t
      ensures ThreadOk(At(s, t, pc), u)
    {
      assert ThreadOk(s, u);
    }
  }

  lemma LoadKeepsInv<T>(s: State<T>, step: Step<T>)
    requires Inv(s) && Allowed(s, step) && LoadStep(step)
    ensures Inv(Next(s, step))
  {
    match step {
      case Read(t) => MoveKeepsInv(s, t, Returned(s.value.value));
      case Begin(t) => MoveKeepsInv(s, t, Forcing);
      case BeginGet(t) => MoveKeepsInv(s, t, Getting);
      case Load(t) => MoveKeepsInv(s, t, AfterForceLoad(s.state));
      case LoadGet(t) => MoveKeepsInv(s, t, if s.state == INIT then Reading else Idle);
      case Spin(t) => MoveKeepsInv(s, t, AfterSpinLoad(s.state));
      case Release(t) => MoveKeepsInv(s, t, Idle);
    }
  }

  lemma CasKeepsInv<T>(s: State<T>, t: nat)
    requires Inv(s) && Allowed(s, CompareExchange(t))
    ensures Inv(Next(s, CompareExchange(t)))
  {
    if s.state != UNINIT { MoveKeepsInv(s, t, AfterFailedCas(s.state)); }
  }

  /** The winner's steps: each is its own, and no other thread notices. */
  lemma CallKeepsInv<T>(s: State<T>, t: nat, outcome: Option<T>)
    requires Inv(s) && Allowed(s, Call(t, outcome))
    ensures Inv(Next(s, Call(t, outcome)))
  {
    assert s.winner == Some(t);
  }

  lemma WriteKeepsInv<T>(s: State<T>, t: nat)
    requires Inv(s) && Allowed(s, WriteValue(t))
    ensures Inv(Next(s, WriteValue(t)))
  {
    assert s.winner == Some(t);
  }

  lemma StoreKeepsInv<T>(s: State<T>, t: nat)
    requires Inv(s) && Allowed(s, StoreState(t))
    ensures Inv(Next(s, StoreState(t)))
  {
    assert s.winner == Some(t);
  }

  lemma WinnerKeepsInv<T>(s: State<T>, step: Step<T>)
    requires Inv(s) && Allowed(s, step) && !OwnerStep(step) && !LoadStep(step)
    ensures Inv(Next(s, step))
  {
    hide Inv;
    match step {
      case CompareExchange(t) => CasKeepsInv(s, t);
      case Call(t, outcome) => CallKeepsInv(s, t, outcome);
      case WriteValue(t) => WriteKeepsInv(s, t);
      case StoreState(t) => StoreKeepsInv(s, t);
    }
  }

  /** Every step keeps the invariant; the state byte never moves backwards, the value never changes. */
  lemma StepKeepsInv<T>(s: State<T>, step: Step<T>)
    requires Inv(s) && Allowed(s, step)
    ensures Inv(Next(s, step))
    ensures s.state <= Next(s, step).state
    ensures s.first.Some? ==> Next(s, step).first == s.first
  {
    if OwnerStep(step) {
      OwnerKeepsInv(s, step);
    } else if LoadStep(step) {
      LoadKeepsInv(s, step);
    } else {
      WinnerKeepsInv(s, step);
    }
  }

  ghost predicate Run<T>(states: seq<State<T>>, steps: seq<Step<T>>) {
    && |states| == |steps| + 1
    && Init(states[0])
    && forall i | 0 <= i < |steps| :: Allowed(states[i], steps[i]) && states[i + 1] == Next(states[i], steps[i])
  }

  lemma {:induction false} RunKeepsInv<T>(states: seq<State<T>>, steps: seq<Step<T>>, k: nat)
    requires Run(states, steps) && k <= |steps|
    ensures Inv(states[k])
  {
    if k > 0 {
      hide Inv, Next, Allowed;
      RunKeepsInv(states, steps, k - 1);
      StepKeepsInv(states[k - 1], steps[k - 1]);
    }
  }

  /**
   For any number of threads and any interleaving: the initialiser runs at most once, INIT is seen
   only once the value is there, all callers get that one value, and no `unreachable!` is reached.
   */
  lemma InitialisedOnce<T>(states: seq<State<T>>, steps: seq<Step<T>>)
    requires Run(states, steps)
    ensures var s := states[|steps|];
            && s.funcRun <= 1 && s.created <= 1
            && (s.alive && s.state == INIT ==> s.value.Some?)
            && (forall v, w | v in s.seen && w in s.seen :: v == w)
            && !s.ownerStuck && (forall t | t in s.threads :: !s.threads[t].Unreachable?)
  {
    RunKeepsInv(states, steps, |steps|);
  }

  /** Along a run the state byte only grows. */
  lemma {:induction false} NeverBackwards<T>(states: seq<State<T>>, steps: seq<Step<T>>, i: nat, j: nat)
    requires Run(states, steps) && i <= j <= |steps|
    ensures states[i].state <= states[j].state
  {
    hide Inv, Next, Allowed, Init;
    if i < j {
      NeverBackwards(states, steps, i, j - 1);
      RunKeepsInv(states, steps, j - 1);
      StepKeepsInv(states[j - 1], steps[j - 1]);
    }
  }

  /**
   Over a whole life that ended in Drop or `into_inner`, panicking initialisers included: the
   initialiser was moved out or dropped exactly once, and the value, if one was created, was
   returned or dropped exactly once.
   */
  lemma ResourcesUsedOnce<T>(states: seq<State<T>>, steps: seq<Step<T>>)
    requires Run(states, steps) && !states[|steps|].alive
    ensures var s := states[|steps|];
            && s.funcTaken + s.funcDropped == 1
            && s.returned + s.dropped == s.created <= 1
            && s.funcRun == s.funcTaken
  {
    RunKeepsInv(states, steps, |steps|);
  }

  // ------------------------------------------------------------------ what callers get

  /** A call that is not over. */
  predicate Busy<T>(pc: Pc<T>) {
    !pc.Idle? && !pc.Returned? && !pc.Panicked? && !pc.Unreachable?
  }

  /** The next step of a busy thread; `outcome` is what the initialiser does, should this thread run it. */
  function Move<T>(t: nat, pc: Pc<T>, outcome: Option<T>): Step<T>
    requires Busy(pc)
  {
    match pc
    case Forcing => Load(t)
    case Getting => LoadGet(t)
    case Initing => CompareExchange(t)
    case Calling => Call(t, outcome)
    case Storing(_) => WriteValue(t)
    case Spinning => Spin(t)
    case Reading => Read(t)
    case _ => StoreState(t)
  }

  /** Thread `t` takes `n` steps, or as many as its call has left, while no other thread takes any. */
  ghost function Alone<T>(s: State<T>, t: nat, outcome: Option<T>, n: nat): (u: State<T>)
    requires t in s.threads
    ensures t in u.threads
    decreases n
  {
    if n == 0 || !Busy(s.threads[t]) then s
    else Alone(Next(s, Move(t, s.threads[t], outcome)), t, outcome, n - 1)
  }

  predicate Forces<T>(pc: Pc<T>) {
    pc.Forcing? || pc.Initing? || pc.Spinning?
  }

  lemma AloneReads<T>(s: State<T>, t: nat, outcome: Option<T>, n: nat)
    requires Inv(s) && t in s.threads && s.threads[t].Reading? && n > 0
    ensures s.first.Some? && Alone(s, t, outcome, n).threads[t] == Returned(s.first.value)
  {
    assert ThreadOk(s, t);
    var u := Next(s, Read(t));
    assert !Busy(u.threads[t]);
    assert Alone(u, t, outcome, n - 1) == u;
  }

  lemma AloneStep<T>(s: State<T>, t: nat, outcome: Option<T>, n: nat)
    requires Inv(s) && t in s.threads && Busy(s.threads[t]) && n > 0
    ensures var u := Next(s, Move(t, s.threads[t], outcome));
            Inv(u) && t in u.threads && Alone(s, t, outcome, n) == Alone(u, t, outcome, n - 1)
  {
    StepKeepsInv(s, Move(t, s.threads[t], outcome));
  }

  /** The initialiser has been run, or will never be: the value, or the panic. */
  lemma ForceOfSettled<T>(s: State<T>, t: nat, outcome: Option<T>)
    requires Inv(s) && t in s.threads && Forces(s.threads[t]) && (s.state == INIT || s.state == POISONED)
    ensures var u := Alone(s, t, outcome, 2);
            && u.state == s.state && u.first == s.first && u.value == s.value
            && (s.state == INIT ==> s.first.Some? && u.threads[t] == Returned(s.first.value))
            && (s.state == POISONED ==> s.first.None? && u.threads[t].Panicked?)
  {
    assert ThreadOk(s, t);
    AloneStep(s, t, outcome, 2);
    var u := Next(s, Move(t, s.threads[t], outcome));
    if s.state == INIT { AloneReads(u, t, outcome, 1); }
  }

  lemma PublisherFinishes<T>(s: State<T>, t: nat, outcome: Option<T>)
    requires Inv(s) && t in s.threads && s.threads[t].Publishing? && s.value == Some(s.threads[t].v)
    ensures var u := Alone(s, t, outcome, 2);
            u.threads[t] == Returned(s.threads[t].v) && u.state == INIT && u.value == s.value
  {
    hide Inv;
    AloneStep(s, t, outcome, 2);
    AloneStep(Next(s, StoreState(t)), t, outcome, 1);
  }

  /** The winner runs the initialiser to its end. */
  lemma WinnerFinishes<T>(s: State<T>, t: nat, v: T)
    requires Inv(s) && t in s.threads && s.threads[t].Calling?
    ensures var u := Alone(s, t, Some(v), 4);
            u.threads[t] == Returned(v) && u.state == INIT && u.value == Some(v)
  {
    hide Inv, Alone;
    AloneStep(s, t, Some(v), 4);
    var b := Next(s, Call(t, Some(v)));
    AloneStep(b, t, Some(v), 3);
    PublisherFinishes(Next(b, WriteValue(t)), t, Some(v));
  }

  lemma WinnerPanics<T>(s: State<T>, t: nat)
    requires Inv(s) && t in s.threads && s.threads[t].Calling?
    ensures var u := Alone(s, t, None, 4);
            u.threads[t].Panicked? && u.state == POISONED
  {
    hide Inv;
    AloneStep(s, t, None, 4);
    var b := Next(s, Call(t, None));
    AloneStep(b, t, None, 3);
  }

  /** The thread wins the race. */
  lemma ForceOfFresh<T>(s: State<T>, t: nat, outcome: Option<T>)
    requires Inv(s) && t in s.threads && s.threads[t].Initing? && s.state == UNINIT
    ensures var u := Alone(s, t, outcome, 5);
            match outcome
            case Some(v) => u.threads[t] == Returned(v) && u.state == INIT && u.value == Some(v)
            case None => u.threads[t].Panicked? && u.state == POISONED
  {
    hide Inv;
    AloneStep(s, t, outcome, 5);
    var a := Next(s, CompareExchange(t));
    match outcome {
      case Some(v) => WinnerFinishes(a, t, v);
      case None => WinnerPanics(a, t);
    }
  }

  /**
   What `force` gives its caller, if nobody is in the middle of initialising and nobody interferes: the
   value there is; the value that the initialiser makes; or a panic, exactly if the initialiser panics
   now or has panicked before.
   */
  lemma ForceAnswers<T>(s: State<T>, t: nat, outcome: Option<T>)
    requires Inv(s) && t in s.threads && Forces(s.threads[t]) && s.winner.None?
    ensures var u := Alone(s, t, outcome, 6);
            if s.first.Some? then u.threads[t] == Returned(s.first.value)
            else if s.state == UNINIT && outcome.Some? then
              u.threads[t] == Returned(outcome.value) && u.value == outcome
            else u.threads[t].Panicked? && u.state == POISONED
  {
    assert ThreadOk(s, t);
    if s.state == UNINIT {
      if s.threads[t].Forcing? {
        AloneStep(s, t, outcome, 6);
        ForceOfFresh(Next(s, Load(t)), t, outcome);
      } else {
        ForceOfFresh(s, t, outcome);
        AloneEnds(s, t, outcome, 5, 6);
      }
    } else {
      ForceOfSettled(s, t, outcome);
      AloneEnds(s, t, outcome, 2, 6);
    }
  }

  lemma {:induction false} AloneEnds<T>(s: State<T>, t: nat, outcome: Option<T>, m: nat, n: nat)
    requires Inv(s) && t in s.threads && m <= n
    requires !Busy(Alone(s, t, outcome, m).threads[t])
    ensures Alone(s, t, outcome, n) == Alone(s, t, outcome, m)
    decreases n
  {
    hide Inv;
    if m > 0 && Busy(s.threads[t]) {
      AloneStep(s, t, outcome, m);
      AloneStep(s, t, outcome, n);
      AloneEnds(Next(s, Move(t, s.threads[t], outcome)), t, outcome, m - 1, n - 1);
    }
  }

  /** The same from the call to the return: a thread that holds no reference may call at any time. */
  lemma ForceCall<T>(s: State<T>, t: nat, outcome: Option<T>)
    requires Inv(s) && Allowed(s, Begin(t)) && s.winner.None?
    ensures var u := Alone(Next(s, Begin(t)), t, outcome, 6);
            && (u.threads[t].Returned? || u.threads[t].Panicked?)
            && (u.threads[t].Returned? <==> s.first.Some? || (s.state == UNINIT && outcome.Some?))
            && (u.threads[t].Returned? ==> u.threads[t].v == if s.first.Some? then s.first.value else outcome.value)
  {
    StepKeepsInv(s, Begin(t));
    ForceAnswers(Next(s, Begin(t)), t, outcome);
  }

  /** Giving back the reference leaves the thread free to call again, and the cell as it is. */
  lemma ReleaseFrees<T>(s: State<T>, t: nat)
    requires Inv(s) && Allowed(s, Release(t))
    ensures var u := Next(s, Release(t));
            Inv(u) && u == s.(threads := s.threads[t := Idle]) && Allowed(u, Begin(t)) && Allowed(u, BeginGet(t))
  {
    assert ThreadOk(s, t);
    StepKeepsInv(s, Release(t));
  }

  /** While another thread initialises, `force` waits for it and leaves the cell alone. */
  lemma {:induction false} ForceWaitsForWinner<T>(s: State<T>, t: nat, outcome: Option<T>, n: nat)
    requires Inv(s) && t in s.threads && Forces(s.threads[t]) && s.winner.Some?
    ensures var u := Alone(s, t, outcome, n);
            && t in u.threads && Forces(u.threads[t]) && (n >= 2 ==> u.threads[t].Spinning?)
            && u == s.(threads := u.threads) && u.threads == s.threads[t := u.threads[t]]
    decreases n
  {
    if n > 0 {
      AloneStep(s, t, outcome, n);
      ForceWaitsForWinner(Next(s, Move(t, s.threads[t], outcome)), t, outcome, n - 1);
    }
  }

  /** `get` gives the value exactly if the cell is initialised, and never waits. */
  lemma GetAnswers<T>(s: State<T>, t: nat, outcome: Option<T>)
    requires Inv(s) && t in s.threads && s.threads[t].Getting?
    ensures var u := Alone(s, t, outcome, 2);
            u.threads[t] == if s.state == INIT then (if s.first.Some? then Returned(s.first.value) else Unreachable)
                            else Idle
    ensures s.state == INIT ==> s.first.Some?
  {
    assert ThreadOk(s, t);
    AloneStep(s, t, outcome, 2);
    if s.state == INIT { AloneReads(Next(s, LoadGet(t)), t, outcome, 1); }
  }

  lemma GetCall<T>(s: State<T>, t: nat, outcome: Option<T>)
    requires Inv(s) && Allowed(s, BeginGet(t))
    ensures var u := Alone(Next(s, BeginGet(t)), t, outcome, 2);
            && (s.state == INIT ==> s.first.Some? && u.threads[t] == Returned(s.first.value))
            && (s.state != INIT ==> u.threads[t] == Idle)
  {
    StepKeepsInv(s, BeginGet(t));
    GetAnswers(Next(s, BeginGet(t)), t, outcome);
  }

  /** `force_mut` hands out the value there is, or makes it, or panics with the initialiser. */
  lemma ForceMutAnswers<T>(s: State<T>, outcome: Option<T>)
    requires Inv(s) && Allowed(s, ForceMut(outcome))
    ensures var u := Next(s, ForceMut(outcome));
            && u.threads == s.threads && u.alive
            && (s.first.Some? ==> u.first == u.value == s.first && u.state == INIT && u.funcRun == s.funcRun)
            && (s.first.None? ==> u.first == if s.state == UNINIT then outcome else None)
            && (u.first.Some? ==> u.state == INIT && u.first == u.value && u.seen == s.seen + {u.first.value})
            && (u.first.None? ==> u.state == POISONED && u.seen == s.seen)
  {
    assert s.winner.None?;
  }

  /**
   How a cell ends: `into_inner` returns the value, if there is one, and drops none; `Drop` drops it and
   returns none. Either drops the initialiser exactly if it has never been moved out.
   */
  lemma EndOfLife<T>(s: State<T>, step: Step<T>)
    requires Inv(s) && Allowed(s, step) && (step.IntoInner? || step.Drop?)
    ensures var u := Next(s, step);
            && !u.alive && u.value.None?
            && u.handedBack == (if step.IntoInner? then s.first else None)
            && u.returned == (if step.IntoInner? then s.created else 0)
            && u.dropped == (if step.Drop? then s.created else 0)
            && u.funcDropped == 1 - s.funcTaken
  {
    assert s.winner.None?;
  }

  /** In every run a thread panics only if the initialiser has panicked, and no value ever comes into being then. */
  lemma PanicsOnlyIfPoisoned<T>(states: seq<State<T>>, steps: seq<Step<T>>, t: nat)
    requires Run(states, steps) && t in states[|steps|].threads && states[|steps|].threads[t].Panicked?
    ensures var s := states[|steps|]; s.first.None? && s.state == POISONED && s.funcRun == 1 && s.created == 0
  {
    RunKeepsInv(states, steps, |steps|);
    assert ThreadOk(states[|steps|], t);
  }
}
