/**
 Waiting for N children through SIGCHLD.  The signal is blocked except inside
 sigsuspend(), a pending signal is one bit however many children have exited
 (POSIX.1-2017 XSH section 2.4.1), and the handler collects all the zombies it finds.
 */
module ChildReaper {
  import opened Runs
  import opened Sums

  datatype Child = Unborn | Running | Zombie | Reaped

  datatype ParentPc =
    | PFork(i: nat)         // the fork loop, about to create child i
    | PTest                 // while (child_cnt > 0)
    | PSuspend              // sigsuspend()
    | PHandler(last: bool)  // the handler is entered; `last` when after the loop
    | PReap(last: bool)     // waitpid(-1, NULL, WNOHANG) in the handler
    | PRestore              // the original signal mask is restored
    | PDone

  datatype State = State(
    children: seq<Child>,
    pending: bool,
    ppc: ParentPc,
    childCnt: int,
    sigCnt: nat,
    stops: nat,             // SIGCHLDs so far for a child that only stopped
    stopsLeft: nat          // and how many of those can still come
  )

  datatype Move =
    | Parent(i: nat)        // the parent acts; waitpid() returns child `i` if it returns one
    | Exit(i: nat)
    | Stop(i: nat)

  function Init(n: nat, stopsLeft: nat): State
  {
    State(seq(n, i => Unborn), false, PFork(0), n, 0, 0, stopsLeft)
  }

  function IsZombie(c: Child): nat
  {
    if c.Zombie? then 1 else 0
  }

  function IsReaped(c: Child): nat
  {
    if c.Reaped? then 1 else 0
  }

  function HasExited(c: Child): nat
  {
    if c.Zombie? || c.Reaped? then 1 else 0
  }

  function Step(s: State, m: Move): Option<State>
  {
    match m
    case Parent(i) => ParentStep(s, i)
    case Exit(i) =>
      if i < |s.children| && s.children[i].Running? then
        Some(s.(children := s.children[i := Zombie], pending := true))
      else None
    case Stop(i) =>
      if i < |s.children| && s.children[i].Running? && s.stopsLeft > 0 then
        Some(s.(pending := true, stops := s.stops + 1, stopsLeft := s.stopsLeft - 1))
      else None
  }

  function ParentStep(s: State, i: nat): Option<State>
  {
    match s.ppc
    case PFork(k) =>
      if k < |s.children| then Some(s.(children := s.children[k := Running], ppc := PFork(k + 1)))
      else Some(s.(ppc := PTest))
    case PTest => Some(s.(ppc := if s.childCnt > 0 then PSuspend else PRestore))
    case PSuspend =>
      if s.pending then Some(s.(pending := false, ppc := PHandler(false))) else None
    case PHandler(last) => Some(s.(sigCnt := s.sigCnt + 1, ppc := PReap(last)))
    case PReap(last) =>
      if i < |s.children| && s.children[i].Zombie? then
        Some(s.(children := s.children[i := Reaped], childCnt := s.childCnt - 1))
      else if Sum(IsZombie, s.children) == 0 then
        Some(s.(ppc := if last then PDone else PTest))
      else None
    case PRestore =>
      if s.pending then Some(s.(pending := false, ppc := PHandler(true))) else Some(s.(ppc := PDone))
    case PDone => None
  }

  ghost predicate Reachable(n: nat, stops: nat, s: State)
  {
    Reaches(Step, Init(n, stops), s)
  }

  predicate AfterLoop(s: State)
  {
    s.ppc.PRestore? || s.ppc.PDone? || ((s.ppc.PHandler? || s.ppc.PReap?) && s.ppc.last)
  }

  ghost predicate AllReaped(s: State)
  {
    forall i :: 0 <= i < |s.children| ==> s.children[i].Reaped?
  }

  ghost predicate Inv(s: State)
  {
    && s.childCnt == |s.children| - Sum(IsReaped, s.children)
    && (s.ppc.PFork? ==> s.ppc.i <= |s.children|)
    && (forall i :: 0 <= i < |s.children| ==> (s.children[i].Unborn? <==> s.ppc.PFork? && s.ppc.i <= i))
    && (Sum(IsZombie, s.children) > 0 ==> s.pending || s.ppc.PHandler? || s.ppc.PReap?)
    && s.sigCnt + (if s.pending then 1 else 0) + (if s.ppc.PHandler? then 1 else 0)
       <= Sum(HasExited, s.children) + s.stops
    && (s.ppc.PReap? || Sum(IsReaped, s.children) > 0 ==> s.sigCnt > 0)
    && (s.ppc.PSuspend? ==> s.childCnt > 0)
    && (AfterLoop(s) ==> s.childCnt <= 0)
    && (AfterLoop(s) && !s.ppc.PRestore? ==> !s.pending)
  }

  /** The totals follow a child that changes from one state to the next. */
  lemma ChildChanges(cs: seq<Child>, i: nat, c: Child)
    requires i < |cs|
    ensures Sum(IsZombie, cs[i := c]) + IsZombie(cs[i]) == Sum(IsZombie, cs) + IsZombie(c)
    ensures Sum(IsReaped, cs[i := c]) + IsReaped(cs[i]) == Sum(IsReaped, cs) + IsReaped(c)
    ensures Sum(HasExited, cs[i := c]) + HasExited(cs[i]) == Sum(HasExited, cs) + HasExited(c)
    ensures Sum(Effort, cs[i := c]) + Effort(cs[i]) == Sum(Effort, cs) + Effort(c)
  {
    SumUpdate(IsZombie, cs, i, c);
    SumUpdate(IsReaped, cs, i, c);
    SumUpdate(HasExited, cs, i, c);
    SumUpdate(Effort, cs, i, c);
  }

  lemma InvInit(n: nat, stops: nat)
    ensures Inv(Init(n, stops))
  {
    var s := Init(n, stops);
    SumBound(IsZombie, s.children, 0);
    SumBound(IsReaped, s.children, 0);
  }

  lemma InvFork(s: State)
    requires Inv(s) && s.ppc.PFork?
    ensures Inv(ParentStep(s, 0).value)
  {
    if s.ppc.i < |s.children| {
      ChildChanges(s.children, s.ppc.i, Running);
    }
  }

  lemma InvReap(s: State, i: nat)
    requires Inv(s) && s.ppc.PReap? && ParentStep(s, i).Some?
    ensures Inv(ParentStep(s, i).value)
  {
    if i < |s.children| && s.children[i].Zombie? {
      ChildChanges(s.children, i, Reaped);
    }
  }

  lemma InvExit(s: State, i: nat)
    requires Inv(s) && Step(s, Exit(i)).Some?
    ensures Inv(Step(s, Exit(i)).value)
  {
    ChildChanges(s.children, i, Zombie);
    NoneRunsAfterLoop(s, i);
  }

  /** After the loop there is no child left to exit or stop. */
  lemma NoneRunsAfterLoop(s: State, i: nat)
    requires Inv(s) && i < |s.children| && s.children[i].Running?
    ensures !AfterLoop(s)
  {
    AllOrNotAll(s);
  }

  lemma InvStep(s: State, m: Move)
    requires Inv(s) && Step(s, m).Some?
    ensures Inv(Step(s, m).value)
  {
    match m
    case Exit(i) => InvExit(s, i);
    case Stop(i) => NoneRunsAfterLoop(s, i);
    case Parent(i) =>
      if s.ppc.PFork? {
        InvFork(s);
      } else if s.ppc.PReap? {
        InvReap(s, i);
      }
  }

  /** child_cnt is zero exactly when every child has been collected. */
  lemma AllOrNotAll(s: State)
    requires s.childCnt == |s.children| - Sum(IsReaped, s.children)
    ensures s.childCnt >= 0
    ensures s.childCnt <= 0 <==> AllReaped(s)
  {
    SumBound(IsReaped, s.children, 1);
    if s.childCnt <= 0 {
      SumFull(IsReaped, s.children);
      forall i | 0 <= i < |s.children|
        ensures s.children[i].Reaped?
      {
        assert IsReaped(s.children[i]) == 1;
      }
    } else if AllReaped(s) {
      AllReapedCounts(s.children);
    }
  }

  lemma {:induction false} AllReapedCounts(cs: seq<Child>)
    requires forall i :: 0 <= i < |cs| ==> cs[i].Reaped?
    ensures Sum(IsReaped, cs) == |cs|
  {
    if cs != [] {
      AllReapedCounts(cs[1..]);
    }
  }

  lemma StepIsGood()
    ensures Preserved(Step, (m: Move) => true, Inv)
    ensures Decreases(Step, (m: Move) => true, Inv, Measure)
  {
    forall s, m | Inv(s) && Step(s, m).Some?
      ensures Inv(Step(s, m).value) && Measure(Step(s, m).value) < Measure(s)
    {
      InvStep(s, m);
      MeasureDecreases(s, m);
    }
  }

  predicate Sized(n: nat, stops: nat, s: State)
  {
    |s.children| == n && s.stops + s.stopsLeft == stops
  }

  lemma SizedStep(n: nat, stops: nat, s: State, m: Move)
    requires Sized(n, stops, s) && Step(s, m).Some?
    ensures Sized(n, stops, Step(s, m).value)
  {
  }

  lemma SizedIsPreserved(n: nat, stops: nat)
    ensures Preserved(Step, (m: Move) => true, (t: State) => Sized(n, stops, t))
  {
    forall s, m | Sized(n, stops, s) && Step(s, m).Some?
      ensures Sized(n, stops, Step(s, m).value)
    {
      SizedStep(n, stops, s, m);
    }
  }

  lemma ReachableInv(n: nat, stops: nat, s: State)
    requires Reachable(n, stops, s)
    ensures Inv(s) && Sized(n, stops, s)
  {
    InvInit(n, stops);
    StepIsGood();
    SizedIsPreserved(n, stops);
    var ms :| Run(Step, Init(n, stops), ms) == Some(s);
    InvariantHolds(Step, (m: Move) => true, Inv, Init(n, stops), ms);
    InvariantHolds(Step, (m: Move) => true, (t: State) => Sized(n, stops, t), Init(n, stops), ms);
  }

  // ---- What every reachable state satisfies

  /** An exited child that is not collected yet has a signal or a running handler to collect it. */
  lemma NoLostWakeup(n: nat, stops: nat, s: State, i: nat)
    requires Reachable(n, stops, s) && i < n && i < |s.children| && s.children[i].Zombie?
    ensures s.pending || s.ppc.PHandler? || s.ppc.PReap?
  {
    ReachableInv(n, stops, s);
    SumAtLeast(IsZombie, s.children, i);
  }

  /** The counter is exact, so the loop is left exactly when every child has been collected. */
  lemma CounterIsExact(n: nat, stops: nat, s: State)
    requires Reachable(n, stops, s)
    ensures s.childCnt == n - Sum(IsReaped, s.children)
    ensures AfterLoop(s) ==> AllReaped(s)
    ensures s.ppc.PTest? && Step(s, Parent(0)).Some? ==> (AfterLoop(Step(s, Parent(0)).value) <==> AllReaped(s))
  {
    ReachableInv(n, stops, s);
    AllOrNotAll(s);
  }

  /** The pending signal is delivered. */
  predicate Delivered(s: State, m: Move)
  {
    s.pending && Step(s, m).Some? && !Step(s, m).value.pending
  }

  /** Deliveries counted, and one that the handler has not counted yet. */
  function Seen(s: State): nat
  {
    s.sigCnt + if s.ppc.PHandler? then 1 else 0
  }

  lemma SeenStep(s: State, m: Move)
    requires Step(s, m).Some?
    ensures Seen(Step(s, m).value) == Seen(s) + if Delivered(s, m) then 1 else 0
  {
  }

  /** A pending signal stays pending until it is delivered. */
  lemma {:induction false} PendingIsDelivered(s: State, ms: seq<Move>)
    requires s.pending && Run(Step, s, ms).Some? && !Run(Step, s, ms).value.pending
    ensures Count(Step, Delivered, s, ms) >= 1
    decreases ms
  {
    if ms != [] && Step(s, ms[0]).value.pending {
      PendingIsDelivered(Step(s, ms[0]).value, ms[1..]);
    }
  }

  /** No exit and no stop goes without a signal: once none is pending, one has been delivered since. */
  lemma ExitsAndStopsSignal(s: State, m: Move, ms: seq<Move>)
    requires !m.Parent? && Run(Step, s, [m] + ms).Some? && !Run(Step, s, [m] + ms).value.pending
    ensures Count(Step, Delivered, s, [m] + ms) >= 1
  {
    assert ([m] + ms)[1..] == ms;
    PendingIsDelivered(Step(s, m).value, ms);
  }

  /** sig_cnt is the number of signals delivered, however many children each of them stands for. */
  lemma {:induction false} DeliveriesAreCounted(s: State, ms: seq<Move>)
    requires Run(Step, s, ms).Some?
    ensures Seen(Run(Step, s, ms).value) == Seen(s) + Count(Step, Delivered, s, ms)
    decreases ms
  {
    if ms != [] {
      SeenStep(s, ms[0]);
      DeliveriesAreCounted(Step(s, ms[0]).value, ms[1..]);
    }
  }

  /**
   The handler has counted every delivery but the one that is just calling it.  Coalescing
   only saves calls: one per exit or stop at the most, and one is needed.
   */
  lemma HandlerCallsAreBounded(n: nat, stops: nat, s: State, ms: seq<Move>)
    requires Run(Step, Init(n, stops), ms) == Some(s)
    ensures s.sigCnt + (if s.ppc.PHandler? then 1 else 0) == Count(Step, Delivered, Init(n, stops), ms)
    ensures s.sigCnt <= n + s.stops
    ensures n > 0 && AllReaped(s) ==> s.sigCnt >= 1
  {
    DeliveriesAreCounted(Init(n, stops), ms);
    ReachableInv(n, stops, s);
    SumBound(HasExited, s.children, 1);
    if n > 0 && AllReaped(s) {
      AllReapedCounts(s.children);
    }
  }

  // ---- Both bounds on the handler calls are attained

  /** Before the test of the loop: the first `k` children have been collected, the others run. */
  predicate Quiet(s: State, k: nat)
  {
    && s.ppc.PTest? && !s.pending && k <= |s.children| && s.childCnt == |s.children| - k
    && forall i :: 0 <= i < |s.children| ==> s.children[i] == if i < k then Reaped else Running
  }

  lemma {:induction false} ForkFrom(s: State) returns (t: State)
    requires s.ppc.PFork? && s.ppc.i <= |s.children| && s.childCnt == |s.children| && !s.pending
    requires forall i :: 0 <= i < s.ppc.i ==> s.children[i].Running?
    ensures Reaches(Step, s, t) && Quiet(t, 0) && |t.children| == |s.children|
    ensures t.sigCnt == s.sigCnt && t.stops == s.stops && t.stopsLeft == s.stopsLeft
    decreases |s.children| - s.ppc.i
  {
    ReachesSelf(Step, s);
    t := Go(Step, s, s, Parent(0));
    if s.ppc.i < |s.children| {
      var u := ForkFrom(t);
      ReachesThrough(Step, s, t, u);
      t := u;
    }
  }

  /** With no exited child left, a signal is one turn of the loop. */
  lemma StopRound(s: State, k: nat) returns (t: State)
    requires Quiet(s, k) && k < |s.children| && s.stopsLeft > 0
    ensures Reaches(Step, s, t) && Quiet(t, k) && |t.children| == |s.children|
    ensures t.sigCnt == s.sigCnt + 1 && t.stops == s.stops + 1 && t.stopsLeft == s.stopsLeft - 1
  {
    ReachesSelf(Step, s);
    t := Go(Step, s, s, Stop(k));
    t := Go(Step, s, t, Parent(0));
    t := Go(Step, s, t, Parent(0));
    t := Go(Step, s, t, Parent(0));
    SumBound(IsZombie, t.children, 0);
    t := Go(Step, s, t, Parent(k));
  }

  lemma ExitRound(s: State, k: nat) returns (t: State)
    requires Quiet(s, k) && k < |s.children|
    ensures Reaches(Step, s, t) && Quiet(t, k + 1) && |t.children| == |s.children|
    ensures t.sigCnt == s.sigCnt + 1 && t.stops == s.stops && t.stopsLeft == s.stopsLeft
  {
    ReachesSelf(Step, s);
    t := Go(Step, s, s, Exit(k));
    t := Go(Step, s, t, Parent(0));
    t := Go(Step, s, t, Parent(0));
    t := Go(Step, s, t, Parent(0));
    t := Go(Step, s, t, Parent(k));
    SumBound(IsZombie, t.children, 0);
    t := Go(Step, s, t, Parent(k));
  }

  lemma {:induction false} OneByOne(s: State, k: nat) returns (t: State)
    requires Quiet(s, k) && (k == |s.children| ==> s.stopsLeft == 0)
    ensures Reaches(Step, s, t) && Quiet(t, |t.children|) && |t.children| == |s.children|
    ensures t.sigCnt == s.sigCnt + s.stopsLeft + (|s.children| - k) && t.stops == s.stops + s.stopsLeft
    decreases s.stopsLeft, |s.children| - k
  {
    ReachesSelf(Step, s);
    t := s;
    if k < |s.children| && s.stopsLeft > 0 {
      var u := StopRound(s, k);
      t := OneByOne(u, k);
      ReachesThrough(Step, s, u, t);
    } else if k < |s.children| {
      var u := ExitRound(s, k);
      t := OneByOne(u, k + 1);
      ReachesThrough(Step, s, u, t);
    }
  }

  /** A signal for each exit and each stop, when they come one at a time. */
  lemma EveryCallCanBeNeeded(n: nat, stops: nat) returns (s: State)
    requires n > 0
    ensures Reachable(n, stops, s) && s.ppc.PDone? && AllReaped(s) && s.stops == stops && s.sigCnt == n + stops
  {
    var s0 := Init(n, stops);
    var a := ForkFrom(s0);
    var b := OneByOne(a, 0);
    ReachesThrough(Step, s0, a, b);
    s := Go(Step, s0, b, Parent(0));
    s := Go(Step, s0, s, Parent(0));
  }

  /** All children exit before the parent moves on. */
  lemma {:induction false} ExitFrom(s: State, k: nat) returns (t: State)
    requires k <= |s.children| && (k > 0 ==> s.pending)
    requires forall i :: 0 <= i < |s.children| ==> s.children[i] == if i < k then Zombie else Running
    ensures Reaches(Step, s, t) && t == s.(children := t.children, pending := s.pending || |s.children| > 0)
    ensures |t.children| == |s.children| && forall i :: 0 <= i < |t.children| ==> t.children[i].Zombie?
    decreases |s.children| - k
  {
    ReachesSelf(Step, s);
    t := s;
    if k < |s.children| {
      var u := Go(Step, s, s, Exit(k));
      t := ExitFrom(u, k + 1);
      ReachesThrough(Step, s, u, t);
    }
  }

  /** One call of the handler collects all the children that have exited. */
  lemma {:induction false} ReapFrom(s: State, k: nat) returns (t: State)
    requires s.ppc.PReap? && k <= |s.children| && s.childCnt == |s.children| - k
    requires forall i :: 0 <= i < |s.children| ==> s.children[i] == if i < k then Reaped else Zombie
    ensures Reaches(Step, s, t) && t == s.(children := t.children, childCnt := 0)
    ensures |t.children| == |s.children| && AllReaped(t)
    decreases |s.children| - k
  {
    ReachesSelf(Step, s);
    t := s;
    if k < |s.children| {
      var u := Go(Step, s, s, Parent(k));
      t := ReapFrom(u, k + 1);
      ReachesThrough(Step, s, u, t);
    }
  }

  /** A single signal for all, when every child exits before the parent first waits. */
  lemma OneCallCanBeEnough(n: nat, stops: nat) returns (s: State)
    requires n > 0
    ensures Reachable(n, stops, s) && s.ppc.PDone? && AllReaped(s) && s.sigCnt == 1
  {
    var s0 := Init(n, stops);
    var a := ForkFrom(s0);
    var b := ExitFrom(a, 0);
    ReachesThrough(Step, s0, a, b);
    var c := Go(Step, s0, b, Parent(0));
    c := Go(Step, s0, c, Parent(0));
    c := Go(Step, s0, c, Parent(0));
    var d := ReapFrom(c, 0);
    ReachesThrough(Step, s0, c, d);
    SumBound(IsZombie, d.children, 0);
    s := Go(Step, s0, d, Parent(0));
    s := Go(Step, s0, s, Parent(0));
    s := Go(Step, s0, s, Parent(0));
  }

  // ---- Progress

  function Effort(c: Child): nat
  {
    match c
    case Unborn => 7
    case Running => 6
    case Zombie => 1
    case Reaped => 0
  }

  function Measure(s: State): nat
  {
    Sum(Effort, s.children) + 5 * s.stopsLeft + (if s.pending then 4 else 0) +
    match s.ppc
      case PFork(_) => 3
      case PTest => 2
      case PSuspend => 1
      case PHandler(_) => 4
      case PReap(_) => 3
      case PRestore => 1
      case PDone => 0
  }

  lemma MeasureDecreases(s: State, m: Move)
    requires Inv(s) && Step(s, m).Some?
    ensures Measure(Step(s, m).value) < Measure(s)
  {
    match m
    case Exit(i) => ChildChanges(s.children, i, Zombie);
    case Stop(_) =>
    case Parent(i) =>
      if s.ppc.PFork? && s.ppc.i < |s.children| {
        ChildChanges(s.children, s.ppc.i, Running);
      } else if s.ppc.PReap? && i < |s.children| && s.children[i].Zombie? {
        ChildChanges(s.children, i, Reaped);
      }
  }

  /** While the parent sleeps without a signal, some child is still running. */
  lemma SomeChildRuns(s: State) returns (i: nat)
    requires Inv(s) && s.ppc.PSuspend? && !s.pending
    ensures i < |s.children| && s.children[i].Running?
  {
    AllOrNotAll(s);
    i :| 0 <= i < |s.children| && !s.children[i].Reaped?;
    SumAtLeast(IsZombie, s.children, i);
  }

  lemma NeverStuck(s: State) returns (m: Move)
    requires Inv(s) && !s.ppc.PDone?
    ensures Step(s, m).Some?
  {
    m := Parent(0);
    if s.ppc.PSuspend? && !s.pending {
      var i := SomeChildRuns(s);
      m := Exit(i);
    } else if s.ppc.PReap? && Sum(IsZombie, s.children) > 0 {
      var i := SumPositive(IsZombie, s.children);
      m := Parent(i);
    }
  }

  /** Every run is finite, and one that cannot go on has collected every child. */
  lemma EveryRunCollectsAll(n: nat, stops: nat, ms: seq<Move>)
    requires Run(Step, Init(n, stops), ms).Some?
    ensures |ms| <= 7 * n + 5 * stops + 3
    ensures var s := Run(Step, Init(n, stops), ms).value;
            (forall m :: Step(s, m).None?) ==> s.ppc.PDone? && AllReaped(s) && s.childCnt == 0 && !s.pending
  {
    var s := Run(Step, Init(n, stops), ms).value;
    InvInit(n, stops);
    StepIsGood();
    RunIsBounded(Step, (m: Move) => true, Inv, Measure, Init(n, stops), ms);
    SumBound(Effort, Init(n, stops).children, 7);
    ReachableInv(n, stops, s);
    if forall m :: Step(s, m).None? {
      if !s.ppc.PDone? {
        var m := NeverStuck(s);
        assert false;
      }
      AllOrNotAll(s);
    }
  }

  // ---- The program

  /**
   process_wait_by_signal, however the children are scheduled: it returns with every child
   collected, the last signal taken, and sig_cnt the number of signals delivered.
   */
  method ProcessWaitBySignal(w: World<State, Move>, n: nat, stops: nat)
    requires w.Valid() && w.step == Step && w.s == Init(n, stops)
    modifies w
    ensures w.Valid() && w.s.ppc.PDone? && AllReaped(w.s) && w.s.childCnt == 0 && !w.s.pending
    ensures old(w.trace) <= w.trace
    ensures w.s.sigCnt == Count(Step, Delivered, old(w.s), w.trace[|old(w.trace)|..])
    ensures w.s.sigCnt <= n + w.s.stops
  {
    InvInit(n, stops);
    ForkAll(w, n);
    while w.s.childCnt > 0
      invariant w.Valid() && w.step == Step && Inv(w.s) && w.s.ppc.PTest?
      invariant old(w.trace) <= w.trace && |w.s.children| == n
      decreases Measure(w.s)
    {
      Act(w, 0);
      Suspend(w);                     // sigsuspend()
      Handler(w);
    }
    Act(w, 0);
    RestoreMask(w);
    Since(Step, Delivered, w.start, old(w.trace), w.trace);
    DeliveriesAreCounted(old(w.s), w.trace[|old(w.trace)|..]);
    SumBound(HasExited, w.s.children, 1);
  }

  /** The fork loop; children may exit before it is over. */
  method ForkAll(w: World<State, Move>, n: nat)
    requires w.Valid() && w.step == Step && Inv(w.s) && w.s.ppc == PFork(0) && |w.s.children| == n
    modifies w
    ensures w.Valid() && Inv(w.s) && w.s.ppc.PTest? && |w.s.children| == n && old(w.trace) <= w.trace
  {
    for i := 0 to n
      invariant w.Valid() && w.step == Step && Inv(w.s) && w.s.ppc == PFork(i) && |w.s.children| == n
      invariant old(w.trace) <= w.trace
    {
      ChildrenRun(w);
      Act(w, i);                      // fork()
    }
    Act(w, 0);
  }

  /** The original mask is restored; a signal that is pending gets through. */
  method RestoreMask(w: World<State, Move>)
    requires w.Valid() && w.step == Step && Inv(w.s) && w.s.ppc.PRestore?
    modifies w
    ensures w.Valid() && Inv(w.s) && w.s.ppc.PDone? && AllReaped(w.s) && w.s.childCnt == 0
    ensures |w.s.children| == |old(w.s.children)| && old(w.trace) <= w.trace
  {
    if w.s.pending {
      Act(w, 0);
      Handler(w);
    } else {
      Act(w, 0);
    }
    AllOrNotAll(w.s);
  }

  /** sigchld_signal_handler: count the call, and collect until waitpid() has nobody to return. */
  method Handler(w: World<State, Move>)
    requires w.Valid() && w.step == Step && Inv(w.s) && w.s.ppc.PHandler?
    modifies w
    ensures w.Valid() && Inv(w.s) && Measure(w.s) < Measure(old(w.s))
    ensures w.s.ppc == if old(w.s.ppc.last) then PDone else PTest
    ensures w.s.sigCnt == old(w.s.sigCnt) + 1 && Sum(IsZombie, w.s.children) == 0
    ensures |w.s.children| == |old(w.s.children)| && old(w.trace) <= w.trace
  {
    Act(w, 0);
    ChildrenRun(w);
    while Sum(IsZombie, w.s.children) > 0
      invariant w.Valid() && w.step == Step && Inv(w.s) && w.s.ppc == PReap(old(w.s.ppc.last))
      invariant w.s.sigCnt == old(w.s.sigCnt) + 1
      invariant |w.s.children| == |old(w.s.children)| && old(w.trace) <= w.trace
      invariant Measure(w.s) < Measure(old(w.s))
      decreases Measure(w.s)
    {
      Collect(w);
    }
    Act(w, 0);
  }

  /** waitpid() returns some child that has exited. */
  method Collect(w: World<State, Move>)
    requires w.Valid() && w.step == Step && Inv(w.s) && w.s.ppc.PReap? && Sum(IsZombie, w.s.children) > 0
    modifies w
    ensures w.Valid() && Inv(w.s) && w.s.ppc == old(w.s.ppc) && w.s.sigCnt == old(w.s.sigCnt)
    ensures w.s.childCnt == old(w.s.childCnt) - 1
    ensures |w.s.children| == |old(w.s.children)| && old(w.trace) <= w.trace && Measure(w.s) < Measure(old(w.s))
  {
    ghost var z := SumPositive(IsZombie, w.s.children);
    var i :| 0 <= i < |w.s.children| && w.s.children[i].Zombie?;
    Act(w, i);
    ChildrenRun(w);
  }

  /** One action of the parent. */
  method Act(w: World<State, Move>, i: nat)
    requires w.Valid() && w.step == Step && Inv(w.s) && ParentStep(w.s, i).Some?
    modifies w
    ensures w.Valid() && Inv(w.s) && w.s == ParentStep(old(w.s), i).value && old(w.trace) <= w.trace
    ensures Measure(w.s) < Measure(old(w.s))
  {
    InvStep(w.s, Parent(i));
    MeasureDecreases(w.s, Parent(i));
    w.Do(Parent(i));
  }

  predicate OfChild(m: Move)
  {
    !m.Parent?
  }

  /** What the children cannot disturb: the parent's place, its counters, the number of children. */
  ghost predicate Kept(from: State, s: State)
  {
    && Inv(s) && s.ppc == from.ppc && s.childCnt == from.childCnt && s.sigCnt == from.sigCnt
    && |s.children| == |from.children| && Measure(s) <= Measure(from)
  }

  lemma KeptByChildren(from: State)
    ensures Preserved(Step, OfChild, (s: State) => Kept(from, s))
    ensures Decreases(Step, OfChild, (s: State) => Kept(from, s), Measure)
  {
    forall s, m | Kept(from, s) && OfChild(m) && Step(s, m).Some?
      ensures Kept(from, Step(s, m).value) && Measure(Step(s, m).value) < Measure(s)
    {
      InvStep(s, m);
      MeasureDecreases(s, m);
    }
  }

  method ChildrenRun(w: World<State, Move>)
    requires w.Valid() && w.step == Step && Inv(w.s)
    modifies w
    ensures w.Valid() && Kept(old(w.s), w.s) && old(w.trace) <= w.trace
  {
    ghost var from := w.s;
    KeptByChildren(from);
    w.Interfere(OfChild, (s: State) => Kept(from, s));
  }

  lemma SomeChildActs(t: State) returns (m: Move)
    requires Inv(t) && t.ppc.PSuspend? && !t.pending
    ensures OfChild(m) && Step(t, m).Some?
  {
    var i := SomeChildRuns(t);
    m := Exit(i);
  }

  /** The parent sleeps until a signal is pending; the signal is taken as it wakes up. */
  method Suspend(w: World<State, Move>)
    requires w.Valid() && w.step == Step && Inv(w.s) && w.s.ppc.PSuspend?
    modifies w
    ensures w.Valid() && Inv(w.s) && w.s.ppc == PHandler(false) && Measure(w.s) < Measure(old(w.s))
    ensures w.s.sigCnt == old(w.s.sigCnt) && |w.s.children| == |old(w.s.children)| && old(w.trace) <= w.trace
  {
    ghost var from := w.s;
    KeptByChildren(from);
    forall t | Kept(from, t) && !t.pending
      ensures exists m :: OfChild(m) && Step(t, m).Some?
    {
      var m := SomeChildActs(t);
    }
    w.WaitUntil((s: State) => s.pending, OfChild, (s: State) => Kept(from, s), Measure);
    Act(w, 0);
  }
}
