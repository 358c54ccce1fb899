/**
 Any number of processes run the same function: the one that creates the
 semaphore initialises it, the others poll sem_otime until it is initialised,
 and then all of them compete for `slots` places in a job section.
 A process can be killed at any point.
 */
module SemaphoreRace {
  import opened Runs
  import opened Sums

  datatype Pc =
    | Start                 // semget(IPC_CREAT | IPC_EXCL)
    | CZero                 // the creator: SETVAL 0
    | CStamp                // the creator: semop(0), which sets sem_otime
    | CTwo                  // the creator: SETVAL to the number of slots
    | CCheck                // the creator tests a sem_otime that it never read
    | Open                  // the others: semget()
    | Poll(j: nat)          // IPC_STAT, for the j-th time
    | Check(seen: bool)     // the test of the sem_otime that IPC_STAT returned
    | Enter                 // semop(-1)
    | Job                   // the job section, which semop(+1) ends
    | Done
    | Failed                // fatal()
    | Killed
    | KilledInJob

  datatype State = State(
    procs: seq<Pc>,
    slots: nat,
    tries: nat,             // MAX_TRIES
    creator: Option<nat>,   // which process created the semaphore
    value: nat,
    otime: bool,            // sem_otime is not zero
    ready: bool             // the creator has set the value for the second time
  )

  /**
   Process `i` acts, or is killed.  `value` is what the kernel puts into a new
   semaphore, and `luck` what the creator finds in its uninitialised variable.
   */
  datatype Move = Proc(i: nat, value: nat, luck: bool) | Kill(i: nat)

  function Init(n: nat, slots: nat, tries: nat): State
  {
    State(seq(n, i => Start), slots, tries, None, 0, false, false)
  }

  function Goto(s: State, i: nat, p: Pc): State
    requires i < |s.procs|
  {
    s.(procs := s.procs[i := p])
  }

  function Step(s: State, m: Move): Option<State>
  {
    if m.i >= |s.procs| then None
    else match m
      case Proc(i, v, luck) => ProcStep(s, i, v, luck)
      case Kill(i) =>
        if Over(s.procs[i]) then None
        else Some(Goto(s, i, if s.procs[i].Job? then KilledInJob else Killed))
  }

  function ProcStep(s: State, i: nat, v: nat, luck: bool): Option<State>
    requires i < |s.procs|
  {
    match s.procs[i]
    case Start =>
      if s.creator.None? then Some(Goto(s.(creator := Some(i), value := v), i, CZero))
      else Some(Goto(s, i, Open))
    case CZero => Some(Goto(s.(value := 0), i, CStamp))
    case CStamp => if s.value == 0 then Some(Goto(s.(otime := true), i, CTwo)) else None
    case CTwo => Some(Goto(s.(value := s.slots, ready := true), i, CCheck))
    case CCheck => Some(Goto(s, i, if luck then Enter else Failed))
    case Open => if s.creator.Some? then Some(Goto(s, i, Poll(0))) else None
    case Poll(j) => Some(Goto(s, i, if j >= s.tries then Check(false) else if s.otime then Check(true) else Poll(j + 1)))
    case Check(seen) => Some(Goto(s, i, if seen then Enter else Failed))
    case Enter => if s.value > 0 then Some(Goto(s.(value := s.value - 1, otime := true), i, Job)) else None
    case Job => Some(Goto(s.(value := s.value + 1, otime := true), i, Done))
    case _ => None
  }

  predicate Over(p: Pc)
  {
    p.Done? || p.Failed? || p.Killed? || p.KilledInJob?
  }

  predicate OfCreator(p: Pc)
  {
    p.CZero? || p.CStamp? || p.CTwo? || p.CCheck?
  }

  /** Has not operated on the semaphore with semop(), and is not about to. */
  predicate Early(p: Pc)
  {
    p.Start? || p.CZero? || p.CStamp? || p.Open? || p.Poll? || p == Check(false) || p.Failed? || p.Killed?
  }

  function InJob(p: Pc): nat
  {
    if p.Job? then 1 else 0
  }

  function DiedInJob(p: Pc): nat
  {
    if p.KilledInJob? then 1 else 0
  }

  function Holding(p: Pc): nat
  {
    InJob(p) + DiedInJob(p)
  }

  ghost predicate Reachable(n: nat, slots: nat, tries: nat, s: State)
  {
    Reaches(Step, Init(n, slots, tries), s)
  }

  // ---- The invariant

  /** What the place of one process says about the semaphore. */
  predicate PlaceOk(s: State, i: nat)
    requires i < |s.procs|
  {
    var p := s.procs[i];
    && (OfCreator(p) ==> s.creator == Some(i))
    && (p.CZero? ==> !s.otime)
    && (p.CStamp? ==> s.value == 0 && !s.otime)
    && (p.CTwo? ==> s.otime && !s.ready)
    && (p.CCheck? ==> s.ready)
    && (s.creator.None? ==> p.Start? || p.Killed?)
    && (!s.otime ==> Early(p))
    && (!s.ready ==> !p.Job? && !p.KilledInJob? && !p.Done?)
  }

  /** Until the creator has finished, it is at work or dead. */
  predicate CreatorOk(s: State)
  {
    s.creator.Some? && !s.ready ==>
      var c := s.creator.value;
      c < |s.procs| && (s.procs[c].CZero? || s.procs[c].CStamp? || s.procs[c].CTwo? || s.procs[c].Killed?)
  }

  ghost predicate Inv(s: State)
  {
    && (forall i :: 0 <= i < |s.procs| ==> PlaceOk(s, i))
    && CreatorOk(s)
    && (s.creator.None? ==> !s.otime)
    && (s.ready ==> s.otime)
    && (s.otime && !s.ready ==> s.value == 0)
    && (!s.ready ==> Sum(Holding, s.procs) == 0)
    && (s.ready ==> s.value + Sum(Holding, s.procs) == s.slots)
  }

  lemma InvInit(n: nat, slots: nat, tries: nat)
    ensures Inv(Init(n, slots, tries))
  {
    SumBound(Holding, Init(n, slots, tries).procs, 0);
  }

  lemma InvKill(s: State, i: nat)
    requires Inv(s) && Step(s, Kill(i)).Some?
    ensures Inv(Step(s, Kill(i)).value)
  {
    var t := Step(s, Kill(i)).value;
    SumUpdate(Holding, s.procs, i, t.procs[i]);
    assert PlaceOk(s, i);
    forall j | 0 <= j < |t.procs|
      ensures PlaceOk(t, j)
    {
      assert PlaceOk(s, j);
    }
  }

  lemma PlacesAfter(s: State, i: nat, v: nat, luck: bool, j: nat)
    requires Inv(s) && i < |s.procs| && ProcStep(s, i, v, luck).Some? && j < |s.procs|
    ensures var t := ProcStep(s, i, v, luck).value; |t.procs| == |s.procs| && PlaceOk(t, j)
  {
    assert PlaceOk(s, i) && PlaceOk(s, j);
  }

  lemma TotalsAfter(s: State, i: nat, v: nat, luck: bool)
    requires Inv(s) && i < |s.procs| && ProcStep(s, i, v, luck).Some?
    ensures var t := ProcStep(s, i, v, luck).value;
            if t.ready then t.otime && t.value + Sum(Holding, t.procs) == t.slots else Sum(Holding, t.procs) == 0
  {
    var t := ProcStep(s, i, v, luck).value;
    assert PlaceOk(s, i);
    OnlyMoverMoves(s, i, v, luck);
    SumUpdate(Holding, s.procs, i, t.procs[i]);
  }

  lemma InvProc(s: State, i: nat, v: nat, luck: bool)
    requires Inv(s) && i < |s.procs| && ProcStep(s, i, v, luck).Some?
    ensures Inv(ProcStep(s, i, v, luck).value)
  {
    var t := ProcStep(s, i, v, luck).value;
    TotalsAfter(s, i, v, luck);
    assert PlaceOk(s, i);
    forall j | 0 <= j < |t.procs|
      ensures PlaceOk(t, j)
    {
      PlacesAfter(s, i, v, luck, j);
    }
  }

  lemma InvStep(s: State, m: Move)
    requires Inv(s) && Step(s, m).Some?
    ensures Inv(Step(s, m).value)
  {
    match m
    case Proc(i, v, luck) => InvProc(s, i, v, luck);
    case Kill(i) => InvKill(s, i);
  }

  lemma InvIsPreserved()
    ensures Preserved(Step, (m: Move) => true, Inv)
  {
    forall s, m | Inv(s) && Step(s, m).Some?
      ensures Inv(Step(s, m).value)
    {
      InvStep(s, m);
    }
  }

  predicate Sized(n: nat, slots: nat, tries: nat, s: State)
  {
    |s.procs| == n && s.slots == slots && s.tries == tries
  }

  lemma SizedStep(n: nat, slots: nat, tries: nat, s: State, m: Move)
    requires Sized(n, slots, tries, s) && Step(s, m).Some?
    ensures Sized(n, slots, tries, Step(s, m).value)
  {
  }

  lemma SizedIsPreserved(n: nat, slots: nat, tries: nat)
    ensures Preserved(Step, (m: Move) => true, (t: State) => Sized(n, slots, tries, t))
  {
    forall s, m | Sized(n, slots, tries, s) && Step(s, m).Some?
      ensures Sized(n, slots, tries, Step(s, m).value)
    {
      SizedStep(n, slots, tries, s, m);
    }
  }

  lemma ReachableInv(n: nat, slots: nat, tries: nat, s: State)
    requires Reachable(n, slots, tries, s)
    ensures Inv(s) && Sized(n, slots, tries, s)
  {
    InvInit(n, slots, tries);
    InvIsPreserved();
    SizedIsPreserved(n, slots, tries);
    var ms :| Run(Step, Init(n, slots, tries), ms) == Some(s);
    InvariantHolds(Step, (m: Move) => true, Inv, Init(n, slots, tries), ms);
    InvariantHolds(Step, (m: Move) => true, (t: State) => Sized(n, slots, tries, t), Init(n, slots, tries), ms);
  }

  // ---- What every reachable state satisfies

  /** Before the creator's semop() has set sem_otime, nobody else has got past the polling. */
  lemma NobodyIsEarly(n: nat, slots: nat, tries: nat, s: State, i: nat)
    requires Reachable(n, slots, tries, s) && i < |s.procs|
    ensures !s.otime ==> Early(s.procs[i])
    ensures OfCreator(s.procs[i]) ==> s.creator == Some(i)
  {
    ReachableInv(n, slots, tries, s);
    assert PlaceOk(s, i);
  }

  /** The creator's semop() does not block, and its second SETVAL overwrites nobody's operation. */
  lemma InitialisationIsUndisturbed(n: nat, slots: nat, tries: nat, s: State, i: nat)
    requires Reachable(n, slots, tries, s) && i < |s.procs|
    ensures s.procs[i].CStamp? ==> s.value == 0 && !s.otime && Step(s, Proc(i, 0, false)).Some?
    ensures s.procs[i].CTwo? ==> s.value == 0 && forall j :: 0 <= j < |s.procs| ==> !s.procs[j].Job? && !s.procs[j].Done?
  {
    ReachableInv(n, slots, tries, s);
    assert PlaceOk(s, i);
    forall j | 0 <= j < |s.procs|
      ensures s.procs[i].CTwo? ==> !s.procs[j].Job? && !s.procs[j].Done?
    {
      assert PlaceOk(s, j);
    }
  }

  lemma {:induction false} HoldingSplits(procs: seq<Pc>)
    ensures Sum(Holding, procs) == Sum(InJob, procs) + Sum(DiedInJob, procs)
  {
    if procs != [] {
      HoldingSplits(procs[1..]);
    }
  }

  /** The places are conserved; never more than `slots` processes are in the job section. */
  lemma SlotsAreConserved(n: nat, slots: nat, tries: nat, s: State)
    requires Reachable(n, slots, tries, s)
    ensures Sum(InJob, s.procs) <= slots
    ensures if s.ready then s.value + Sum(InJob, s.procs) + Sum(DiedInJob, s.procs) == slots
            else Sum(InJob, s.procs) == Sum(DiedInJob, s.procs) == 0
  {
    ReachableInv(n, slots, tries, s);
    HoldingSplits(s.procs);
  }

  // ---- Who gives up

  /** Process `i` has seen sem_otime set, or still has a poll that will see it. */
  predicate SeesStamp(s: State, i: nat)
  {
    && s.otime && i < |s.procs|
    && match s.procs[i]
       case Poll(j) => j < s.tries
       case Check(seen) => seen
       case Enter => true
       case Job => true
       case Done => true
       case Killed => true
       case KilledInJob => true
       case _ => false
  }

  lemma StampStaysSeen(s: State, i: nat, m: Move)
    requires SeesStamp(s, i) && Step(s, m).Some?
    ensures SeesStamp(Step(s, m).value, i)
  {
    OnlyOneMoves(s, m);
  }

  /** The moves `ms` make process `i` give up. */
  ghost predicate FailsBy(s: State, i: nat, ms: seq<Move>)
  {
    Run(Step, s, ms).Some? && i < |Run(Step, s, ms).value.procs| && Run(Step, s, ms).value.procs[i].Failed?
  }

  lemma {:induction false} PollsOut(s: State, i: nat) returns (ms: seq<Move>)
    requires i < |s.procs| && s.procs[i].Poll? && (s.otime ==> s.procs[i].j >= s.tries)
    ensures FailsBy(s, i, ms)
    decreases s.tries - s.procs[i].j
  {
    var m := Proc(i, 0, false);
    var t := Step(s, m).value;
    if s.procs[i].j >= s.tries {
      assert Run(Step, t, [m]) == Some(Goto(t, i, Failed)) by {
        assert [m][1..] == [];
      }
      ms := [m] + [m];
    } else {
      var rest := PollsOut(t, i);
      ms := [m] + rest;
    }
  }

  /**
   A process that polls can give up, whatever the others do, exactly if sem_otime is not set
   yet or all its polls are over: with one left after the stamp it never does.
   */
  lemma GivesUpIff(n: nat, slots: nat, tries: nat, s: State, i: nat)
    requires Reachable(n, slots, tries, s) && i < |s.procs| && s.procs[i].Poll?
    ensures (exists ms :: FailsBy(s, i, ms)) <==> !s.otime || s.procs[i].j >= tries
  {
    ReachableInv(n, slots, tries, s);
    if !s.otime || s.procs[i].j >= tries {
      var ms := PollsOut(s, i);
    } else {
      forall t, m | SeesStamp(t, i) && Step(t, m).Some?
        ensures SeesStamp(Step(t, m).value, i)
      {
        StampStaysSeen(t, i, m);
      }
      forall ms | FailsBy(s, i, ms)
        ensures false
      {
        InvariantHolds(Step, (m: Move) => true, (t: State) => SeesStamp(t, i), s, ms);
      }
    }
  }

  /** Process `i` calls IPC_STAT, and sem_otime is not set. */
  function PollInVain(i: nat): (State, Move) -> bool
  {
    (s: State, m: Move) => m.Proc? && m.i == i < |s.procs| && s.procs[i].Poll? && s.procs[i].j < s.tries && !s.otime
  }

  /** A process that has not seen sem_otime set has looked as often as it may, each time too early. */
  lemma {:induction false} PolledInVain(s: State, i: nat, ms: seq<Move>)
    requires i < |s.procs| && s.procs[i].Poll? && s.procs[i].j <= s.tries && Run(Step, s, ms).Some?
    requires var t := Run(Step, s, ms).value; i < |t.procs| && t.procs[i] == Check(false)
    ensures Count(Step, PollInVain(i), s, ms) == s.tries - s.procs[i].j
    decreases ms
  {
    var m := ms[0];
    var t := Step(s, m).value;
    OnlyOneMoves(s, m);
    if t.procs[i].Poll? {
      PolledInVain(t, i, ms[1..]);
    } else {
      Settled(t, i, ms[1..]);
    }
  }

  /** From its last poll on, a process polls no more. */
  lemma {:induction false} Settled(s: State, i: nat, ms: seq<Move>)
    requires i < |s.procs| && Rank(s.tries, s.procs[i]) <= 3 && Run(Step, s, ms).Some?
    ensures Count(Step, PollInVain(i), s, ms) == 0
    ensures var t := Run(Step, s, ms).value;
            |t.procs| == |s.procs| && (t.procs[i] == s.procs[i] || Rank(s.tries, t.procs[i]) < Rank(s.tries, s.procs[i]))
    decreases ms
  {
    if ms != [] {
      OnlyOneMoves(s, ms[0]);
      if ms[0].Proc? && ms[0].i == i {
        RankDecreases(s, i, ms[0].value, ms[0].luck);
      }
      Settled(Step(s, ms[0]).value, i, ms[1..]);
    }
  }

  // ---- Who can still get in

  /** The creator is alive, between its semop() and its second SETVAL. */
  predicate CreatorAtTwo(s: State)
  {
    s.creator.Some? && s.creator.value < |s.procs| && s.procs[s.creator.value].CTwo?
  }

  /** The semaphore has its value or will get it, and not all its places died with their holders. */
  predicate Admits(s: State)
  {
    (s.ready || CreatorAtTwo(s)) && Sum(DiedInJob, s.procs) < s.slots
  }

  predicate NotKill(m: Move)
  {
    m.Proc?
  }

  /** The polling lets processes through, but the section does not. */
  ghost predicate Shut(s: State)
  {
    Inv(s) && s.otime && !Admits(s)
  }

  lemma OnlyMoverMoves(s: State, i: nat, v: nat, luck: bool)
    requires i < |s.procs| && ProcStep(s, i, v, luck).Some?
    ensures var t := ProcStep(s, i, v, luck).value;
            |t.procs| == |s.procs| && t.procs == s.procs[i := t.procs[i]] && t.tries == s.tries && t.slots == s.slots
  {
  }

  lemma OnlyOneMoves(s: State, m: Move)
    requires Step(s, m).Some?
    ensures var t := Step(s, m).value;
            && m.i < |t.procs| == |s.procs| && t.procs == s.procs[m.i := t.procs[m.i]]
            && t.tries == s.tries && t.slots == s.slots
  {
    if m.Proc? {
      OnlyMoverMoves(s, m.i, m.value, m.luck);
    }
  }

  /** The dead do not come back. */
  lemma DeadStayDead(s: State, m: Move)
    requires Inv(s) && Step(s, m).Some?
    ensures Sum(DiedInJob, Step(s, m).value.procs) >= Sum(DiedInJob, s.procs)
    ensures s.ready ==> Step(s, m).value.ready
  {
    OnlyOneMoves(s, m);
    SumUpdate(DiedInJob, s.procs, m.i, Step(s, m).value.procs[m.i]);
    assert PlaceOk(s, m.i);
  }

  /** Until the value is set, the creator is at its second SETVAL or dead. */
  lemma CreatorIsLastHope(s: State)
    requires Inv(s) && s.otime && !s.ready
    ensures s.creator.Some? && s.creator.value < |s.procs|
    ensures s.procs[s.creator.value].CTwo? || s.procs[s.creator.value].Killed?
    ensures Sum(DiedInJob, s.procs) == 0
  {
    assert PlaceOk(s, s.creator.value);
    HoldingSplits(s.procs);
  }

  lemma ShutBeforeReady(s: State, m: Move)
    requires Shut(s) && !s.ready && Step(s, m).Some?
    ensures !Admits(Step(s, m).value) && Step(s, m).value.otime
  {
    CreatorIsLastHope(s);
    assert PlaceOk(s, m.i);
    OnlyOneMoves(s, m);
    DeadStayDead(s, m);
    assert m.Proc? && s.procs[m.i].CTwo? ==> m.i == s.creator.value;
  }

  lemma ShutStep(s: State, m: Move)
    requires Shut(s) && Step(s, m).Some?
    ensures Shut(Step(s, m).value)
  {
    InvStep(s, m);
    if s.ready {
      DeadStayDead(s, m);
      OnlyOneMoves(s, m);
    } else {
      ShutBeforeReady(s, m);
    }
  }

  lemma ShutIsEmpty(s: State)
    requires Shut(s)
    ensures s.value == 0 && Sum(InJob, s.procs) == 0
  {
    HoldingSplits(s.procs);
    if !s.ready {
      CreatorIsLastHope(s);
    }
  }

  /** Once the section is shut, nobody ever enters it again, whoever is killed or not. */
  lemma ShutForGood(n: nat, slots: nat, tries: nat, s: State, ms: seq<Move>)
    requires Reachable(n, slots, tries, s) && s.otime && !Admits(s)
    requires Run(Step, s, ms).Some?
    ensures var t := Run(Step, s, ms).value;
            !Admits(t) && t.value == 0 && Sum(InJob, t.procs) == 0
  {
    ReachableInv(n, slots, tries, s);
    forall t, m | Shut(t) && Step(t, m).Some?
      ensures Shut(Step(t, m).value)
    {
      ShutStep(t, m);
    }
    InvariantHolds(Step, (m: Move) => true, Shut, s, ms);
    ShutIsEmpty(Run(Step, s, ms).value);
  }

  /** The moves `ms` kill nobody and bring process `i` into the section. */
  ghost predicate EntersBy(s: State, i: nat, ms: seq<Move>)
  {
    && All(NotKill, ms) && Run(Step, s, ms).Some?
    && i < |Run(Step, s, ms).value.procs| && Run(Step, s, ms).value.procs[i].Job?
  }

  lemma EntersAfter(s: State, i: nat, m: Move, rest: seq<Move>)
    requires NotKill(m) && Step(s, m).Some? && EntersBy(Step(s, m).value, i, rest)
    ensures EntersBy(s, i, [m] + rest)
  {
    assert ([m] + rest)[1..] == rest;
  }

  /** A move of somebody else that brings a waiting process nearer to a place. */
  lemma Helper(s: State, i: nat) returns (m: Move)
    requires Inv(s) && Admits(s) && i < |s.procs| && s.procs[i].Enter? && s.value == 0
    ensures NotKill(m) && m.i != i && Step(s, m).Some? && Admits(Step(s, m).value)
  {
    assert PlaceOk(s, i);
    if s.ready {
      HoldingSplits(s.procs);
      var j := SumPositive(InJob, s.procs);
      m := Proc(j, 0, false);
    } else {
      m := Proc(s.creator.value, 0, false);
    }
    OnlyOneMoves(s, m);
    SumUpdate(DiedInJob, s.procs, m.i, Step(s, m).value.procs[m.i]);
  }

  lemma {:induction false} GetsIn(s: State, i: nat) returns (ms: seq<Move>)
    requires Inv(s) && Admits(s) && i < |s.procs| && s.procs[i].Enter?
    ensures EntersBy(s, i, ms)
    decreases Measure(s)
  {
    if s.value > 0 {
      var t := Step(s, Proc(i, 0, false)).value;
      assert Run(Step, t, []) == Some(t);
      EntersAfter(s, i, Proc(i, 0, false), []);
      ms := [Proc(i, 0, false)] + [];
    } else {
      var m := Helper(s, i);
      InvStep(s, m);
      OnlyOneMoves(s, m);
      MeasureDecreases(s, m);
      var rest := GetsIn(Step(s, m).value, i);
      EntersAfter(s, i, m, rest);
      ms := [m] + rest;
    }
  }

  /**
   A process that waits at the section can get in without anybody being killed exactly if
   the semaphore has its value, or its creator is alive to set it, and fewer processes
   have died in the section than it has places.
   */
  lemma EntersIffAdmits(n: nat, slots: nat, tries: nat, s: State, i: nat)
    requires Reachable(n, slots, tries, s) && i < |s.procs| && s.procs[i].Enter?
    ensures (exists ms :: EntersBy(s, i, ms)) <==> Admits(s)
  {
    ReachableInv(n, slots, tries, s);
    assert PlaceOk(s, i);
    if Admits(s) {
      var ms := GetsIn(s, i);
    } else {
      forall ms | EntersBy(s, i, ms)
        ensures false
      {
        ShutForGood(n, slots, tries, s, ms);
        SumAtLeast(InJob, Run(Step, s, ms).value.procs, i);
      }
    }
  }

  // ---- Progress

  /** An unfinished process means that somebody can go on, unless it waits at a section that is shut. */
  lemma NoDeadlock(s: State, i: nat) returns (m: Move)
    requires Inv(s) && i < |s.procs| && !Over(s.procs[i]) && (s.procs[i].Enter? ==> Admits(s))
    ensures NotKill(m) && Step(s, m).Some?
    ensures Step(s, Proc(i, 0, false)).None? ==> m.i != i
  {
    m := Proc(i, 0, false);
    assert PlaceOk(s, i);
    if s.procs[i].Enter? && s.value == 0 {
      m := Helper(s, i);
    }
  }

  /** Nothing but killing is possible any more. */
  ghost predicate Stopped(s: State)
  {
    forall m :: NotKill(m) ==> Step(s, m).None?
  }

  /** When all has stopped, the processes left over are exactly those waiting at a section that is shut. */
  lemma LeftOverIff(n: nat, slots: nat, tries: nat, s: State, i: nat)
    requires Reachable(n, slots, tries, s) && Stopped(s) && i < |s.procs|
    ensures !Over(s.procs[i]) <==> s.procs[i].Enter? && !Admits(s)
  {
    ReachableInv(n, slots, tries, s);
    if !Over(s.procs[i]) && (s.procs[i].Enter? ==> Admits(s)) {
      var m := NoDeadlock(s, i);
      assert false;
    }
  }

  function Rank(tries: nat, p: Pc): nat
  {
    match p
    case Start => tries + 7
    case Open => tries + 5
    case Poll(j) => if j < tries then tries - j + 4 else 4
    case Check(_) => 3
    case CZero => 6
    case CStamp => 5
    case CTwo => 4
    case CCheck => 3
    case Enter => 2
    case Job => 1
    case _ => 0
  }

  function RankOf(tries: nat): Pc -> nat
  {
    (p: Pc) => Rank(tries, p)
  }

  function Measure(s: State): nat
  {
    Sum(RankOf(s.tries), s.procs)
  }

  lemma RankDecreases(s: State, i: nat, v: nat, luck: bool)
    requires i < |s.procs| && ProcStep(s, i, v, luck).Some?
    ensures var t := ProcStep(s, i, v, luck).value;
            |t.procs| == |s.procs| && Rank(s.tries, t.procs[i]) < Rank(s.tries, s.procs[i])
  {
  }

  lemma MeasureDecreases(s: State, m: Move)
    requires Step(s, m).Some?
    ensures Measure(Step(s, m).value) < Measure(s)
  {
    OnlyOneMoves(s, m);
    if m.Proc? {
      RankDecreases(s, m.i, m.value, m.luck);
    }
    SumUpdate(RankOf(s.tries), s.procs, m.i, Step(s, m).value.procs[m.i]);
  }

  lemma StepIsGood()
    ensures Preserved(Step, (m: Move) => true, Inv)
    ensures Decreases(Step, (m: Move) => true, Inv, Measure)
  {
    forall s, m | Inv(s) && Step(s, m).Some?
      ensures Inv(Step(s, m).value) && Measure(Step(s, m).value) < Measure(s)
    {
      InvStep(s, m);
      MeasureDecreases(s, m);
    }
  }

  ghost predicate NoneKilled(s: State)
  {
    forall i :: 0 <= i < |s.procs| ==> !s.procs[i].Killed? && !s.procs[i].KilledInJob?
  }

  lemma NobodyDies(s: State, m: Move)
    requires NoneKilled(s) && NotKill(m) && Step(s, m).Some?
    ensures NoneKilled(Step(s, m).value)
  {
    OnlyMoverMoves(s, m.i, m.value, m.luck);
  }

  /** As long as nobody has been killed, the section admits processes. */
  lemma NoneKilledAdmits(s: State)
    requires Inv(s) && NoneKilled(s) && s.slots > 0 && s.otime
    ensures Admits(s)
  {
    SumBound(DiedInJob, s.procs, 0);
    if !s.ready {
      CreatorIsLastHope(s);
    }
  }

  lemma NobodyDiesInRun(n: nat, slots: nat, tries: nat, ms: seq<Move>)
    requires All(NotKill, ms) && Run(Step, Init(n, slots, tries), ms).Some?
    ensures NoneKilled(Run(Step, Init(n, slots, tries), ms).value)
  {
    forall s, m | NoneKilled(s) && NotKill(m) && Step(s, m).Some?
      ensures NoneKilled(Step(s, m).value)
    {
      NobodyDies(s, m);
    }
    InvariantHolds(Step, NotKill, NoneKilled, Init(n, slots, tries), ms);
  }

  /**
   Every run is finite, also with processes being killed.  Where it stops, every process is
   at an end or waits at a section that is shut; and if nobody was killed, every process
   has done its job or given up.
   */
  lemma EverybodyFinishes(n: nat, slots: nat, tries: nat, ms: seq<Move>)
    requires Run(Step, Init(n, slots, tries), ms).Some?
    ensures |ms| <= (tries + 7) * n
    ensures var s := Run(Step, Init(n, slots, tries), ms).value;
            Stopped(s) ==>
              && (forall i :: 0 <= i < |s.procs| ==> Over(s.procs[i]) || (s.procs[i].Enter? && !Admits(s)))
              && (slots > 0 && All(NotKill, ms) ==>
                    forall i :: 0 <= i < |s.procs| ==> s.procs[i].Done? || s.procs[i].Failed?)
  {
    var s0 := Init(n, slots, tries);
    InvInit(n, slots, tries);
    StepIsGood();
    RunIsBounded(Step, (m: Move) => true, Inv, Measure, s0, ms);
    SumBound(RankOf(s0.tries), s0.procs, tries + 7);
    var s := Run(Step, s0, ms).value;
    ReachableInv(n, slots, tries, s);
    if Stopped(s) {
      forall i | 0 <= i < |s.procs|
        ensures Over(s.procs[i]) || (s.procs[i].Enter? && !Admits(s))
        ensures slots > 0 && All(NotKill, ms) ==> s.procs[i].Done? || s.procs[i].Failed?
      {
        LeftOverIff(n, slots, tries, s, i);
        assert PlaceOk(s, i);
        if slots > 0 && All(NotKill, ms) {
          NobodyDiesInRun(n, slots, tries, ms);
          if s.procs[i].Enter? {
            NoneKilledAdmits(s);
          }
        }
      }
    }
  }

  /** The creator can give up after it has initialised the semaphore, whatever that held at first. */
  lemma CreatorCanGiveUp(n: nat, slots: nat, tries: nat, v: nat) returns (a: State, s: State)
    requires n > 0
    ensures Reachable(n, slots, tries, a) && |a.procs| == n && a.procs[0].CZero? && a.value == v
    ensures Reaches(Step, a, s) && |s.procs| == n && s.procs[0].Failed? && s.ready && s.value == slots
  {
    var s0 := Init(n, slots, tries);
    ReachesSelf(Step, s0);
    a := Go(Step, s0, s0, Proc(0, v, false));
    ReachesSelf(Step, a);
    s := Go(Step, a, a, Proc(0, 0, false));
    s := Go(Step, a, s, Proc(0, 0, false));
    s := Go(Step, a, s, Proc(0, 0, false));
    s := Go(Step, a, s, Proc(0, 0, false));
  }

  // ---- Two ways of shutting the section

  /**
   The creator is killed between its semop() and its second SETVAL: the polling lets the
   others through, but the value stays zero, though nobody died in the section.
   */
  lemma KilledCreatorShuts(n: nat, slots: nat, tries: nat) returns (s: State)
    requires n >= 2 && slots > 0 && tries > 0
    ensures Reachable(n, slots, tries, s) && |s.procs| == n && s.otime
    ensures s.procs[0].Killed? && s.procs[1].Enter? && !s.ready && Sum(DiedInJob, s.procs) == 0
    ensures !Admits(s) && (n == 2 ==> Stopped(s))
  {
    var s0 := Init(n, slots, tries);
    var a := CreatorComesToTwo(n, slots, tries);
    var t := ComesToEnter(a, 1);
    ReachesThrough(Step, s0, a, t);
    s := Go(Step, s0, t, Kill(0));
    SumBound(DiedInJob, s.procs, 0);
  }

  /** The first process creates the semaphore and goes on to its second SETVAL. */
  lemma CreatorComesToTwo(n: nat, slots: nat, tries: nat) returns (s: State)
    requires n > 0
    ensures Reachable(n, slots, tries, s) && s.otime && !s.ready && s.value == 0 && s.creator == Some(0)
    ensures s.procs == Init(n, slots, tries).procs[0 := CTwo] && s.tries == tries && s.slots == slots
  {
    var s0 := Init(n, slots, tries);
    ReachesSelf(Step, s0);
    s := Go(Step, s0, s0, Proc(0, 0, false));
    s := Go(Step, s0, s, Proc(0, 0, false));
    s := Go(Step, s0, s, Proc(0, 0, false));
  }

  /** A process that starts when sem_otime is set gets as far as the section. */
  lemma ComesToEnter(s: State, i: nat) returns (t: State)
    requires i < |s.procs| && s.procs[i].Start? && s.creator.Some? && s.otime && s.tries > 0
    ensures Reaches(Step, s, t) && t == s.(procs := s.procs[i := Enter])
  {
    ReachesSelf(Step, s);
    t := Go(Step, s, s, Proc(i, 0, false));
    t := Go(Step, s, t, Proc(i, 0, false));
    t := Go(Step, s, t, Proc(i, 0, false));
    t := Go(Step, s, t, Proc(i, 0, false));
    assert t.procs == s.procs[i := Enter];
  }

  /** The first `j` processes have died in the section, the next one waits, the rest are to start. */
  predicate Dying(s: State, j: nat)
  {
    && s.ready && s.otime && s.creator.Some? && s.tries > 0 && j < |s.procs| && j + s.value == s.slots
    && (forall k :: 0 <= k < |s.procs| ==>
          s.procs[k] == if k < j then KilledInJob else if k == j then Enter else Start)
  }

  lemma {:induction false} AllDie(s: State, j: nat) returns (t: State)
    requires Dying(s, j) && s.slots < |s.procs|
    ensures Reaches(Step, s, t) && Dying(t, s.slots) && |t.procs| == |s.procs| && t.slots == s.slots
    decreases s.value
  {
    ReachesSelf(Step, s);
    t := s;
    if s.value > 0 {
      var u := Go(Step, s, s, Proc(j, 0, false));
      u := Go(Step, s, u, Kill(j));
      var v := ComesToEnter(u, j + 1);
      ReachesThrough(Step, s, u, v);
      t := AllDie(v, j + 1);
      ReachesThrough(Step, s, v, t);
    }
  }

  /** The first process creates and initialises the semaphore, and goes on to the section. */
  lemma CreatorComesToEnter(n: nat, slots: nat, tries: nat) returns (s: State)
    requires n > 0 && tries > 0
    ensures Reachable(n, slots, tries, s) && Dying(s, 0) && |s.procs| == n && s.slots == slots
  {
    var s0 := Init(n, slots, tries);
    s := CreatorComesToTwo(n, slots, tries);
    s := Go(Step, s0, s, Proc(0, 0, false));
    s := Go(Step, s0, s, Proc(0, 0, true));
  }

  lemma AllDeadIsShut(s: State)
    requires Inv(s) && Dying(s, s.slots)
    ensures Sum(DiedInJob, s.procs) == s.slots && !Admits(s)
    ensures |s.procs| == s.slots + 1 ==> Stopped(s)
  {
    SumBound(InJob, s.procs, 0);
    HoldingSplits(s.procs);
  }

  /** As many processes are killed in the section as it has places, and the next one waits for good. */
  lemma LostPlacesShut(n: nat, slots: nat, tries: nat) returns (s: State)
    requires n > slots && tries > 0
    ensures Reachable(n, slots, tries, s) && |s.procs| == n && s.ready
    ensures s.procs[slots].Enter? && Sum(DiedInJob, s.procs) == slots
    ensures !Admits(s) && (n == slots + 1 ==> Stopped(s))
  {
    var a := CreatorComesToEnter(n, slots, tries);
    s := AllDie(a, 0);
    ReachesThrough(Step, Init(n, slots, tries), a, s);
    ReachableInv(n, slots, tries, s);
    AllDeadIsShut(s);
  }

  // ---- The program

  /** What the other processes leave alone, whether they are killed or not. */
  ghost predicate Kept(i: nat, from: State, s: State)
  {
    && Inv(s) && |s.procs| == |from.procs| && s.tries == from.tries && s.slots == from.slots
    && i < |s.procs| && i < |from.procs| && s.procs[i] == from.procs[i] && (from.otime ==> s.otime)
  }

  predicate OfOther(i: nat, m: Move)
  {
    m.i != i
  }

  lemma OthersKeep(i: nat, from: State)
    ensures Preserved(Step, (m: Move) => OfOther(i, m), (s: State) => Kept(i, from, s))
    ensures Decreases(Step, (m: Move) => OfOther(i, m), (s: State) => Kept(i, from, s), Measure)
  {
    forall s, m | Kept(i, from, s) && OfOther(i, m) && Step(s, m).Some?
      ensures Kept(i, from, Step(s, m).value) && Measure(Step(s, m).value) < Measure(s)
    {
      InvStep(s, m);
      MeasureDecreases(s, m);
      OnlyOneMoves(s, m);
    }
  }

  /** The place that an action at `p` can lead to; `stamped` if sem_otime was set beforehand. */
  predicate MayFollow(tries: nat, stamped: bool, p: Pc, q: Pc)
  {
    match p
    case Start => q.Open? || (q.CZero? && !stamped)
    case CZero => q.CStamp?
    case CStamp => q.CTwo?
    case CTwo => q.CCheck?
    case CCheck => q.Enter? || q.Failed?
    case Open => q == Poll(0)
    case Poll(j) => if j >= tries then q == Check(false) else q == Check(true) || (q == Poll(j + 1) && !stamped)
    case Check(seen) => if seen then q.Enter? else q.Failed?
    case Enter => q.Job?
    case Job => q.Done?
    case _ => false
  }

  /** The others run until process `i` can act, or for ever waits at a section that is shut. */
  method Wait(w: World<State, Move>, i: nat)
    requires w.Valid() && w.step == Step && Inv(w.s)
    requires i < |w.s.procs| && !Over(w.s.procs[i])
    modifies w
    ensures w.Valid() && Kept(i, old(w.s), w.s)
    ensures w.s.procs[i].Enter? ==> w.s.value > 0 || !Admits(w.s)
  {
    ghost var from := w.s;
    OthersKeep(i, from);
    forall s | Kept(i, from, s) && !(s.procs[i].Enter? ==> s.value > 0 || !Admits(s))
      ensures exists m :: OfOther(i, m) && Step(s, m).Some?
    {
      var m := Helper(s, i);
    }
    var ready := (s: State) => i < |s.procs| ==> s.procs[i].Enter? ==> s.value > 0 || !Admits(s);
    w.WaitUntil(ready, (m: Move) => OfOther(i, m), (s: State) => Kept(i, from, s), Measure);
  }

  /** The process acts; semop(-1) waits for a place. */
  method Act(w: World<State, Move>, i: nat)
    requires w.Valid() && w.step == Step && Inv(w.s)
    requires i < |w.s.procs| && !Over(w.s.procs[i]) && !w.s.procs[i].Enter?
    modifies w
    ensures w.Valid() && Inv(w.s) && |w.s.procs| == |old(w.s.procs)|
    ensures w.s.tries == old(w.s.tries) && w.s.slots == old(w.s.slots)
    ensures MayFollow(w.s.tries, old(w.s.otime), old(w.s.procs[i]), w.s.procs[i])
    ensures old(w.s.otime) ==> w.s.otime
  {
    Wait(w, i);
    var v: nat, luck: bool := *, *;
    assert PlaceOk(w.s, i);
    InvStep(w.s, Proc(i, v, luck));
    OnlyMoverMoves(w.s, i, v, luck);
    w.Do(Proc(i, v, luck));
  }

  /**
   ipc_systemv_sem, as process `i`, among processes that may be killed at any point: it gives
   up, does its job, or waits for good at a section that is shut, which needs a killed process.
   */
  method IpcSystemvSem(w: World<State, Move>, i: nat)
    requires w.Valid() && w.step == Step && Inv(w.s)
    requires i < |w.s.procs| && w.s.procs[i].Start?
    modifies w
    ensures w.Valid() && Inv(w.s) && i < |w.s.procs|
    ensures w.s.procs[i].Done? || w.s.procs[i].Failed? || (w.s.procs[i].Enter? && Shut(w.s))
    ensures old(w.s.otime) && w.s.tries > 0 ==> !w.s.procs[i].Failed?
    ensures NoneKilled(w.s) && w.s.slots > 0 ==> w.s.procs[i].Done? || w.s.procs[i].Failed?
  {
    Act(w, i);                        // semget(IPC_CREAT | IPC_EXCL)
    if w.s.procs[i].CZero? {
      Initialise(w, i);
    } else {
      AwaitInitialisation(w, i);
    }
    Act(w, i);                        // sem_otime == 0 ?
    if w.s.procs[i].Failed? {
      return;
    }
    var blocked := TakePlace(w, i);   // semop(-1)
    if blocked {
      return;
    }
    Act(w, i);                        // semop(+1)
  }

  /** semop(-1): it returns, or the section is shut. */
  method TakePlace(w: World<State, Move>, i: nat) returns (blocked: bool)
    requires w.Valid() && w.step == Step && Inv(w.s)
    requires i < |w.s.procs| && w.s.procs[i].Enter?
    modifies w
    ensures w.Valid() && Inv(w.s) && |w.s.procs| == |old(w.s.procs)|
    ensures if blocked then w.s.procs[i].Enter? && Shut(w.s) else w.s.procs[i].Job?
    ensures blocked && w.s.slots > 0 ==> !NoneKilled(w.s)
    ensures w.s.tries == old(w.s.tries)
  {
    Wait(w, i);
    assert PlaceOk(w.s, i);
    blocked := w.s.value == 0;
    if blocked {
      ghost var s := w.s;
      if s.slots > 0 && NoneKilled(s) {
        NoneKilledAdmits(s);
      }
    } else {
      InvStep(w.s, Proc(i, 0, false));
      OnlyMoverMoves(w.s, i, 0, false);
      w.Do(Proc(i, 0, false));
    }
  }

  /** What the creator does before its test. */
  method Initialise(w: World<State, Move>, i: nat)
    requires w.Valid() && w.step == Step && Inv(w.s)
    requires i < |w.s.procs| && w.s.procs[i].CZero?
    modifies w
    ensures w.Valid() && Inv(w.s) && i < |w.s.procs| && w.s.procs[i].CCheck? && w.s.tries == old(w.s.tries)
  {
    Act(w, i);                        // SETVAL
    Act(w, i);                        // semop(0)
    Act(w, i);                        // SETVAL
  }

  lemma SeenMeansStamped(s: State, i: nat)
    requires Inv(s) && i < |s.procs| && s.procs[i].Check? && s.procs[i].seen
    ensures s.otime
  {
    assert PlaceOk(s, i);
  }

  /** The bounded polling loop; it has seen sem_otime only if it was set. */
  method AwaitInitialisation(w: World<State, Move>, i: nat)
    requires w.Valid() && w.step == Step && Inv(w.s)
    requires i < |w.s.procs| && w.s.procs[i].Open?
    modifies w
    ensures w.Valid() && Inv(w.s) && i < |w.s.procs| && w.s.procs[i].Check?
    ensures w.s.procs[i].seen ==> w.s.otime
    ensures old(w.s.otime) && w.s.tries > 0 ==> w.s.procs[i].seen
    ensures w.s.tries == old(w.s.tries)
  {
    Act(w, i);                        // semget()
    var j := 0;
    while j < w.s.tries
      invariant w.Valid() && w.step == Step && Inv(w.s) && w.s.tries == old(w.s.tries)
      invariant i < |w.s.procs| && j <= w.s.tries && w.s.procs[i] == Poll(j)
      invariant old(w.s.otime) ==> w.s.otime && j == 0
      decreases old(w.s.tries) - j
    {
      Act(w, i);                      // IPC_STAT
      if w.s.procs[i].Check? {
        SeenMeansStamped(w.s, i);
        return;
      }
      j := j + 1;
    }
    Act(w, i);
  }
}
