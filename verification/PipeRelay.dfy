/**
 A parent that writes its argument into a pipe and a child that copies the pipe to
 its standard output until end of file.  After the fork both processes hold both
 ends of the pipe; end of file needs every writing end to be closed, and a write
 with no reading end left breaks the pipe.
 */
module PipeRelay {
  import opened Runs
  import opened Streams

  datatype ParentPc = PCloseRead | PWrite | PCloseWrite | PWait | PDone

  datatype ChildPc =
    | CCloseWrite   // close(pfd[1])
    | CRead
    | CWrite        // write() to standard output
    | CNewline      // after end of file
    | CCloseRead    // close(pfd[0])
    | CExit
    | CDone

  datatype State = State(
    arg: Bytes,
    cap: nat,
    bufSize: nat,
    childCloses: bool,    // the child closes its copy of the writing end, as the program does
    output: Bytes,        // the child's standard output
    buf: Bytes,
    pipe: Bytes,
    unwritten: Bytes,
    parentRead: bool,     // which ends are open
    parentWrite: bool,
    childRead: bool,
    childWrite: bool,
    parent: ParentPc,
    child: ChildPc,
    broken: bool          // some write() found no reader
  )

  const NEWLINE: bv8 := 10

  /** `k` is the number of bytes that the action transfers. */
  datatype Move = Parent(k: nat) | Child(k: nat)

  /** Right after the fork. */
  function Init(arg: Bytes, cap: nat, bufSize: nat, childCloses: bool): State
  {
    State(arg, cap, bufSize, childCloses, [], [], [], arg, true, true, true, true, PCloseRead, CCloseWrite, false)
  }

  function Step(s: State, m: Move): Option<State>
  {
    match m
    case Parent(k) => ParentStep(s, k)
    case Child(k) => ChildStep(s, k)
  }

  function ParentStep(s: State, k: nat): Option<State>
  {
    match s.parent
    case PCloseRead => Some(s.(parentRead := false, parent := PWrite))
    case PWrite =>
      if s.unwritten == [] then Some(s.(parent := PCloseWrite))
      else if !s.parentRead && !s.childRead then Some(s.(broken := true, parent := PDone))
      else if 0 < k <= |s.unwritten| && |s.pipe| + k <= s.cap then
        Some(s.(pipe := s.pipe + s.unwritten[..k], unwritten := s.unwritten[k..]))
      else None
    case PCloseWrite => Some(s.(parentWrite := false, parent := PWait))
    case PWait => if s.child.CDone? then Some(s.(parent := PDone)) else None
    case PDone => None
  }

  function ChildStep(s: State, k: nat): Option<State>
  {
    match s.child
    case CCloseWrite => Some(s.(childWrite := !s.childCloses, child := CRead))
    case CRead =>
      if 0 < k <= |s.pipe| && k <= s.bufSize then
        Some(s.(buf := s.buf + s.pipe[..k], pipe := s.pipe[k..], child := CWrite))
      else if s.pipe == [] && !s.parentWrite && !s.childWrite then Some(s.(child := CNewline))
      else None
    case CWrite => Some(s.(output := s.output + s.buf, buf := [], child := CRead))
    case CNewline => Some(s.(output := s.output + [NEWLINE], child := CCloseRead))
    case CCloseRead => Some(s.(childRead := false, child := CExit))
    case CExit => Some(s.(childRead := false, childWrite := false, child := CDone))
    case CDone => None
  }

  ghost predicate Reachable(s0: State, s: State)
  {
    Reaches(Step, s0, s)
  }

  predicate AfterNewline(s: State)
  {
    s.child.CCloseRead? || s.child.CExit? || s.child.CDone?
  }

  predicate AfterEnd(s: State)
  {
    s.child.CNewline? || AfterNewline(s)
  }

  function Places(s: State): seq<Bytes>
  {
    [s.output, s.buf, s.pipe, s.unwritten]
  }

  /** Which ends are open. */
  predicate EndsOk(s: State)
  {
    && (s.parentRead <==> s.parent.PCloseRead?)
    && (s.parentWrite <==> !s.parent.PWait? && !s.parent.PDone?)
    && (s.childRead <==> !s.child.CExit? && !s.child.CDone?)
    && (s.child.CCloseWrite? ==> s.childWrite)
    && (!s.child.CCloseWrite? && !s.child.CDone? ==> s.childWrite == !s.childCloses)
    && (s.child.CDone? ==> !s.childWrite)
  }

  ghost predicate Inv(s: State)
  {
    && EndsOk(s)
    && s.cap > 0 && s.bufSize > 0 && !s.broken
    && |s.buf| <= s.bufSize && |s.pipe| <= s.cap
    && (if AfterNewline(s) then s.output == s.arg + [NEWLINE] else Flat(Places(s)) == s.arg)
    && (s.child.CWrite? <==> s.buf != [])
    && (AfterEnd(s) ==> s.pipe == s.unwritten == [] && !s.parentWrite && s.childCloses)
    && (s.parent.PCloseWrite? || s.parent.PWait? || s.parent.PDone? ==> s.unwritten == [])
    && (s.parent.PDone? ==> s.child.CDone?)
  }

  lemma InvInit(arg: Bytes, cap: nat, bufSize: nat, childCloses: bool)
    requires cap > 0 && bufSize > 0
    ensures Inv(Init(arg, cap, bufSize, childCloses))
  {
    NothingMoved(Places(Init(arg, cap, bufSize, childCloses)));
  }

  lemma InvParent(s: State, k: nat)
    requires Inv(s) && ParentStep(s, k).Some?
    ensures Inv(ParentStep(s, k).value)
  {
    var t := ParentStep(s, k).value;
    if s.parent.PWrite? && s.unwritten != [] {
      assert Places(t) == Advance(Places(s), 2, k);
      AdvanceKeepsStream(Places(s), 2, k);
    } else {
      assert Places(t) == Places(s);
    }
  }

  lemma EndsChild(s: State, k: nat)
    requires EndsOk(s) && ChildStep(s, k).Some?
    ensures EndsOk(ChildStep(s, k).value)
  {
  }

  lemma InvChild(s: State, k: nat)
    requires Inv(s) && ChildStep(s, k).Some?
    ensures Inv(ChildStep(s, k).value)
  {
    var t := ChildStep(s, k).value;
    EndsChild(s, k);
    if s.child.CRead? && t.child.CWrite? {
      assert Places(t) == Advance(Places(s), 1, k);
      AdvanceKeepsStream(Places(s), 1, k);
    } else if s.child.CWrite? {
      assert s.buf[..|s.buf|] == s.buf && s.buf[|s.buf|..] == [];
      assert Places(t) == Advance(Places(s), 0, |s.buf|);
      AdvanceKeepsStream(Places(s), 0, |s.buf|);
    } else if s.child.CNewline? {
      AllArrived(Places(s));
    } else {
      assert Places(t) == Places(s);
    }
  }

  lemma InvStep(s: State, m: Move)
    requires Inv(s) && Step(s, m).Some?
    ensures Inv(Step(s, m).value)
  {
    match m
    case Parent(k) => InvParent(s, k);
    case Child(k) => InvChild(s, k);
  }

  lemma StepIsGood()
    ensures Preserved(Step, (m: Move) => true, Inv)
    ensures Decreases(Step, (m: Move) => true, Inv, Measure)
  {
    forall s, m | Inv(s) && Step(s, m).Some?
      ensures Inv(Step(s, m).value) && Measure(Step(s, m).value) < Measure(s)
    {
      InvStep(s, m);
      MeasureDecreases(s, m);
    }
  }

  predicate Same(s: State, t: State)
  {
    t.arg == s.arg && t.cap == s.cap && t.bufSize == s.bufSize && t.childCloses == s.childCloses
  }

  lemma ParentSame(s: State, k: nat)
    requires ParentStep(s, k).Some?
    ensures Same(s, ParentStep(s, k).value)
  {
  }

  lemma ChildSame(s: State, k: nat)
    requires ChildStep(s, k).Some?
    ensures Same(s, ChildStep(s, k).value)
  {
    match s.child
    case CRead =>
    case _ =>
  }

  lemma SameStep(s: State, m: Move)
    requires Step(s, m).Some?
    ensures Same(s, Step(s, m).value)
  {
    match m
    case Parent(k) => ParentSame(s, k);
    case Child(k) => ChildSame(s, k);
  }

  lemma SameIsPreserved(s0: State)
    ensures Preserved(Step, (m: Move) => true, (t: State) => Same(s0, t))
  {
    forall s, m | Same(s0, s) && Step(s, m).Some?
      ensures Same(s0, Step(s, m).value)
    {
      SameStep(s, m);
    }
  }

  lemma ReachableInv(s0: State, s: State)
    requires Inv(s0) && Reachable(s0, s)
    ensures Inv(s) && Same(s0, s)
  {
    StepIsGood();
    SameIsPreserved(s0);
    var ms :| Run(Step, s0, ms) == Some(s);
    InvariantHolds(Step, (m: Move) => true, Inv, s0, ms);
    InvariantHolds(Step, (m: Move) => true, (t: State) => Same(s0, t), s0, ms);
  }

  // ---- What every reachable state satisfies

  /**
   The child's output is the argument so far, no write() ever finds the pipe without reader,
   and neither the child's buffer nor the pipe overflows.
   */
  lemma StreamIsPreserved(arg: Bytes, cap: nat, bufSize: nat, childCloses: bool, s: State)
    requires cap > 0 && bufSize > 0 && Reachable(Init(arg, cap, bufSize, childCloses), s)
    ensures !s.broken && |s.buf| <= bufSize && |s.pipe| <= cap
    ensures if AfterNewline(s) then s.output == arg + [NEWLINE]
            else s.output + s.buf + s.pipe + s.unwritten == arg
  {
    InvInit(arg, cap, bufSize, childCloses);
    ReachableInv(Init(arg, cap, bufSize, childCloses), s);
    FlatOfFour(s.output, s.buf, s.pipe, s.unwritten);
  }

  /** write() and read() may transfer any number of bytes from one to what there is and fits, and no other. */
  lemma AnyChunk(s: State, k: nat)
    requires Inv(s)
    ensures s.parent.PWrite? && s.unwritten != [] ==>
              (ParentStep(s, k).Some? <==> 1 <= k <= |s.unwritten| && |s.pipe| + k <= s.cap)
              && (ParentStep(s, k).Some? ==> |ParentStep(s, k).value.pipe| == |s.pipe| + k)
    ensures s.child.CRead? && s.pipe != [] ==>
              (ChildStep(s, k).Some? <==> 1 <= k <= |s.pipe| && k <= s.bufSize)
              && (ChildStep(s, k).Some? ==> |ChildStep(s, k).value.buf| == k)
  {
  }

  /** Which ends are open, and that a writer always has a reader, and a reader of more bytes a writer. */
  lemma EndsAreExact(arg: Bytes, cap: nat, bufSize: nat, childCloses: bool, s: State)
    requires cap > 0 && bufSize > 0 && Reachable(Init(arg, cap, bufSize, childCloses), s)
    ensures s.parentRead <==> s.parent.PCloseRead?
    ensures s.parentWrite <==> s.parent.PCloseRead? || s.parent.PWrite? || s.parent.PCloseWrite?
    ensures s.childRead <==> !s.child.CExit? && !s.child.CDone?
    ensures s.childWrite <==> s.child.CCloseWrite? || (!childCloses && !s.child.CDone?)
    ensures s.unwritten != [] ==> s.childRead && s.parentWrite
  {
    InvInit(arg, cap, bufSize, childCloses);
    ReachableInv(Init(arg, cap, bufSize, childCloses), s);
  }

  /** The child sees end of file only after the whole argument; the parent returns only after the output. */
  lemma EndOfFileIsLast(arg: Bytes, cap: nat, bufSize: nat, childCloses: bool, s: State)
    requires cap > 0 && bufSize > 0 && Reachable(Init(arg, cap, bufSize, childCloses), s)
    ensures s.child.CNewline? ==> s.output == arg
    ensures s.parent.PDone? ==> s.child.CDone? && s.output == arg + [NEWLINE]
  {
    InvInit(arg, cap, bufSize, childCloses);
    ReachableInv(Init(arg, cap, bufSize, childCloses), s);
    if s.child.CNewline? {
      AllArrived(Places(s));
    }
  }

  // ---- Progress

  predicate Finished(s: State)
  {
    s.parent.PDone? && s.child.CDone?
  }

  lemma NeverStuck(s: State) returns (m: Move)
    requires Inv(s) && s.childCloses && !Finished(s)
    ensures Step(s, m).Some? && m.k == 1
  {
    m := if ParentStep(s, 1).Some? then Parent(1) else Child(1);
  }

  function Measure(s: State): nat
  {
    3 * |s.unwritten| + 2 * |s.pipe|
    + (match s.parent case PCloseRead => 4 case PWrite => 3 case PCloseWrite => 2 case PWait => 1 case PDone => 0)
    + (match s.child
       case CCloseWrite => 5 case CRead => 4 case CWrite => 5 case CNewline => 3
       case CCloseRead => 2 case CExit => 1 case CDone => 0)
  }

  lemma MeasureDecreases(s: State, m: Move)
    requires Inv(s) && Step(s, m).Some?
    ensures Measure(Step(s, m).value) < Measure(s)
  {
  }

  /** Every run is finite, and one that cannot go on has produced the argument and a newline. */
  lemma RelayCompletes(arg: Bytes, cap: nat, bufSize: nat, ms: seq<Move>)
    requires cap > 0 && bufSize > 0 && Run(Step, Init(arg, cap, bufSize, true), ms).Some?
    ensures |ms| <= 3 * |arg| + 9
    ensures var s := Run(Step, Init(arg, cap, bufSize, true), ms).value;
            (forall m :: Step(s, m).None?) ==>
              && Finished(s) && s.output == arg + [NEWLINE]
              && !s.parentRead && !s.parentWrite && !s.childRead && !s.childWrite
  {
    var s0 := Init(arg, cap, bufSize, true);
    var s := Run(Step, s0, ms).value;
    InvInit(arg, cap, bufSize, true);
    StepIsGood();
    RunIsBounded(Step, (m: Move) => true, Inv, Measure, s0, ms);
    ReachableInv(s0, s);
    if forall m :: Step(s, m).None? {
      if !Finished(s) {
        var m := NeverStuck(s);
        assert false;
      }
    }
  }

  lemma {:induction false} RunToTheEnd(s: State) returns (t: State)
    requires Inv(s) && s.childCloses
    ensures Reaches(Step, s, t) && Finished(t)
    decreases Measure(s)
  {
    ReachesSelf(Step, s);
    t := s;
    if !Finished(s) {
      var m := NeverStuck(s);
      var u := Step(s, m).value;
      InvStep(s, m);
      MeasureDecreases(s, m);
      ReachesByMove(Step, s, s, m);
      t := RunToTheEnd(u);
      ReachesThrough(Step, s, u, t);
    }
  }

  /** The parent can return exactly because the child closes its copy of the writing end. */
  lemma ParentReturnsIffChildCloses(arg: Bytes, cap: nat, bufSize: nat, childCloses: bool)
    requires cap > 0 && bufSize > 0
    ensures (exists s :: Reachable(Init(arg, cap, bufSize, childCloses), s) && s.parent.PDone?) <==> childCloses
  {
    var s0 := Init(arg, cap, bufSize, childCloses);
    InvInit(arg, cap, bufSize, childCloses);
    if childCloses {
      var s := RunToTheEnd(s0);
    } else {
      forall s | Reachable(s0, s)
        ensures !s.parent.PDone?
      {
        ReachableInv(s0, s);
      }
    }
  }

  // ---- The programs

  predicate OfChild(m: Move)
  {
    m.Child?
  }

  ghost predicate KeptForParent(from: State, s: State)
  {
    Inv(s) && Same(from, s) && s.parent == from.parent && s.unwritten == from.unwritten && Measure(s) <= Measure(from)
  }

  lemma ChildKeeps(from: State)
    ensures Preserved(Step, OfChild, (s: State) => KeptForParent(from, s))
    ensures Decreases(Step, OfChild, (s: State) => KeptForParent(from, s), Measure)
  {
    forall s, m | KeptForParent(from, s) && OfChild(m) && Step(s, m).Some?
      ensures KeptForParent(from, Step(s, m).value) && Measure(Step(s, m).value) < Measure(s)
    {
      InvStep(s, m);
      MeasureDecreases(s, m);
    }
  }

  /** The parent's next action; write() waits for room and wait() for the child. */
  method ParentAct(w: World<State, Move>)
    requires w.Valid() && w.step == Step && Inv(w.s) && w.s.childCloses && !w.s.parent.PDone?
    modifies w
    ensures w.Valid() && Inv(w.s) && Same(old(w.s), w.s) && Measure(w.s) < Measure(old(w.s))
    ensures match old(w.s.parent)
            case PCloseRead => w.s.parent.PWrite?
            case PWrite => (if old(w.s.unwritten) == [] then w.s.parent.PCloseWrite? else w.s.parent.PWrite?)
            case PCloseWrite => w.s.parent.PWait?
            case _ => w.s.parent.PDone?
  {
    ghost var from := w.s;
    ChildKeeps(from);
    forall s | KeptForParent(from, s) && ParentStep(s, 1).None?
      ensures exists m :: OfChild(m) && Step(s, m).Some?
    {
      var m := NeverStuck(s);
    }
    w.WaitUntil((s: State) => ParentStep(s, 1).Some?, OfChild, (s: State) => KeptForParent(from, s), Measure);
    var k: nat := *;
    if Step(w.s, Parent(k)).None? {
      k := 1;
    }
    InvStep(w.s, Parent(k));
    MeasureDecreases(w.s, Parent(k));
    w.Do(Parent(k));
  }

  /** The parent's side of ipc_pipe: when it returns, the output is complete. */
  method ParentSide(w: World<State, Move>, arg: Bytes, cap: nat, bufSize: nat)
    requires w.Valid() && w.step == Step && cap > 0 && bufSize > 0 && w.s == Init(arg, cap, bufSize, true)
    modifies w
    ensures w.Valid() && Finished(w.s) && w.s.output == arg + [NEWLINE] && !w.s.broken
  {
    InvInit(arg, cap, bufSize, true);
    ParentAct(w);                     // close(pfd[0])
    while w.s.unwritten != []         // write(pfd[1], argv[1], len)
      invariant w.Valid() && w.step == Step && Inv(w.s) && Same(old(w.s), w.s) && w.s.parent.PWrite?
      decreases Measure(w.s)
    {
      ParentAct(w);
    }
    ParentAct(w);
    ParentAct(w);                     // close(pfd[1])
    ParentAct(w);                     // wait(NULL)
  }

  predicate OfParent(m: Move)
  {
    m.Parent?
  }

  ghost predicate KeptForChild(from: State, s: State)
  {
    Inv(s) && Same(from, s) && s.child == from.child && s.output == from.output && Measure(s) <= Measure(from)
  }

  lemma ParentKeeps(from: State)
    ensures Preserved(Step, OfParent, (s: State) => KeptForChild(from, s))
    ensures Decreases(Step, OfParent, (s: State) => KeptForChild(from, s), Measure)
  {
    forall s, m | KeptForChild(from, s) && OfParent(m) && Step(s, m).Some?
      ensures KeptForChild(from, Step(s, m).value) && Measure(Step(s, m).value) < Measure(s)
    {
      InvStep(s, m);
      MeasureDecreases(s, m);
    }
  }

  /** The child's next action; read() waits for bytes or for the last writing end to close. */
  method ChildAct(w: World<State, Move>)
    requires w.Valid() && w.step == Step && Inv(w.s) && w.s.childCloses && !w.s.child.CDone?
    modifies w
    ensures w.Valid() && Inv(w.s) && Same(old(w.s), w.s) && Measure(w.s) < Measure(old(w.s))
    ensures match old(w.s.child)
            case CCloseWrite => w.s.child.CRead?
            case CRead => w.s.child.CWrite? || w.s.child.CNewline?
            case CWrite => w.s.child.CRead?
            case CNewline => w.s.child.CCloseRead?
            case CCloseRead => w.s.child.CExit?
            case _ => w.s.child.CDone?
  {
    ghost var from := w.s;
    ParentKeeps(from);
    forall s | KeptForChild(from, s) && ChildStep(s, 1).None?
      ensures exists m :: OfParent(m) && Step(s, m).Some?
    {
      var m := NeverStuck(s);
    }
    w.WaitUntil((s: State) => ChildStep(s, 1).Some?, OfParent, (s: State) => KeptForChild(from, s), Measure);
    var k: nat := *;
    if Step(w.s, Child(k)).None? {
      k := 1;
    }
    InvStep(w.s, Child(k));
    MeasureDecreases(w.s, Child(k));
    w.Do(Child(k));
  }

  /** The child's side of ipc_pipe. */
  method ChildSide(w: World<State, Move>, arg: Bytes, cap: nat, bufSize: nat)
    requires w.Valid() && w.step == Step && cap > 0 && bufSize > 0 && w.s == Init(arg, cap, bufSize, true)
    modifies w
    ensures w.Valid() && Inv(w.s) && w.s.child.CDone? && w.s.output == arg + [NEWLINE]
  {
    InvInit(arg, cap, bufSize, true);
    ChildAct(w);                      // close(pfd[1])
    while true
      invariant w.Valid() && w.step == Step && Inv(w.s) && Same(old(w.s), w.s) && w.s.child.CRead?
      decreases Measure(w.s)
    {
      ChildAct(w);                    // read()
      if w.s.child.CNewline? {
        break;
      }
      ChildAct(w);                    // write()
    }
    ChildAct(w);                      // write() of the newline
    ChildAct(w);                      // close(pfd[0])
    ChildAct(w);
  }
}
