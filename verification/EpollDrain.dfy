/**
 The level-triggered epoll loop over a number of FIFOs.  It reads from a FIFO
 as long as the kernel reports input, and closes its end when the kernel reports
 a hang-up without input.  A FIFO can have any number of writers at a time; what
 is assumed of them is that a FIFO that has lost its last writer gets no new one.
 */
module EpollDrain {
  import opened Runs
  import opened Sums

  type Bytes = seq<bv8>

  datatype Fd = Fd(
    fifo: Bytes,
    writers: nat,
    open: bool,      // our end is open
    written: Bytes,  // all that has ever been written
    read: Bytes      // all that the loop has read
  )

  /** One element of evlist: the flags as they were when epoll_wait() returned. */
  datatype Event = Event(fd: nat, epollIn: bool, epollHup: bool)

  datatype LoopPc =
    | LTest      // while (numopendfds > 0)
    | LWait      // epoll_wait()
    | LEvents    // the for loop over evlist
    | LDone
    | LFailed    // close() returned an error

  datatype State = State(
    fds: seq<Fd>,
    numOpen: int,
    todo: seq<Event>,   // the part of evlist not yet looked at
    pc: LoopPc,
    maxEvents: nat,
    maxBuf: nat
  )

  datatype Move =
    | Write(i: nat, data: Bytes)
    | OpenWriter(i: nat)
    | CloseWriter(i: nat)
    | Wait(chosen: seq<nat>)   // epoll_wait() returns events for these descriptors
    | Interrupt                // epoll_wait() returns EINTR
    | Loop(k: nat)             // any other action of the loop; read() returns `k` bytes

  /** Right after the opening loop: each open() has waited for a first writer. */
  function Init(writers: seq<nat>, maxEvents: nat, maxBuf: nat): State
  {
    var fds := seq(|writers|, i requires 0 <= i < |writers| => Fd([], writers[i], true, [], []));
    State(fds, |writers|, [], LTest, maxEvents, maxBuf)
  }

  predicate IsReady(f: Fd)
  {
    f.open && (f.fifo != [] || f.writers == 0)
  }

  function Report(fds: seq<Fd>, i: nat): Event
    requires i < |fds|
  {
    Event(i, fds[i].fifo != [], fds[i].writers == 0)
  }

  /** epoll_wait() reports at least one descriptor and no descriptor twice. */
  predicate MayReport(s: State, chosen: seq<nat>)
  {
    && 0 < |chosen| <= s.maxEvents
    && (forall a :: 0 <= a < |chosen| ==> chosen[a] < |s.fds| && IsReady(s.fds[chosen[a]]))
    && (forall a, b :: 0 <= a < b < |chosen| ==> chosen[a] != chosen[b])
  }

  function Step(s: State, m: Move): Option<State>
  {
    match m
    case Write(i, data) =>
      if i < |s.fds| && s.fds[i].writers > 0 then
        Some(Set(s, i, s.fds[i].(fifo := s.fds[i].fifo + data, written := s.fds[i].written + data)))
      else None
    case OpenWriter(i) =>
      if i < |s.fds| && s.fds[i].writers > 0 then Some(Set(s, i, s.fds[i].(writers := s.fds[i].writers + 1))) else None
    case CloseWriter(i) =>
      if i < |s.fds| && s.fds[i].writers > 0 then Some(Set(s, i, s.fds[i].(writers := s.fds[i].writers - 1))) else None
    case Wait(chosen) =>
      if s.pc.LWait? && MayReport(s, chosen) then
        Some(s.(pc := LEvents,
                todo := seq(|chosen|, a requires 0 <= a < |chosen| => Report(s.fds, chosen[a]))))
      else None
    case Interrupt => if s.pc.LWait? then Some(s.(pc := LTest)) else None
    case Loop(k) => LoopStep(s, k)
  }

  function Set(s: State, i: nat, f: Fd): State
    requires i < |s.fds|
  {
    s.(fds := s.fds[i := f])
  }

  function LoopStep(s: State, k: nat): Option<State>
  {
    match s.pc
    case LTest => Some(s.(pc := if s.numOpen > 0 then LWait else LDone))
    case LWait => None
    case LEvents =>
      if s.todo == [] then Some(s.(pc := LTest))
      else if s.todo[0].fd < |s.fds| then Handle(s.(todo := s.todo[1..]), s.todo[0], k)
      else None
    case LDone => None
    case LFailed => None
  }

  /** The body of the for loop. */
  function Handle(s: State, e: Event, k: nat): Option<State>
    requires e.fd < |s.fds|
  {
    var f := s.fds[e.fd];
    if e.epollIn then
      if 0 < k <= s.maxBuf && k <= |f.fifo| then
        Some(Set(s, e.fd, f.(read := f.read + f.fifo[..k], fifo := f.fifo[k..])))
      else if f.fifo == [] && f.writers == 0 then Some(s)   // end of file
      else None
    else if e.epollHup then
      if f.open then Some(Set(s.(numOpen := s.numOpen - 1), e.fd, f.(open := false)))
      else Some(s.(pc := LFailed))
    else Some(s)
  }

  ghost predicate Reachable(s0: State, s: State)
  {
    Reaches(Step, s0, s)
  }

  function IsOpen(f: Fd): nat
  {
    if f.open then 1 else 0
  }

  predicate FdOk(f: Fd)
  {
    f.written == f.read + f.fifo && (!f.open ==> f.fifo == [] && f.writers == 0)
  }

  /** A report that has not been looked at is still true of its descriptor. */
  predicate EventOk(s: State, e: Event)
  {
    && e.fd < |s.fds| && s.fds[e.fd].open
    && (if e.epollIn then s.fds[e.fd].fifo != []
        else e.epollHup && s.fds[e.fd].fifo == [] && s.fds[e.fd].writers == 0)
  }

  ghost predicate EventsOk(s: State)
  {
    && (forall a :: 0 <= a < |s.todo| ==> EventOk(s, s.todo[a]))
    && (forall a, b :: 0 <= a < b < |s.todo| ==> s.todo[a].fd != s.todo[b].fd)
  }

  ghost predicate Inv(s: State)
  {
    && s.maxBuf > 0 && s.maxEvents > 0
    && s.numOpen == Sum(IsOpen, s.fds)
    && (forall i :: 0 <= i < |s.fds| ==> FdOk(s.fds[i]))
    && EventsOk(s)
    && |s.todo| <= s.maxEvents && (s.todo != [] ==> s.pc.LEvents?)
    && !s.pc.LFailed?
    && (s.pc.LDone? ==> s.numOpen <= 0)
    && (s.pc.LWait? ==> s.numOpen > 0)
  }

  lemma {:induction false} AllOpen(fds: seq<Fd>)
    requires forall i :: 0 <= i < |fds| ==> fds[i].open
    ensures Sum(IsOpen, fds) == |fds|
  {
    if fds != [] {
      AllOpen(fds[1..]);
    }
  }

  lemma InvInit(writers: seq<nat>, maxEvents: nat, maxBuf: nat)
    requires maxEvents > 0 && maxBuf > 0
    ensures Inv(Init(writers, maxEvents, maxBuf))
  {
    AllOpen(Init(writers, maxEvents, maxBuf).fds);
  }

  /** A writer's action leaves every report true. */
  lemma InvWriter(s: State, m: Move)
    requires Inv(s) && (m.Write? || m.OpenWriter? || m.CloseWriter?) && Step(s, m).Some?
    ensures Inv(Step(s, m).value)
  {
    var t := Step(s, m).value;
    assert t.fds == s.fds[m.i := t.fds[m.i]];
    SumUpdate(IsOpen, s.fds, m.i, t.fds[m.i]);
    assert FdOk(s.fds[m.i]);
    if m.Write? {
      var f := s.fds[m.i];
      assert f.read + f.fifo + m.data == f.read + (f.fifo + m.data);
    }
    forall a | 0 <= a < |t.todo|
      ensures EventOk(t, t.todo[a])
    {
      assert EventOk(s, s.todo[a]);
    }
  }

  lemma InvLoop(s: State, k: nat)
    requires Inv(s) && LoopStep(s, k).Some?
    ensures Inv(LoopStep(s, k).value)
  {
    if s.pc.LEvents? && s.todo != [] {
      var t := LoopStep(s, k).value;
      var e := s.todo[0];
      assert EventOk(s, e) && FdOk(s.fds[e.fd]);
      var f := s.fds[e.fd];
      if e.epollIn {
        assert f.read + f.fifo[..k] + f.fifo[k..] == f.read + f.fifo;
      }
      assert t.fds == s.fds[e.fd := t.fds[e.fd]];
      SumUpdate(IsOpen, s.fds, e.fd, t.fds[e.fd]);
      forall a | 0 <= a < |t.todo|
        ensures EventOk(t, t.todo[a])
      {
        assert t.todo[a] == s.todo[a + 1] && EventOk(s, s.todo[a + 1]);
      }
    }
  }

  lemma InvStep(s: State, m: Move)
    requires Inv(s) && Step(s, m).Some?
    ensures Inv(Step(s, m).value)
  {
    match m
    case Wait(chosen) =>
    case Interrupt =>
    case Loop(k) => InvLoop(s, k);
    case _ => InvWriter(s, m);
  }

  lemma InvIsPreserved()
    ensures Preserved(Step, (m: Move) => true, Inv)
  {
    forall s, m | Inv(s) && Step(s, m).Some?
      ensures Inv(Step(s, m).value)
    {
      InvStep(s, m);
    }
  }

  lemma ReachableInv(s0: State, s: State)
    requires Inv(s0) && Reachable(s0, s)
    ensures Inv(s)
  {
    InvIsPreserved();
    var ms :| Run(Step, s0, ms) == Some(s);
    InvariantHolds(Step, (m: Move) => true, Inv, s0, ms);
  }

  // ---- What every reachable state satisfies

  /** The counter counts the open descriptors, and a closed one had been read to its end. */
  lemma ClosedMeansDrained(writers: seq<nat>, maxEvents: nat, maxBuf: nat, s: State, i: nat)
    requires maxEvents > 0 && maxBuf > 0 && Reachable(Init(writers, maxEvents, maxBuf), s) && i < |s.fds|
    ensures s.numOpen == Sum(IsOpen, s.fds) && !s.pc.LFailed?
    ensures !s.fds[i].open ==> s.fds[i].writers == 0 && s.fds[i].read == s.fds[i].written
    ensures s.fds[i].read <= s.fds[i].written
  {
    InvInit(writers, maxEvents, maxBuf);
    ReachableInv(Init(writers, maxEvents, maxBuf), s);
    assert FdOk(s.fds[i]);
  }

  /**
   A report is still true when its turn comes: read() never blocks and never returns end of
   file, and a descriptor is closed only once, after its last byte and its last writer.
   */
  lemma ReadsFindInput(writers: seq<nat>, maxEvents: nat, maxBuf: nat, s: State)
    requires maxEvents > 0 && maxBuf > 0 && Reachable(Init(writers, maxEvents, maxBuf), s)
    requires s.pc.LEvents? && s.todo != []
    ensures s.todo[0].fd < |s.fds| && s.fds[s.todo[0].fd].open
    ensures s.todo[0].epollIn ==> s.fds[s.todo[0].fd].fifo != []
    ensures !s.todo[0].epollIn ==>
              s.todo[0].epollHup && s.fds[s.todo[0].fd].fifo == [] && s.fds[s.todo[0].fd].writers == 0
  {
    InvInit(writers, maxEvents, maxBuf);
    ReachableInv(Init(writers, maxEvents, maxBuf), s);
    assert EventOk(s, s.todo[0]);
  }

  /** The loop is left exactly with all descriptors closed, and then everything has been read. */
  lemma LoopEndMeansAllRead(writers: seq<nat>, maxEvents: nat, maxBuf: nat, s: State, i: nat)
    requires maxEvents > 0 && maxBuf > 0 && Reachable(Init(writers, maxEvents, maxBuf), s)
    requires s.pc.LDone? && i < |s.fds|
    ensures !s.fds[i].open && s.fds[i].read == s.fds[i].written && s.fds[i].writers == 0
  {
    InvInit(writers, maxEvents, maxBuf);
    ReachableInv(Init(writers, maxEvents, maxBuf), s);
    SumAtLeast(IsOpen, s.fds, i);
    assert FdOk(s.fds[i]);
  }

  predicate Opens(i: nat, s: State, m: Move)
  {
    m == OpenWriter(i)
  }

  predicate Closes(i: nat, s: State, m: Move)
  {
    m == CloseWriter(i)
  }

  lemma WritersStep(s: State, m: Move, i: nat)
    requires i < |s.fds| && Step(s, m).Some?
    ensures var t := Step(s, m).value;
            && |t.fds| == |s.fds|
            && t.fds[i].writers + (if Closes(i, s, m) then 1 else 0) == s.fds[i].writers + (if Opens(i, s, m) then 1 else 0)
  {
  }

  lemma {:induction false} WritersFrom(s: State, ms: seq<Move>, i: nat)
    requires i < |s.fds| && Run(Step, s, ms).Some?
    ensures var t := Run(Step, s, ms).value;
            && |t.fds| == |s.fds|
            && t.fds[i].writers + Count(Step, (s, m) => Closes(i, s, m), s, ms)
               == s.fds[i].writers + Count(Step, (s, m) => Opens(i, s, m), s, ms)
    decreases ms
  {
    if ms != [] {
      WritersStep(s, ms[0], i);
      WritersFrom(Step(s, ms[0]).value, ms[1..], i);
    }
  }

  /** The writers of a FIFO are those it began with and those that have come, less those that have gone. */
  lemma WritersAreCounted(writers: seq<nat>, maxEvents: nat, maxBuf: nat, ms: seq<Move>, i: nat)
    requires i < |writers| && Run(Step, Init(writers, maxEvents, maxBuf), ms).Some?
    ensures var s0 := Init(writers, maxEvents, maxBuf);
            var s := Run(Step, s0, ms).value;
            && |s.fds| == |writers|
            && s.fds[i].writers == writers[i] + Count(Step, (s, m) => Opens(i, s, m), s0, ms)
                                   - Count(Step, (s, m) => Closes(i, s, m), s0, ms)
  {
    WritersFrom(Init(writers, maxEvents, maxBuf), ms, i);
  }

  predicate Same(s: State, t: State)
  {
    |t.fds| == |s.fds| && t.maxEvents == s.maxEvents && t.maxBuf == s.maxBuf
  }

  lemma SameStep(s: State, m: Move)
    requires Step(s, m).Some?
    ensures Same(s, Step(s, m).value)
  {
  }

  lemma SameIsPreserved(s0: State)
    ensures Preserved(Step, (m: Move) => true, (t: State) => Same(s0, t))
  {
    forall s, m | Same(s0, s) && Step(s, m).Some?
      ensures Same(s0, Step(s, m).value)
    {
      SameStep(s, m);
    }
  }

  /**
   epoll_wait() may return any distinct descriptors, as many as fit, that are open and have
   input or have lost their writers; it says of each which of the two is the case.
   */
  lemma AnyReport(s: State, chosen: seq<nat>)
    requires Inv(s) && s.pc.LWait?
    ensures Step(s, Wait(chosen)).Some? <==>
            && 1 <= |chosen| <= s.maxEvents
            && (forall a :: 0 <= a < |chosen| ==>
                  chosen[a] < |s.fds| && s.fds[chosen[a]].open
                  && (s.fds[chosen[a]].fifo != [] || s.fds[chosen[a]].writers == 0))
            && (forall a, b :: 0 <= a < b < |chosen| ==> chosen[a] != chosen[b])
    ensures Step(s, Wait(chosen)).Some? ==>
              var todo := Step(s, Wait(chosen)).value.todo;
              |todo| == |chosen| && forall a :: 0 <= a < |todo| ==>
                todo[a].fd == chosen[a] < |s.fds|
                && (todo[a].epollIn <==> s.fds[chosen[a]].fifo != [])
                && (todo[a].epollHup <==> s.fds[chosen[a]].writers == 0)
  {
  }

  /** read() may return any number of bytes from one to what there is and fits, and no other. */
  lemma AnyRead(s: State, k: nat)
    requires Inv(s) && s.pc.LEvents? && s.todo != [] && s.todo[0].epollIn && s.todo[0].fd < |s.fds|
    ensures var f := s.fds[s.todo[0].fd];
            && (LoopStep(s, k).Some? <==> 1 <= k <= |f.fifo| && k <= s.maxBuf)
            && (LoopStep(s, k).Some? ==>
                  var t := LoopStep(s, k).value;
                  |t.fds| == |s.fds| && t.fds[s.todo[0].fd].read == f.read + f.fifo[..k])
  {
    assert EventOk(s, s.todo[0]);
  }

  /** An action of the loop reads from one FIFO at most, in order and a bufferful at most. */
  lemma ReadsAreBounded(writers: seq<nat>, maxEvents: nat, maxBuf: nat, s: State, k: nat, i: nat, j: nat)
    requires maxEvents > 0 && maxBuf > 0 && Reachable(Init(writers, maxEvents, maxBuf), s)
    requires LoopStep(s, k).Some? && i < |s.fds| && j < |s.fds|
    ensures var t := LoopStep(s, k).value;
            && |t.fds| == |s.fds|
            && s.fds[i].read <= t.fds[i].read <= s.fds[i].written == t.fds[i].written
            && |t.fds[i].read| <= |s.fds[i].read| + maxBuf
            && (t.fds[i].read != s.fds[i].read && t.fds[j].read != s.fds[j].read ==> i == j)
  {
    var s0 := Init(writers, maxEvents, maxBuf);
    InvInit(writers, maxEvents, maxBuf);
    ReachableInv(s0, s);
    SameIsPreserved(s0);
    var ms :| Run(Step, s0, ms) == Some(s);
    InvariantHolds(Step, (m: Move) => true, (t: State) => Same(s0, t), s0, ms);
    InvStep(s, Loop(k));
    assert FdOk(LoopStep(s, k).value.fds[i]);
  }

  // ---- Progress

  predicate OfLoop(m: Move)
  {
    m.Wait? || m.Loop?
  }

  predicate OfWriter(m: Move)
  {
    m.Write? || m.OpenWriter? || m.CloseWriter?
  }

  function Unread(f: Fd): nat
  {
    |f.fifo| + IsOpen(f)
  }

  function Measure(s: State): nat
  {
    Sum(Unread, s.fds) * (s.maxEvents + 3) +
    match s.pc
      case LTest => s.maxEvents + 2
      case LWait => s.maxEvents + 1
      case LEvents => if s.todo == [] then s.maxEvents + 3 else |s.todo|
      case LDone => 0
      case LFailed => 0
  }

  lemma Smaller(a: nat, b: nat, c: nat)
    requires a < b
    ensures a * c + c <= b * c
  {
    assert b * c == a * c + c + (b - a - 1) * c;
    assert (b - a - 1) * c >= 0;
  }

  lemma MeasureDecreases(s: State, m: Move)
    requires Inv(s) && OfLoop(m) && Step(s, m).Some?
    ensures Measure(Step(s, m).value) < Measure(s)
  {
    if m.Loop? && s.pc.LEvents? && s.todo != [] {
      var t := Step(s, m).value;
      var e := s.todo[0];
      assert EventOk(s, e);
      assert t.fds == s.fds[e.fd := t.fds[e.fd]];
      SumUpdate(Unread, s.fds, e.fd, t.fds[e.fd]);
      Smaller(Sum(Unread, t.fds), Sum(Unread, s.fds), s.maxEvents + 3);
    }
  }

  /** The loop stops only at its end, or while every open FIFO is empty and has a writer. */
  lemma StopsOnlyToWait(s: State) returns (m: Move)
    requires Inv(s) && !s.pc.LDone?
    requires s.pc.LWait? ==> exists i :: 0 <= i < |s.fds| && IsReady(s.fds[i])
    ensures OfLoop(m) && Step(s, m).Some?
  {
    if s.pc.LWait? {
      var i :| 0 <= i < |s.fds| && IsReady(s.fds[i]);
      m := Wait([i]);
    } else {
      m := Loop(1);
      if s.pc.LEvents? && s.todo != [] {
        assert EventOk(s, s.todo[0]);
      }
    }
  }

  ghost predicate AllRead(s: State)
  {
    forall i :: 0 <= i < |s.fds| ==> s.fds[i].read == s.fds[i].written
  }

  ghost predicate AllClosed(s: State)
  {
    forall i :: 0 <= i < |s.fds| ==> !s.fds[i].open
  }

  lemma DoneMeansAllRead(s: State)
    requires Inv(s) && s.pc.LDone?
    ensures AllRead(s) && AllClosed(s)
  {
    forall i | 0 <= i < |s.fds|
      ensures s.fds[i].read == s.fds[i].written && !s.fds[i].open
    {
      assert FdOk(s.fds[i]);
      SumAtLeast(IsOpen, s.fds, i);
    }
  }

  ghost predicate NoWriterLeft(s: State)
  {
    forall i :: 0 <= i < |s.fds| ==> s.fds[i].writers == 0
  }

  ghost predicate AtRest(s: State)
  {
    forall m :: OfLoop(m) ==> Step(s, m).None?
  }

  /** What a move that is not the loop's own can add to the work of the loop, and itself. */
  function Price(maxEvents: nat, m: Move): nat
  {
    match m
    case Write(_, data) => |data| * (maxEvents + 3) + 1
    case OpenWriter(_) => 1
    case CloseWriter(_) => 1
    case Interrupt => 2
    case _ => 0
  }

  function TotalPrice(maxEvents: nat, ms: seq<Move>): nat
  {
    if ms == [] then 0 else Price(maxEvents, ms[0]) + TotalPrice(maxEvents, ms[1..])
  }

  function Written(m: Move): nat
  {
    if m.Write? then |m.data| else 0
  }

  lemma WriterAdds(s: State, m: Move)
    requires OfWriter(m) && Step(s, m).Some?
    ensures Sum(Unread, Step(s, m).value.fds) == Sum(Unread, s.fds) + Written(m)
  {
    SumUpdate(Unread, s.fds, m.i, Step(s, m).value.fds[m.i]);
  }

  lemma Distribute(a: nat, b: nat, c: nat)
    ensures (a + b) * c == a * c + b * c
  {
  }

  lemma WriterIsPaidFor(s: State, m: Move)
    requires OfWriter(m) && Step(s, m).Some?
    ensures Measure(Step(s, m).value) + 1 == Measure(s) + Price(s.maxEvents, m)
  {
    WriterAdds(s, m);
    Distribute(Sum(Unread, s.fds), Written(m), s.maxEvents + 3);
  }

  lemma StepIsPaidFor(s: State, m: Move)
    requires Inv(s) && Step(s, m).Some?
    ensures Step(s, m).value.maxEvents == s.maxEvents
    ensures Measure(Step(s, m).value) + 1 <= Measure(s) + Price(s.maxEvents, m)
  {
    if OfWriter(m) {
      WriterIsPaidFor(s, m);
    } else if OfLoop(m) {
      MeasureDecreases(s, m);
    }
  }

  lemma {:induction false} RunIsPaidFor(s: State, ms: seq<Move>)
    requires Inv(s) && Run(Step, s, ms).Some?
    ensures Inv(Run(Step, s, ms).value)
    ensures |ms| <= Measure(s) + TotalPrice(s.maxEvents, ms)
    decreases ms
  {
    if ms != [] {
      InvStep(s, ms[0]);
      StepIsPaidFor(s, ms[0]);
      RunIsPaidFor(Step(s, ms[0]).value, ms[1..]);
    }
  }

  /**
   Whatever the writers do meanwhile, the loop makes no more moves than the unread bytes
   and theirs account for.  It comes to rest only with everything read; and if by then no
   FIFO has a writer left, it has closed everything and ended.
   */
  lemma EverythingIsRead(writers: seq<nat>, maxEvents: nat, maxBuf: nat, s: State, ms: seq<Move>)
    requires maxEvents > 0 && maxBuf > 0 && Reachable(Init(writers, maxEvents, maxBuf), s)
    requires Run(Step, s, ms).Some?
    ensures |ms| <= Measure(s) + TotalPrice(s.maxEvents, ms)
    ensures All(OfLoop, ms) ==> |ms| <= Measure(s)
    ensures var t := Run(Step, s, ms).value;
            AtRest(t) ==> AllRead(t) && (NoWriterLeft(t) ==> t.pc.LDone? && AllClosed(t))
  {
    InvInit(writers, maxEvents, maxBuf);
    ReachableInv(Init(writers, maxEvents, maxBuf), s);
    RunIsPaidFor(s, ms);
    if All(OfLoop, ms) {
      LoopIsFree(s.maxEvents, ms);
    }
    if AtRest(Run(Step, s, ms).value) {
      RestState(Run(Step, s, ms).value);
    }
  }

  lemma {:induction false} LoopIsFree(maxEvents: nat, ms: seq<Move>)
    requires All(OfLoop, ms)
    ensures TotalPrice(maxEvents, ms) == 0
  {
    if ms != [] {
      assert OfLoop(ms[0]);
      LoopIsFree(maxEvents, ms[1..]);
    }
  }

  lemma RestState(t: State)
    requires Inv(t) && AtRest(t)
    ensures AllRead(t)
    ensures NoWriterLeft(t) ==> t.pc.LDone? && AllClosed(t)
  {
    if !t.pc.LDone? && (t.pc.LWait? ==> exists i :: 0 <= i < |t.fds| && IsReady(t.fds[i])) {
      var m := StopsOnlyToWait(t);
      assert false;
    }
    forall i | 0 <= i < |t.fds|
      ensures t.fds[i].read == t.fds[i].written
      ensures t.pc.LDone? ==> !t.fds[i].open
    {
      assert FdOk(t.fds[i]);
      SumAtLeast(IsOpen, t.fds, i);
      assert t.pc.LWait? ==> !IsReady(t.fds[i]);
    }
    if t.pc.LWait? {
      var i := SumPositive(IsOpen, t.fds);
      assert !IsReady(t.fds[i]);
    }
  }

  // ---- Any contents can come through

  function WritersOf(f: Fd): nat
  {
    f.writers
  }

  /** A second writer comes to each FIFO from `k` on, and the contents are written. */
  lemma {:induction false} FillFrom(s: State, data: seq<Bytes>, k: nat) returns (t: State)
    requires |s.fds| == |data| && k <= |data|
    requires forall i :: 0 <= i < |data| ==> s.fds[i].writers > 0 && s.fds[i].written == if i < k then data[i] else []
    ensures Reaches(Step, s, t) && |t.fds| == |data|
    ensures forall i :: 0 <= i < |data| ==> t.fds[i].written == data[i]
    decreases |data| - k
  {
    ReachesSelf(Step, s);
    t := s;
    if k < |data| {
      var u := Go(Step, s, s, OpenWriter(k));
      u := Go(Step, s, u, Write(k, data[k]));
      assert [] + data[k] == data[k];
      t := FillFrom(u, data, k + 1);
      ReachesThrough(Step, s, u, t);
    }
  }

  lemma {:induction false} WritersLeave(s: State) returns (t: State)
    ensures Reaches(Step, s, t) && NoWriterLeft(t) && |t.fds| == |s.fds|
    ensures forall i :: 0 <= i < |s.fds| ==> t.fds[i].written == s.fds[i].written
    decreases Sum(WritersOf, s.fds)
  {
    ReachesSelf(Step, s);
    t := s;
    if !NoWriterLeft(s) {
      var i :| 0 <= i < |s.fds| && s.fds[i].writers > 0;
      var u := Go(Step, s, s, CloseWriter(i));
      SumUpdate(WritersOf, s.fds, i, u.fds[i]);
      t := WritersLeave(u);
      ReachesThrough(Step, s, u, t);
    }
  }

  lemma LoopMoveKeeps(s: State, m: Move)
    requires OfLoop(m) && Step(s, m).Some? && NoWriterLeft(s)
    ensures var t := Step(s, m).value;
            && NoWriterLeft(t) && |t.fds| == |s.fds|
            && forall i :: 0 <= i < |s.fds| ==> t.fds[i].written == s.fds[i].written
  {
  }

  lemma {:induction false} LoopToTheEnd(s: State) returns (t: State)
    requires Inv(s) && NoWriterLeft(s)
    ensures Reaches(Step, s, t) && Inv(t) && t.pc.LDone? && |t.fds| == |s.fds|
    ensures forall i :: 0 <= i < |s.fds| ==> t.fds[i].written == s.fds[i].written
    decreases Measure(s)
  {
    ReachesSelf(Step, s);
    t := s;
    if !s.pc.LDone? {
      if s.pc.LWait? {
        var i := SumPositive(IsOpen, s.fds);
        assert IsReady(s.fds[i]);
      }
      var m := StopsOnlyToWait(s);
      InvStep(s, m);
      MeasureDecreases(s, m);
      LoopMoveKeeps(s, m);
      var u := Go(Step, s, s, m);
      t := LoopToTheEnd(u);
      ReachesThrough(Step, s, u, t);
    }
  }

  /** Whatever is to be written, some run reads all of it, with writers that come and go, and ends. */
  lemma AnyContentsComeThrough(writers: seq<nat>, maxEvents: nat, maxBuf: nat, data: seq<Bytes>) returns (s: State)
    requires maxEvents > 0 && maxBuf > 0 && |data| == |writers| && forall i :: 0 <= i < |writers| ==> writers[i] > 0
    ensures Reachable(Init(writers, maxEvents, maxBuf), s) && s.pc.LDone? && |s.fds| == |data|
    ensures forall i :: 0 <= i < |data| ==> s.fds[i].read == data[i] && !s.fds[i].open
  {
    var s0 := Init(writers, maxEvents, maxBuf);
    var a := FillFrom(s0, data, 0);
    var b := WritersLeave(a);
    ReachesThrough(Step, s0, a, b);
    InvInit(writers, maxEvents, maxBuf);
    ReachableInv(s0, b);
    s := LoopToTheEnd(b);
    ReachesThrough(Step, s0, b, s);
    DoneMeansAllRead(s);
  }

  // ---- The program

  /** epoll_wait() returns, with events or interrupted. */
  predicate Turn(s: State, m: Move)
  {
    s.pc.LWait? && Step(s, m).Some? && !Step(s, m).value.pc.LWait?
  }

  /** How often epoll_wait() has returned so far. */
  ghost function Turns(w: World<State, Move>): nat
    reads w
  {
    Count(Step, Turn, w.start, w.trace)
  }

  lemma {:induction false} WritersTakeNoTurn(s: State, ms: seq<Move>)
    requires All(OfWriter, ms)
    ensures Count(Step, Turn, s, ms) == 0
    decreases ms
  {
    if ms != [] && Step(s, ms[0]).Some? {
      assert OfWriter(ms[0]);
      WritersTakeNoTurn(Step(s, ms[0]).value, ms[1..]);
    }
  }

  /** The writers run for a while. */
  method WritersRun(w: World<State, Move>)
    requires w.Valid() && w.step == Step && Inv(w.s)
    modifies w
    ensures w.Valid() && Inv(w.s) && w.s.pc == old(w.s.pc) && w.s.todo == old(w.s.todo) && w.s.numOpen == old(w.s.numOpen)
    ensures |w.s.fds| == |old(w.s.fds)| && Turns(w) == old(Turns(w))
  {
    ghost var from := w.s;
    ghost var keep := (s: State) =>
      Inv(s) && s.pc == from.pc && s.todo == from.todo && s.numOpen == from.numOpen && |s.fds| == |from.fds|;
    forall s, m | keep(s) && OfWriter(m) && Step(s, m).Some?
      ensures keep(Step(s, m).value)
    {
      InvStep(s, m);
    }
    w.Interfere(OfWriter, keep);
    Since(Step, Turn, w.start, old(w.trace), w.trace);
    WritersTakeNoTurn(old(w.s), w.trace[|old(w.trace)|..]);
  }

  /** One action of the loop. */
  method Act(w: World<State, Move>, m: Move)
    requires w.Valid() && w.step == Step && Inv(w.s) && Step(w.s, m).Some?
    modifies w
    ensures w.Valid() && Inv(w.s) && w.s == Step(old(w.s), m).value
    ensures Turns(w) == old(Turns(w)) + if Turn(old(w.s), m) then 1 else 0
  {
    InvStep(w.s, m);
    CountConcat(Step, Turn, w.start, w.trace, [m]);
    w.Do(m);
  }

  /**
   The loop of alt_io_epoll, for at most `rounds` turns, among writers that write, come
   and go as they like, and signals that interrupt it.  When it ends by itself every FIFO has been read to its
   end; otherwise it has taken all its turns, or waits with nothing to report.
   */
  method AltIoEpoll(w: World<State, Move>, writers: seq<nat>, maxEvents: nat, maxBuf: nat, rounds: nat)
    requires w.Valid() && w.step == Step && maxEvents > 0 && maxBuf > 0
    requires w.s == Init(writers, maxEvents, maxBuf)
    modifies w
    ensures w.Valid() && Inv(w.s)
    ensures w.s.pc.LDone? ==> AllRead(w.s) && AllClosed(w.s)
    ensures Turns(w) <= old(Turns(w)) + rounds
    ensures || w.s.pc.LDone?
            || (w.s.pc.LTest? && w.s.numOpen > 0 && Turns(w) == old(Turns(w)) + rounds)
            || (w.s.pc.LWait? && forall i :: 0 <= i < |w.s.fds| ==> !IsReady(w.s.fds[i]))
  {
    InvInit(writers, maxEvents, maxBuf);
    var i := 0;
    while w.s.numOpen > 0 && i < rounds
      invariant w.Valid() && w.step == Step && Inv(w.s) && w.s.pc.LTest? && w.s.todo == []
      invariant i <= rounds && Turns(w) == old(Turns(w)) + i
      decreases rounds - i
    {
      Act(w, Loop(0));
      EpollWait(w);
      if w.s.pc.LWait? {
        return;                         // still inside epoll_wait()
      }
      if w.s.pc.LEvents? {              // otherwise EINTR: continue
        HandleEvents(w);
      }
      i := i + 1;
    }
    if w.s.numOpen <= 0 {
      Act(w, Loop(0));
      DoneMeansAllRead(w.s);
    }
  }

  /** epoll_wait(): it returns events, or a signal interrupts it, or it waits because nothing is ready. */
  method EpollWait(w: World<State, Move>)
    requires w.Valid() && w.step == Step && Inv(w.s) && w.s.pc.LWait?
    modifies w
    ensures w.Valid() && Inv(w.s)
    ensures ((w.s.pc.LWait? || w.s.pc.LTest?) && w.s.todo == []) || (w.s.pc.LEvents? && w.s.todo != [])
    ensures w.s.pc.LWait? ==> forall i :: 0 <= i < |w.s.fds| ==> !IsReady(w.s.fds[i])
    ensures Turns(w) == old(Turns(w)) + if w.s.pc.LWait? then 0 else 1
  {
    WritersRun(w);
    var interrupted: bool, chosen: seq<nat> := *, *;
    if interrupted {
      Act(w, Interrupt);
    } else if MayReport(w.s, chosen) {
      Act(w, Wait(chosen));
    } else if i :| 0 <= i < |w.s.fds| && IsReady(w.s.fds[i]) {
      Act(w, Wait([i]));
    }
  }

  /** The for loop over evlist. */
  method HandleEvents(w: World<State, Move>)
    requires w.Valid() && w.step == Step && Inv(w.s) && w.s.pc.LEvents?
    modifies w
    ensures w.Valid() && Inv(w.s) && w.s.pc.LTest? && w.s.todo == [] && Turns(w) == old(Turns(w))
  {
    while w.s.todo != []
      invariant w.Valid() && w.step == Step && Inv(w.s) && w.s.pc.LEvents? && Turns(w) == old(Turns(w))
      decreases |w.s.todo|
    {
      WritersRun(w);
      assert EventOk(w.s, w.s.todo[0]);
      var k: nat := *;                  // what read() returns, if it comes to that
      if Step(w.s, Loop(k)).None? {
        k := 1;
      }
      Act(w, Loop(k));
    }
    Act(w, Loop(0));
  }
}
