/**
 The shared-memory block transfer: a writer copies its standard input into one
 shared segment, block by block, and a reader copies the blocks to its standard
 output.  Two System V semaphores hand the segment back and forth, and an empty
 block tells the reader to stop.
 */
module ShmTransfer {
  import opened Runs

  type Bytes = seq<bv8>

  // The places of the writer, after it has set the semaphores up and attached the segment.
  datatype WriterPc =
    | WAcquire        // semop(WRITE, -1)
    | WRead           // read() into the segment's buffer
    | WStore(n: nat)  // store the result of read() in cnt
    | WPost           // semop(READ, +1)
    | WTest           // leave the loop when cnt == 0
    | WAdd            // bytes += cnt
    | WFinal          // semop(WRITE, -1), waiting for the reader to finish
    | WRmSem          // remove the semaphore set
    | WDetach         // detach the segment
    | WRmShm          // remove the segment
    | WDone

  datatype ReaderPc =
    | RWait           // semop(READ, -1)
    | RTest           // leave the loop when cnt == 0
    | RCopy           // write() cnt bytes of the buffer
    | RPost           // semop(WRITE, +1)
    | RAdd            // bytes += cnt
    | RDetach         // detach the segment
    | RFinal          // semop(WRITE, +1)
    | RDone

  datatype State = State(
    input: Bytes,      // all that the writer's standard input will deliver
    unread: Bytes,     // the part of it not yet read
    writeSem: nat,
    readSem: nat,
    semExists: bool,
    shmExists: bool,
    cnt: nat,          // the segment: its count ...
    buf: Bytes,        // ... and its buffer, always of the same length
    wpc: WriterPc,
    wbytes: nat,       // the writer's running total
    rpc: ReaderPc,
    rbytes: nat,       // the reader's running total
    output: Bytes,     // the reader's standard output
    fault: bool        // some process used an object that was already removed
  )

  /** Writer moves and reader moves; `k` is the number of bytes that read() returns. */
  datatype Move = Writer(k: nat) | Reader

  function Init(input: Bytes, buf: Bytes): State
  {
    State(input, input, 1, 0, true, true, 0, buf, WAcquire, 0, RWait, 0, [], false)
  }

  function Step(s: State, m: Move): Option<State>
  {
    match m
    case Writer(k) => WriterStep(s, k)
    case Reader => ReaderStep(s)
  }

  /** read() returns at least one byte, and at most a bufferful, until the input is exhausted. */
  predicate ReadMayReturn(s: State, k: nat)
  {
    k <= |s.unread| && k <= |s.buf| && (k == 0 <==> s.unread == [])
  }

  function WriterStep(s: State, k: nat): Option<State>
  {
    match s.wpc
    case WAcquire => Acquire(s, WRead)
    case WRead =>
      if ReadMayReturn(s, k) then
        Some(s.(buf := s.unread[..k] + s.buf[k..], unread := s.unread[k..], wpc := WStore(k),
                fault := s.fault || !s.shmExists))
      else None
    case WStore(n) => Some(s.(cnt := n, wpc := WPost, fault := s.fault || !s.shmExists))
    case WPost => Some(s.(readSem := s.readSem + 1, wpc := WTest, fault := s.fault || !s.semExists))
    case WTest => Some(s.(wpc := if s.cnt == 0 then WFinal else WAdd, fault := s.fault || !s.shmExists))
    case WAdd => Some(s.(wbytes := s.wbytes + s.cnt, wpc := WAcquire, fault := s.fault || !s.shmExists))
    case WFinal => Acquire(s, WRmSem)
    case WRmSem => Some(s.(semExists := false, wpc := WDetach, fault := s.fault || !s.semExists))
    case WDetach => Some(s.(wpc := WRmShm))
    case WRmShm => Some(s.(shmExists := false, wpc := WDone, fault := s.fault || !s.shmExists))
    case WDone => None
  }

  /** semop(WRITE, -1): blocks on zero, and fails when the set has been removed. */
  function Acquire(s: State, next: WriterPc): Option<State>
  {
    if !s.semExists then Some(s.(wpc := next, fault := true))
    else if s.writeSem > 0 then Some(s.(writeSem := s.writeSem - 1, wpc := next))
    else None
  }

  function ReaderStep(s: State): Option<State>
  {
    match s.rpc
    case RWait =>
      if !s.semExists then Some(s.(rpc := RTest, fault := true))
      else if s.readSem > 0 then Some(s.(readSem := s.readSem - 1, rpc := RTest))
      else None
    case RTest => Some(s.(rpc := if s.cnt == 0 then RDetach else RCopy, fault := s.fault || !s.shmExists))
    case RCopy =>
      if s.cnt <= |s.buf| then
        Some(s.(output := s.output + s.buf[..s.cnt], rpc := RPost, fault := s.fault || !s.shmExists))
      else None
    case RPost => Some(s.(writeSem := s.writeSem + 1, rpc := RAdd, fault := s.fault || !s.semExists))
    case RAdd => Some(s.(rbytes := s.rbytes + s.cnt, rpc := RWait, fault := s.fault || !s.shmExists))
    case RDetach => Some(s.(rpc := RFinal))
    case RFinal => Some(s.(writeSem := s.writeSem + 1, rpc := RDone, fault := s.fault || !s.semExists))
    case RDone => None
  }

  ghost predicate Reachable(input: Bytes, buf: Bytes, s: State)
  {
    Reaches(Step, Init(input, buf), s)
  }

  // ---- The invariant

  /** The writer is between taking WRITE and giving READ, or has taken WRITE for good. */
  predicate WriterHolds(s: State)
  {
    s.wpc.WRead? || s.wpc.WStore? || s.wpc.WPost? || s.wpc.WRmSem? || s.wpc.WDetach? || s.wpc.WRmShm? || s.wpc.WDone?
  }

  /** The reader is between taking READ and giving WRITE. */
  predicate ReaderHolds(s: State)
  {
    s.rpc.RTest? || s.rpc.RCopy? || s.rpc.RPost? || s.rpc.RDetach? || s.rpc.RFinal?
  }

  function Tokens(s: State): nat
  {
    s.writeSem + s.readSem + (if WriterHolds(s) then 1 else 0) + (if ReaderHolds(s) then 1 else 0)
  }

  /** The segment holds a block that the reader has not copied yet. */
  predicate BlockWaiting(s: State)
  {
    s.wpc.WPost? || s.readSem > 0 || s.rpc.RTest? || s.rpc.RCopy?
  }

  /** The bytes on their way: in the segment, not yet on standard output. */
  function Uncopied(s: State): Bytes
    requires s.cnt <= |s.buf| && (s.wpc.WStore? ==> s.wpc.n <= |s.buf|)
  {
    if s.wpc.WStore? then s.buf[..s.wpc.n]
    else if BlockWaiting(s) then s.buf[..s.cnt]
    else []
  }

  /** What the writer has read but not yet added to its total. */
  function Uncounted(s: State): nat
  {
    if s.wpc.WStore? then s.wpc.n
    else if s.wpc.WPost? || s.wpc.WTest? || s.wpc.WAdd? then s.cnt
    else 0
  }

  predicate ReaderLeft(s: State)
  {
    s.rpc.RDetach? || s.rpc.RFinal? || s.rpc.RDone?
  }

  predicate WriterTearsDown(s: State)
  {
    s.wpc.WRmSem? || s.wpc.WDetach? || s.wpc.WRmShm? || s.wpc.WDone?
  }

  /** The empty block: who knows about it, and who holds the token then. */
  ghost predicate EndOfInput(s: State)
  {
    && (s.wpc.WStore? && s.wpc.n == 0 ==> s.unread == [])
    && ((s.wpc.WPost? || s.wpc.WTest?) && s.cnt == 0 ==> s.unread == [])
    && (s.wpc.WAdd? ==> s.cnt > 0)
    && (s.wpc.WFinal? || WriterTearsDown(s) ==> s.cnt == 0 && s.unread == [])
    && (ReaderLeft(s) ==> s.cnt == 0 && (s.wpc.WTest? || s.wpc.WFinal? || WriterTearsDown(s)))
    && (s.rpc.RCopy? || s.rpc.RPost? ==> s.cnt > 0)
    && ((s.wpc.WTest? || s.wpc.WFinal?) && s.cnt == 0 ==>
          || (s.readSem > 0 && !ReaderLeft(s)) || s.rpc.RTest? || s.rpc.RDetach? || s.rpc.RFinal?
          || (s.writeSem > 0 && s.rpc.RDone?))
    && (WriterTearsDown(s) ==> s.rpc.RDone?)
    && (s.rpc.RTest? && s.cnt > 0 ==> s.wpc.WTest? || s.wpc.WAdd? || s.wpc.WAcquire?)
    && (s.rpc.RTest? && s.cnt == 0 ==> s.wpc.WTest? || s.wpc.WFinal?)
    && (s.readSem > 0 && s.cnt == 0 ==> s.wpc.WTest? || s.wpc.WFinal?)
  }

  ghost predicate Inv(s: State)
  {
    && Tokens(s) == 1
    && |s.buf| > 0 && s.cnt <= |s.buf| && (s.wpc.WStore? ==> s.wpc.n <= |s.buf|)
    && s.input == s.output + Uncopied(s) + s.unread
    && s.wbytes + Uncounted(s) + |s.unread| == |s.input|
    && EndOfInput(s)
    && (s.semExists <==> !(s.wpc.WDetach? || s.wpc.WRmShm? || s.wpc.WDone?))
    && (s.shmExists <==> !s.wpc.WDone?)
    && !s.fault
  }

  lemma InvInit(input: Bytes, buf: Bytes)
    requires |buf| > 0
    ensures Inv(Init(input, buf))
  {
    var s := Init(input, buf);
    assert s.output + Uncopied(s) + s.unread == input;
  }

  lemma InvWriter(s: State, k: nat)
    requires Inv(s) && WriterStep(s, k).Some?
    ensures Inv(WriterStep(s, k).value)
  {
    var t := WriterStep(s, k).value;
    if s.wpc.WRead? {
      assert Uncopied(s) == [] && Uncopied(t) == t.buf[..k] == s.unread[..k];
      assert s.unread == s.unread[..k] + s.unread[k..];
      assert t.output + Uncopied(t) + t.unread == s.output + s.unread;
    }
  }

  lemma InvReader(s: State)
    requires Inv(s) && ReaderStep(s).Some?
    ensures Inv(ReaderStep(s).value)
  {
    var t := ReaderStep(s).value;
    if s.rpc.RCopy? {
      assert Uncopied(s) == s.buf[..s.cnt] && Uncopied(t) == [];
      assert t.output + Uncopied(t) + t.unread == s.output + s.buf[..s.cnt] + s.unread;
    }
  }

  lemma InvStep(s: State, m: Move)
    requires Inv(s) && Step(s, m).Some?
    ensures Inv(Step(s, m).value)
  {
    match m
    case Writer(k) => InvWriter(s, k);
    case Reader => InvReader(s);
  }

  lemma ReachableInv(input: Bytes, buf: Bytes, s: State)
    requires |buf| > 0 && Reachable(input, buf, s)
    ensures Inv(s)
  {
    InvInit(input, buf);
    forall s, m | Inv(s) && Step(s, m).Some?
      ensures Inv(Step(s, m).value)
    {
      InvStep(s, m);
    }
    var ms :| Run(Step, Init(input, buf), ms) == Some(s);
    InvariantHolds(Step, (m: Move) => true, Inv, Init(input, buf), ms);
    InputIsConstant(Init(input, buf), ms);
  }

  lemma {:induction false} InputIsConstant(s: State, ms: seq<Move>)
    requires Run(Step, s, ms).Some?
    ensures Run(Step, s, ms).value.input == s.input
    decreases |ms|
  {
    if ms != [] {
      InputIsConstant(Step(s, ms[0]).value, ms[1..]);
    }
  }

  // ---- What every reachable state satisfies

  /** read() may return any block that there is and fits, the empty one exactly at the end of the input. */
  lemma AnyBlock(s: State, k: nat)
    requires Inv(s) && s.wpc.WRead?
    ensures WriterStep(s, k).Some? <==> if s.unread == [] then k == 0 else 1 <= k <= |s.unread| && k <= |s.buf|
    ensures WriterStep(s, k).Some? ==>
              var t := WriterStep(s, k).value;
              |t.buf| == |s.buf| && t.buf[..k] == s.unread[..k] && t.unread == s.unread[k..]
  {
  }

  /** Nothing is lost, repeated or reordered: output, block in flight, rest of the input. */
  lemma TransferIsExact(input: Bytes, buf: Bytes, s: State)
    requires |buf| > 0 && Reachable(input, buf, s)
    ensures s.cnt <= |s.buf| && (s.wpc.WStore? ==> s.wpc.n <= |s.buf|)
    ensures input == s.output + Uncopied(s) + s.unread
    ensures |s.output| + |Uncopied(s)| == s.wbytes + Uncounted(s)
  {
    ReachableInv(input, buf, s);
    var ms :| Run(Step, Init(input, buf), ms) == Some(s);
    InputIsConstant(Init(input, buf), ms);
  }

  /** One token, in a semaphore or in a process: filling and copying the block never overlap. */
  lemma OneToken(input: Bytes, buf: Bytes, s: State)
    requires |buf| > 0 && Reachable(input, buf, s)
    ensures Tokens(s) == 1
    ensures !((s.wpc.WRead? || s.wpc.WStore?) && (s.rpc.RTest? || s.rpc.RCopy?))
  {
    ReachableInv(input, buf, s);
  }

  /** Whoever is about to work on the semaphores or the segment finds them there; nobody has failed to so far. */
  lemma TeardownIsSafe(input: Bytes, buf: Bytes, s: State)
    requires |buf| > 0 && Reachable(input, buf, s)
    ensures !s.fault
    ensures s.wpc.WAcquire? || s.wpc.WPost? || s.wpc.WFinal? || s.wpc.WRmSem? ==> s.semExists
    ensures s.rpc.RWait? || s.rpc.RPost? || s.rpc.RFinal? ==> s.semExists
    ensures s.wpc.WRead? || s.wpc.WStore? || s.wpc.WTest? || s.wpc.WAdd? || s.wpc.WDetach? || s.wpc.WRmShm? ==> s.shmExists
    ensures s.rpc.RTest? || s.rpc.RCopy? || s.rpc.RAdd? || s.rpc.RDetach? ==> s.shmExists
    ensures !s.semExists || !s.shmExists || s.wpc.WRmSem? ==> s.rpc.RDone? && s.output == input
  {
    ReachableInv(input, buf, s);
    TransferIsExact(input, buf, s);
    if WriterTearsDown(s) {
      assert Uncopied(s) == [] && s.output + [] + [] == s.output;
    }
  }

  // ---- Progress

  predicate Finished(s: State)
  {
    s.wpc.WDone? && s.rpc.RDone?
  }

  /** Some move is enabled in every state but the last one. */
  lemma NeverStuck(s: State) returns (m: Move)
    requires Inv(s) && !Finished(s)
    ensures Step(s, m).Some?
  {
    var k := if s.unread == [] then 0 else 1;
    if WriterStep(s, k).Some? {
      m := Writer(k);
    } else {
      m := Reader;
    }
  }

  /** How many moves are still to come, at most. */
  function Measure(s: State): nat
  {
    11 * |s.unread| + WriterRank(s) + ReaderRank(s)
  }

  function WriterRank(s: State): nat
  {
    match s.wpc
    case WAcquire => 9
    case WRead => 8
    case WStore(n) => if n > 0 then 13 else 7
    case WPost => if s.cnt > 0 then 12 else 6
    case WTest => if s.cnt > 0 then 11 else 5
    case WAdd => 10
    case WFinal => 4
    case WRmSem => 3
    case WDetach => 2
    case WRmShm => 1
    case WDone => 0
  }

  function ReaderRank(s: State): nat
  {
    var ahead := (s.wpc.WStore? && s.wpc.n > 0) || ((s.wpc.WPost? || s.readSem > 0) && s.cnt > 0);
    (if ahead then 5 else 0) +
    match s.rpc
      case RWait => 4
      case RTest => if s.cnt > 0 then 8 else 3
      case RCopy => 7
      case RPost => 6
      case RAdd => 5
      case RDetach => 2
      case RFinal => 1
      case RDone => 0
  }

  lemma MeasureDecreases(s: State, m: Move)
    requires Inv(s) && Step(s, m).Some?
    ensures Measure(Step(s, m).value) < Measure(s)
  {
  }

  lemma StepIsGood()
    ensures Preserved(Step, (m: Move) => true, Inv)
    ensures Decreases(Step, (m: Move) => true, Inv, Measure)
  {
    forall s, m | Inv(s) && Step(s, m).Some?
      ensures Inv(Step(s, m).value) && Measure(Step(s, m).value) < Measure(s)
    {
      InvStep(s, m);
      MeasureDecreases(s, m);
    }
  }

  /**
   Every run is finite, and a run that cannot go on has delivered everything: the
   reader's output is the writer's whole input and the writer's total its length.
   */
  lemma TransferCompletes(input: Bytes, buf: Bytes, ms: seq<Move>)
    requires |buf| > 0 && Run(Step, Init(input, buf), ms).Some?
    ensures |ms| <= 11 * |input| + 13
    ensures var s := Run(Step, Init(input, buf), ms).value;
            (forall m :: Step(s, m).None?) ==>
              Finished(s) && s.output == input && s.wbytes == |input| && !s.semExists && !s.shmExists
  {
    var s := Run(Step, Init(input, buf), ms).value;
    InvInit(input, buf);
    StepIsGood();
    RunIsBounded(Step, (m: Move) => true, Inv, Measure, Init(input, buf), ms);
    ReachableInv(input, buf, s);
    if forall m :: Step(s, m).None? {
      if !Finished(s) {
        var m := NeverStuck(s);
        assert false;
      }
      TeardownIsSafe(input, buf, s);
      TransferIsExact(input, buf, s);
    }
  }

  // ---- The reader's total
  //
  // The reader adds `cnt` only after it has given WRITE back, when the writer may
  // already have stored the count of the next block.

  /** The reader has given WRITE back and has not added the count of its block yet. */
  ghost predicate ReaderIsLate(s: State)
  {
    && s.wpc.WAcquire? && s.writeSem == 1 && s.readSem == 0 && s.rpc.RAdd?
    && s.semExists && s.shmExists && 0 < |s.buf| && s.cnt <= |s.buf|
  }

  /** The writer stores the next count before the reader adds the last one. */
  lemma Overtaken(s: State, k: nat) returns (t: State)
    requires ReaderIsLate(s) && ReadMayReturn(s, k)
    ensures Reaches(Step, s, t)
    ensures t == s.(buf := s.unread[..k] + s.buf[k..], unread := s.unread[k..], cnt := k, writeSem := 0,
                    wpc := WPost, rpc := RWait, rbytes := s.rbytes + k)
  {
    ReachesSelf(Step, s);
    t := Go(Step, s, s, Writer(0));
    t := Go(Step, s, t, Writer(k));
    t := Go(Step, s, t, Writer(0));
    t := Go(Step, s, t, Reader);
  }

  lemma HandOver(s: State) returns (t: State)
    requires s.wpc.WPost? && s.writeSem == s.readSem == 0 && s.rpc.RWait?
    requires s.semExists && s.shmExists && 0 < s.cnt <= |s.buf|
    ensures Reaches(Step, s, t) && ReaderIsLate(t)
    ensures t.unread == s.unread && t.rbytes == s.rbytes
  {
    ReachesSelf(Step, s);
    t := Go(Step, s, s, Writer(0));
    t := Go(Step, s, t, Writer(0));
    t := Go(Step, s, t, Writer(0));
    t := Go(Step, s, t, Reader);
    t := Go(Step, s, t, Reader);
    t := Go(Step, s, t, Reader);
    t := Go(Step, s, t, Reader);
  }

  lemma Shutdown(s: State) returns (t: State)
    requires s.wpc.WPost? && s.writeSem == s.readSem == 0 && s.rpc.RWait?
    requires s.semExists && s.shmExists && s.cnt == 0
    ensures Reaches(Step, s, t) && Finished(t) && t.rbytes == s.rbytes
  {
    ReachesSelf(Step, s);
    t := Go(Step, s, s, Writer(0));
    t := Go(Step, s, t, Writer(0));
    t := Go(Step, s, t, Reader);
    t := Go(Step, s, t, Reader);
    t := Go(Step, s, t, Reader);
    t := Go(Step, s, t, Reader);
    t := Go(Step, s, t, Writer(0));
    t := Go(Step, s, t, Writer(0));
    t := Go(Step, s, t, Writer(0));
    t := Go(Step, s, t, Writer(0));
  }

  /** The writer can overtake the reader on every block, and again at the end. */
  lemma {:induction false} OvertakenToTheEnd(s: State) returns (t: State)
    requires ReaderIsLate(s)
    ensures Reaches(Step, s, t) && Finished(t)
    ensures t.rbytes == s.rbytes + |s.unread|
    decreases |s.unread|
  {
    var k := if s.unread == [] then 0 else 1;
    var a := Overtaken(s, k);
    if k == 0 {
      t := Shutdown(a);
    } else {
      var b := HandOver(a);
      t := OvertakenToTheEnd(b);
      ReachesThrough(Step, a, b, t);
    }
    ReachesThrough(Step, s, a, t);
  }

  /** Some complete run ends with a reader's total that is one first byte too small. */
  lemma ReaderTotalCanBeShort(input: Bytes, buf: Bytes) returns (t: State)
    requires |buf| > 0 && input != []
    ensures Reachable(input, buf, t) && Finished(t)
    ensures t.output == input && t.wbytes == |input| && t.rbytes == |input| - 1
  {
    var s := Init(input, buf);
    ReachesSelf(Step, s);
    var a := Go(Step, s, s, Writer(0));
    a := Go(Step, s, a, Writer(1));
    a := Go(Step, s, a, Writer(0));
    var b := HandOver(a);
    t := OvertakenToTheEnd(b);
    ReachesThrough(Step, a, b, t);
    ReachesThrough(Step, s, a, t);
    ReachableInv(input, buf, t);
    TeardownIsSafe(input, buf, t);
    TransferIsExact(input, buf, t);
  }

  ghost predicate NothingToRead(s: State)
  {
    s.unread == [] && s.cnt == 0 && s.rbytes == 0 && (s.wpc.WStore? ==> s.wpc.n == 0)
  }

  lemma NothingToReadStep(s: State, m: Move)
    requires NothingToRead(s) && Step(s, m).Some?
    ensures NothingToRead(Step(s, m).value)
  {
  }

  /** The reader's total is right on every complete run exactly when there was nothing to copy. */
  lemma ReaderTotalIsRightIffNoInput(input: Bytes, buf: Bytes)
    requires |buf| > 0
    ensures (forall s :: Reachable(input, buf, s) && Finished(s) ==> s.rbytes == |input|) <==> input == []
  {
    if input == [] {
      forall s, m | NothingToRead(s) && Step(s, m).Some?
        ensures NothingToRead(Step(s, m).value)
      {
        NothingToReadStep(s, m);
      }
      forall s | Reachable(input, buf, s)
        ensures s.rbytes == 0
      {
        var ms :| Run(Step, Init(input, buf), ms) == Some(s);
        InvariantHolds(Step, (m: Move) => true, NothingToRead, Init(input, buf), ms);
      }
    } else {
      var t := ReaderTotalCanBeShort(input, buf);
    }
  }
}
