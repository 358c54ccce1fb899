/**
 A FIFO that carries fixed-size request records from any number of clients to one
 server.  A record is not longer than PIPE_BUF, so a client's write() puts it in
 as a whole or waits (write() in POSIX.1-2017 XSH section 3).  The server also
 opens the writing side itself, so as never to see end of file.
 */
module FifoRecords {
  import opened Runs
  import opened Sums
  import opened Streams

  datatype ClientPc = COpen | CWrite | CExit | CDone

  datatype ServerPc =
    | SOpen     // open(SERVER_FIFO, O_RDONLY)
    | SDummy    // open(SERVER_FIFO, O_WRONLY)
    | SRead     // the endless loop of read()

  datatype State = State(
    records: seq<Bytes>,    // what each client will write
    size: nat,              // sizeof(struct request)
    cap: nat,               // how many bytes the FIFO holds
    useDummy: bool,         // the program opens the writing side; without it, for comparison
    clients: seq<ClientPc>,
    server: ServerPc,
    dummy: bool,            // the server's own writing end is open
    fifo: Bytes,
    order: seq<nat>,        // the clients that have written, in the order of their writes
    received: seq<Bytes>,   // the records the server has read
    shortReads: nat,        // read() returned a fragment
    endOfFiles: nat         // read() returned 0
  )

  /** `i` is the client that acts, or the one that the server's open() waits for. */
  datatype Move = Client(i: nat) | Server(i: nat)

  function Init(records: seq<Bytes>, size: nat, cap: nat, useDummy: bool): State
  {
    State(records, size, cap, useDummy, seq(|records|, i => COpen), SOpen, false, [], [], [], 0, 0)
  }

  function HasWriteEnd(c: ClientPc): nat
  {
    if c.CWrite? || c.CExit? then 1 else 0
  }

  function Step(s: State, m: Move): Option<State>
  {
    match m
    case Client(i) => if i < |s.clients| && i < |s.records| then ClientStep(s, i) else None
    case Server(i) => ServerStep(s, i)
  }

  /** open() waits for the reader, write() for room; the writing end is closed on exit. */
  function ClientStep(s: State, i: nat): Option<State>
    requires i < |s.clients| && i < |s.records|
  {
    match s.clients[i]
    case COpen => if s.server.SOpen? then None else Some(s.(clients := s.clients[i := CWrite]))
    case CWrite =>
      if |s.fifo| + |s.records[i]| <= s.cap then
        Some(s.(fifo := s.fifo + s.records[i], order := s.order + [i], clients := s.clients[i := CExit]))
      else None
    case CExit => Some(s.(clients := s.clients[i := CDone]))
    case CDone => None
  }

  /** The server's first open() and that of some client wait for each other, and return together. */
  function ServerStep(s: State, i: nat): Option<State>
  {
    match s.server
    case SOpen =>
      if i < |s.clients| && s.clients[i].COpen? then Some(s.(server := SDummy, clients := s.clients[i := CWrite]))
      else None
    case SDummy => Some(s.(server := SRead, dummy := s.useDummy))
    case SRead =>
      if |s.fifo| >= s.size && s.fifo != [] then
        Some(s.(received := s.received + [s.fifo[..s.size]], fifo := s.fifo[s.size..]))
      else if s.fifo != [] then Some(s.(shortReads := s.shortReads + 1, fifo := []))
      else if AtEndOfFile(s) then Some(s.(endOfFiles := s.endOfFiles + 1))
      else None
  }

  /** The FIFO is empty and nobody has a writing end open, so read() returns 0. */
  predicate AtEndOfFile(s: State)
  {
    s.fifo == [] && !s.dummy && Sum(HasWriteEnd, s.clients) == 0
  }

  ghost predicate Reachable(s0: State, s: State)
  {
    Reaches(Step, s0, s)
  }

  predicate HasWritten(c: ClientPc)
  {
    c.CExit? || c.CDone?
  }

  /** The records that have been written, in order. */
  function Written(records: seq<Bytes>, order: seq<nat>): seq<Bytes>
    requires forall j :: 0 <= j < |order| ==> order[j] < |records|
  {
    seq(|order|, j requires 0 <= j < |order| => records[order[j]])
  }

  ghost predicate OrderOk(s: State)
  {
    && |s.clients| == |s.records|
    && (forall j :: 0 <= j < |s.order| ==> s.order[j] < |s.records|)
    && (forall j, k :: 0 <= j < k < |s.order| ==> s.order[j] != s.order[k])
    && (forall i :: 0 <= i < |s.clients| ==> (HasWritten(s.clients[i]) <==> i in s.order))
  }

  ghost predicate Inv(s: State)
  {
    && 0 < s.size <= s.cap && (forall i :: 0 <= i < |s.records| ==> |s.records[i]| == s.size)
    && OrderOk(s)
    && |s.received| <= |s.order|
    && s.received == Written(s.records, s.order)[..|s.received|]
    && s.fifo == Flat(Written(s.records, s.order)[|s.received|..]) && |s.fifo| <= s.cap
    && s.shortReads == 0
    && (s.server.SOpen? ==> forall i :: 0 <= i < |s.clients| ==> s.clients[i].COpen?)
    && (!s.server.SOpen? ==> exists i :: 0 <= i < |s.clients| && !s.clients[i].COpen?)
    && (s.endOfFiles > 0 ==> s.received != [])
    && (!s.useDummy ==> !s.dummy)
    && (s.useDummy ==> s.endOfFiles == 0 && (s.server.SRead? ==> s.dummy))
  }

  lemma {:induction false} FlatOfRecords(rs: seq<Bytes>, size: nat)
    requires forall i :: 0 <= i < |rs| ==> |rs[i]| == size
    ensures |Flat(rs)| == size * |rs|
    ensures rs != [] ==> |Flat(rs)| >= size && Flat(rs)[..size] == rs[0] && Flat(rs)[size..] == Flat(rs[1..])
  {
    if rs != [] {
      FlatOfRecords(rs[1..], size);
    }
  }

  lemma InvWrite(s: State, i: nat)
    requires Inv(s) && i < |s.clients| && s.clients[i].CWrite? && ClientStep(s, i).Some?
    ensures Inv(ClientStep(s, i).value)
  {
    var t := ClientStep(s, i).value;
    var old', new' := Written(s.records, s.order), Written(t.records, t.order);
    assert new' == old' + [s.records[i]];
    assert new'[..|s.received|] == old'[..|s.received|];
    assert !t.clients[i].COpen?;
    assert new'[|s.received|..] == old'[|s.received|..] + [s.records[i]];
    FlatSnoc(old'[|s.received|..], s.records[i]);
  }

  lemma InvRead(s: State, i: nat)
    requires Inv(s) && s.server.SRead? && ServerStep(s, i).Some?
    ensures Inv(ServerStep(s, i).value)
  {
    var w := Written(s.records, s.order);
    var queued := w[|s.received|..];
    FlatOfRecords(queued, s.size);
    if s.fifo != [] {
      assert queued != [] && queued[1..] == w[|s.received| + 1..];
      assert w[..|s.received| + 1] == w[..|s.received|] + [queued[0]];
    } else {
      EndOfFileComesLast(s);
    }
  }

  /** At end of file something has been received, for some client has been there to be met. */
  lemma EndOfFileComesLast(s: State)
    requires Inv(s) && s.server.SRead? && AtEndOfFile(s)
    ensures s.received != [] && |s.received| == |s.order|
    ensures forall i :: 0 <= i < |s.clients| ==> s.clients[i].COpen? || s.clients[i].CDone?
  {
    FlatOfRecords(Written(s.records, s.order)[|s.received|..], s.size);
    forall i | 0 <= i < |s.clients|
      ensures s.clients[i].COpen? || s.clients[i].CDone?
    {
      SumAtLeast(HasWriteEnd, s.clients, i);
    }
    var i :| 0 <= i < |s.clients| && !s.clients[i].COpen?;
    assert HasWritten(s.clients[i]) && i in s.order;
  }

  lemma InvMeet(s: State, i: nat)
    requires Inv(s) && s.server.SOpen? && ServerStep(s, i).Some?
    ensures Inv(ServerStep(s, i).value)
  {
    var t := ServerStep(s, i).value;
    assert !t.clients[i].COpen?;
    forall k | 0 <= k < |t.clients|
      ensures HasWritten(t.clients[k]) <==> k in t.order
    {
      assert HasWritten(s.clients[k]) <==> k in s.order;
    }
  }

  lemma InvOpenOrExit(s: State, i: nat)
    requires Inv(s) && i < |s.clients| && !s.clients[i].CWrite? && ClientStep(s, i).Some?
    ensures Inv(ClientStep(s, i).value)
  {
    var t := ClientStep(s, i).value;
    assert !t.clients[i].COpen?;
    forall k | 0 <= k < |t.clients|
      ensures HasWritten(t.clients[k]) <==> k in t.order
    {
      assert HasWritten(s.clients[k]) <==> k in s.order;
    }
  }

  lemma InvStep(s: State, m: Move)
    requires Inv(s) && Step(s, m).Some?
    ensures Inv(Step(s, m).value)
  {
    match m
    case Client(i) =>
      if s.clients[i].CWrite? {
        InvWrite(s, i);
      } else {
        InvOpenOrExit(s, i);
      }
    case Server(i) =>
      if s.server.SRead? {
        InvRead(s, i);
      } else if s.server.SOpen? {
        InvMeet(s, i);
      }
  }

  lemma InvIsPreserved()
    ensures Preserved(Step, (m: Move) => true, Inv)
  {
    forall s, m | Inv(s) && Step(s, m).Some?
      ensures Inv(Step(s, m).value)
    {
      InvStep(s, m);
    }
  }

  lemma InvInit(records: seq<Bytes>, size: nat, cap: nat, useDummy: bool)
    requires 0 < size <= cap && forall i :: 0 <= i < |records| ==> |records[i]| == size
    ensures Inv(Init(records, size, cap, useDummy))
  {
    assert Written(records, []) == [];
  }

  lemma SameStep(s: State, m: Move)
    requires Step(s, m).Some?
    ensures Same(s, Step(s, m).value)
  {
  }

  lemma SameIsPreserved(s0: State)
    ensures Preserved(Step, (m: Move) => true, (t: State) => Same(s0, t))
  {
    forall s, m | Same(s0, s) && Step(s, m).Some?
      ensures Same(s0, Step(s, m).value)
    {
      SameStep(s, m);
    }
  }

  lemma ReachableInv(records: seq<Bytes>, size: nat, cap: nat, useDummy: bool, s: State)
    requires 0 < size <= cap && forall i :: 0 <= i < |records| ==> |records[i]| == size
    requires Reachable(Init(records, size, cap, useDummy), s)
    ensures Inv(s) && Same(Init(records, size, cap, useDummy), s)
  {
    var s0 := Init(records, size, cap, useDummy);
    InvInit(records, size, cap, useDummy);
    InvIsPreserved();
    SameIsPreserved(s0);
    var ms :| Run(Step, s0, ms) == Some(s);
    InvariantHolds(Step, (m: Move) => true, Inv, s0, ms);
    InvariantHolds(Step, (m: Move) => true, (t: State) => Same(s0, t), s0, ms);
  }

  predicate Same(s: State, t: State)
  {
    t.records == s.records && t.size == s.size && t.cap == s.cap && t.useDummy == s.useDummy
  }

  // ---- What every reachable state satisfies

  /** The FIFO holds whole records, never too many, and no read() ever returned a fragment. */
  lemma OnlyWholeRecords(records: seq<Bytes>, size: nat, cap: nat, useDummy: bool, s: State)
    requires 0 < size <= cap && forall i :: 0 <= i < |records| ==> |records[i]| == size
    requires Reachable(Init(records, size, cap, useDummy), s)
    ensures s.shortReads == 0
    ensures |s.fifo| == size * (|s.order| - |s.received|) <= cap
  {
    ReachableInv(records, size, cap, useDummy, s);
    FlatOfRecords(Written(s.records, s.order)[|s.received|..], size);
  }

  /** The server receives the clients' records one by one, in the order written, each at most once. */
  lemma ReceivedInOrder(records: seq<Bytes>, size: nat, cap: nat, useDummy: bool, s: State)
    requires 0 < size <= cap && forall i :: 0 <= i < |records| ==> |records[i]| == size
    requires Reachable(Init(records, size, cap, useDummy), s)
    ensures |s.received| <= |s.order|
    ensures forall j :: 0 <= j < |s.order| ==> s.order[j] < |records|
    ensures forall j :: 0 <= j < |s.received| ==> s.received[j] == records[s.order[j]]
    ensures forall j, k :: 0 <= j < k < |s.order| ==> s.order[j] != s.order[k]
  {
    ReachableInv(records, size, cap, useDummy, s);
  }

  /**
   Without the server's own writing end, read() returns end of file exactly when every client
   that has opened the FIFO has exited and everything written has been received; and then
   something has been received.
   */
  lemma EndOfFileIff(records: seq<Bytes>, size: nat, cap: nat, s: State)
    requires 0 < size <= cap && forall i :: 0 <= i < |records| ==> |records[i]| == size
    requires Reachable(Init(records, size, cap, false), s) && s.server.SRead?
    ensures AtEndOfFile(s) <==>
            && (forall i :: 0 <= i < |s.clients| ==> s.clients[i].COpen? || s.clients[i].CDone?)
            && |s.received| == |s.order|
    ensures AtEndOfFile(s) ==> s.received != []
  {
    ReachableInv(records, size, cap, false, s);
    FlatOfRecords(Written(s.records, s.order)[|s.received|..], s.size);
    if AtEndOfFile(s) {
      EndOfFileComesLast(s);
    }
    if forall i :: 0 <= i < |s.clients| ==> s.clients[i].COpen? || s.clients[i].CDone? {
      SumBound(HasWriteEnd, s.clients, 0);
    }
  }

  /** Once at end of file with nobody about to open, read() returns 0 over and over. */
  lemma {:induction false} EndOfFileAgain(s: State, times: nat) returns (t: State)
    requires s.server.SRead? && AtEndOfFile(s)
    ensures Reaches(Step, s, t) && t == s.(endOfFiles := s.endOfFiles + times)
    decreases times
  {
    ReachesSelf(Step, s);
    t := s;
    if times > 0 {
      var u := Go(Step, s, s, Server(0));
      t := EndOfFileAgain(u, times - 1);
      ReachesThrough(Step, s, u, t);
    }
  }

  /**
   The first client writes its record and exits; the server receives the record, and then
   it is shown end of file any number of times.
   */
  lemma EndOfFileWithoutDummy(records: seq<Bytes>, size: nat, cap: nat, times: nat) returns (s: State)
    requires 0 < size <= cap && forall i :: 0 <= i < |records| ==> |records[i]| == size
    requires |records| > 0
    ensures Reachable(Init(records, size, cap, false), s) && s.endOfFiles == times
    ensures s.received == [records[0]] && s.order == [0]
  {
    var s0 := Init(records, size, cap, false);
    ReachesSelf(Step, s0);
    var a := Go(Step, s0, s0, Server(0));
    a := Go(Step, s0, a, Client(0));
    a := Go(Step, s0, a, Client(0));
    a := Go(Step, s0, a, Server(0));
    assert a.fifo == records[0] && a.fifo[..size] == a.fifo;
    a := Go(Step, s0, a, Server(0));
    EndOfFileIff(records, size, cap, a);
    s := EndOfFileAgain(a, times);
    ReachesThrough(Step, s0, a, s);
  }

  /** The server never sees end of file exactly because it keeps a writing end open. */
  lemma NoEndOfFileIffDummy(records: seq<Bytes>, size: nat, cap: nat, useDummy: bool)
    requires 0 < size <= cap && forall i :: 0 <= i < |records| ==> |records[i]| == size
    requires |records| > 0
    ensures (forall s :: Reachable(Init(records, size, cap, useDummy), s) ==> s.endOfFiles == 0) <==> useDummy
  {
    if useDummy {
      forall s | Reachable(Init(records, size, cap, true), s)
        ensures s.endOfFiles == 0
      {
        ReachableInv(records, size, cap, true, s);
      }
    } else {
      var s := EndOfFileWithoutDummy(records, size, cap, 1);
    }
  }

  // ---- Progress

  function Rank(c: ClientPc): nat
  {
    match c
    case COpen => 4
    case CWrite => 3
    case CExit => 1
    case CDone => 0
  }

  function Measure(s: State): nat
  {
    Sum(Rank, s.clients) + (if |s.order| > |s.received| then |s.order| - |s.received| else 0)
    + (if s.server.SOpen? then 2 else if s.server.SDummy? then 1 else 0)
  }

  lemma MeasureDecreases(s: State, m: Move)
    requires Inv(s) && s.useDummy && Step(s, m).Some?
    ensures Measure(Step(s, m).value) < Measure(s)
  {
    if m.Client? || s.server.SOpen? {
      SumUpdate(Rank, s.clients, m.i, Step(s, m).value.clients[m.i]);
      assert Step(s, m).value.clients == s.clients[m.i := Step(s, m).value.clients[m.i]];
    } else if s.server.SRead? {
      FlatOfRecords(Written(s.records, s.order)[|s.received|..], s.size);
    }
  }

  ghost predicate Finished(s: State)
  {
    s.server.SRead? && s.fifo == [] && forall i :: 0 <= i < |s.clients| ==> s.clients[i].CDone?
  }

  lemma WorkLeft(s: State) returns (m: Move)
    requires Inv(s) && |s.records| > 0 && !Finished(s)
    ensures Step(s, m).Some?
  {
    m := Server(0);
    if s.server.SRead? && s.fifo == [] {
      var i :| 0 <= i < |s.clients| && !s.clients[i].CDone?;
      m := Client(i);
    }
  }

  /** The server has received the record of client `i`. */
  ghost predicate ReceivedFrom(s: State, i: nat)
    requires i < |s.records|
  {
    exists j :: 0 <= j < |s.received| && j < |s.order| && s.order[j] == i && s.received[j] == s.records[i]
  }

  lemma FinishedMeansAllReceived(s: State)
    requires Inv(s) && Finished(s)
    ensures |s.received| == |s.order|
    ensures forall i :: 0 <= i < |s.records| ==> ReceivedFrom(s, i)
  {
    var w := Written(s.records, s.order);
    FlatOfRecords(w[|s.received|..], s.size);
    assert |s.received| == |s.order|;
    forall i | 0 <= i < |s.records|
      ensures ReceivedFrom(s, i)
    {
      assert HasWritten(s.clients[i]) && i in s.order;
      var j :| 0 <= j < |s.order| && s.order[j] == i;
      assert s.received[j] == w[..|s.received|][j] == w[j] == s.records[i];
    }
  }

  /**
   With the writing end kept open every run is finite, and one that cannot go on has
   delivered the record of every client.
   */
  lemma AllRecordsArrive(records: seq<Bytes>, size: nat, cap: nat, ms: seq<Move>)
    requires 0 < size <= cap && forall i :: 0 <= i < |records| ==> |records[i]| == size
    requires |records| > 0 && Run(Step, Init(records, size, cap, true), ms).Some?
    ensures |ms| <= 4 * |records| + 2
    ensures var s := Run(Step, Init(records, size, cap, true), ms).value;
            (forall m :: Step(s, m).None?) ==>
              |s.received| == |s.order| && s.records == records && forall i :: 0 <= i < |records| ==> ReceivedFrom(s, i)
  {
    var s0 := Init(records, size, cap, true);
    InvInit(records, size, cap, true);
    DummyStepIsGood();
    RunIsBounded(Step, (m: Move) => true, (s: State) => Inv(s) && s.useDummy, Measure, s0, ms);
    SumBound(Rank, s0.clients, 4);
    var s := Run(Step, s0, ms).value;
    ReachableInv(records, size, cap, true, s);
    if forall m :: Step(s, m).None? {
      if !Finished(s) {
        var m := WorkLeft(s);
        assert false;
      }
      FinishedMeansAllReceived(s);
    }
  }

  lemma DummyStepIsGood()
    ensures Preserved(Step, (m: Move) => true, (s: State) => Inv(s) && s.useDummy)
    ensures Decreases(Step, (m: Move) => true, (s: State) => Inv(s) && s.useDummy, Measure)
  {
    forall s, m | Inv(s) && s.useDummy && Step(s, m).Some?
      ensures Inv(Step(s, m).value) && Step(s, m).value.useDummy && Measure(Step(s, m).value) < Measure(s)
    {
      InvStep(s, m);
      MeasureDecreases(s, m);
    }
  }

  // ---- The server's program

  predicate OfClient(m: Move)
  {
    m.Client?
  }

  /** What the clients leave alone. */
  ghost predicate Kept(from: State, s: State)
  {
    && Inv(s) && s.server == from.server && s.useDummy == from.useDummy
    && s.received == from.received && from.order <= s.order && s.records == from.records
  }

  lemma KeptByClient(from: State, s: State, m: Move)
    requires Kept(from, s) && OfClient(m) && Step(s, m).Some?
    ensures Kept(from, Step(s, m).value)
  {
    InvStep(s, m);
  }

  method ClientsRun(w: World<State, Move>)
    requires w.Valid() && w.step == Step && Inv(w.s)
    modifies w
    ensures w.Valid() && Kept(old(w.s), w.s)
  {
    ghost var from := w.s;
    forall s, m | Kept(from, s) && OfClient(m) && Step(s, m).Some?
      ensures Kept(from, Step(s, m).value)
    {
      KeptByClient(from, s, m);
    }
    w.Interfere(OfClient, (s: State) => Kept(from, s));
  }

  /** A read() that finds something: it returns the oldest record not yet read, whole. */
  method ReadRequest(w: World<State, Move>) returns (request: Bytes)
    requires w.Valid() && w.step == Step && Inv(w.s) && w.s.server.SRead? && w.s.fifo != []
    modifies w
    ensures w.Valid() && Inv(w.s) && w.s.server.SRead?
    ensures w.s.received == old(w.s.received) + [request] && |request| == w.s.size
  {
    FlatOfRecords(Written(w.s.records, w.s.order)[|w.s.received|..], w.s.size);
    InvRead(w.s, 0);
    request := w.s.fifo[..w.s.size];
    w.Do(Server(0));
  }

  /**
   The loop of ipc_fifo_server, for any number `rounds` of reads, or fewer if it comes to
   wait at an empty FIFO: each read that returns hands over the next record written, whole.
   */
  method ServeRequests(w: World<State, Move>, rounds: nat) returns (requests: seq<Bytes>)
    requires w.Valid() && w.step == Step && Inv(w.s) && w.s.server.SRead?
    modifies w
    ensures w.Valid() && Inv(w.s) && w.s.received == old(w.s.received) + requests
    ensures requests == Written(w.s.records, w.s.order)[|old(w.s.received)|..|w.s.received|]
    ensures |requests| <= rounds && (|requests| == rounds || w.s.fifo == [])
  {
    requests := [];
    while |requests| < rounds
      invariant w.Valid() && w.step == Step && Inv(w.s) && w.s.server.SRead? && |requests| <= rounds
      invariant w.s.received == old(w.s.received) + requests
    {
      ClientsRun(w);
      if w.s.fifo == [] {
        break;                          // still inside read()
      }
      var request := ReadRequest(w);
      requests := requests + [request];
    }
    assert requests == w.s.received[|old(w.s.received)|..];
  }
}
