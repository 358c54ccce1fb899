/**
 The echo client and one server child.  The client is two processes: the parent
 copies standard input to the connection and then shuts its writing side down,
 the child prints what comes back until end of file.  The server child writes
 back what it reads (RFC 862) until end of file.  The two directions of the
 connection are byte streams of bounded capacity, and closing one direction is
 seen by the other side after all the bytes before it (RFC 9293, section 3.6.1).
 */
module EchoRelay {
  import opened Runs
  import opened Streams

  datatype SenderPc =
    | PRead     // read(STDIN_FILENO)
    | PWrite    // write() of the buffer, as far as there is room
    | PShut     // shutdown(SHUT_WR)
    | PDone

  datatype ReceiverPc = CRead | CDone

  datatype ServerPc =
    | SRead     // read() from the connection
    | SWrite    // write() of the buffer, as far as there is room
    | SExit     // after echo(): accept() on the closed listening socket fails and the child exits
    | SDone

  datatype State = State(
    input: Bytes,         // all that the client's standard input will deliver
    capForward: nat,
    capReturn: nat,
    bufSize: nat,
    received: Bytes,      // what the receiver has printed
    ret: Bytes,           // server to client
    serverBuf: Bytes,
    fwd: Bytes,           // client to server
    clientBuf: Bytes,
    unread: Bytes,
    fwdClosed: bool,
    retClosed: bool,
    sender: SenderPc,
    receiver: ReceiverPc,
    server: ServerPc
  )

  /** `k` is the number of bytes that the action transfers. */
  datatype Move = Sender(k: nat) | Receiver(k: nat) | Server(k: nat)

  function Init(input: Bytes, capForward: nat, capReturn: nat, bufSize: nat): State
  {
    State(input, capForward, capReturn, bufSize, [], [], [], [], [], input, false, false, PRead, CRead, SRead)
  }

  function Step(s: State, m: Move): Option<State>
  {
    match m
    case Sender(k) => SenderStep(s, k)
    case Receiver(k) => ReceiverStep(s, k)
    case Server(k) => ServerStep(s, k)
  }

  /** A transfer of `k` bytes from `from`: at least one, and no more than there are and fit. */
  predicate CanTransfer(k: nat, from: Bytes, room: int)
  {
    0 < k <= |from| && k <= room
  }

  function SenderStep(s: State, k: nat): Option<State>
  {
    match s.sender
    case PRead =>
      if s.unread == [] then Some(s.(sender := PShut))
      else if CanTransfer(k, s.unread, s.bufSize) then
        Some(s.(clientBuf := s.clientBuf + s.unread[..k], unread := s.unread[k..], sender := PWrite))
      else None
    case PWrite =>
      if CanTransfer(k, s.clientBuf, s.capForward - |s.fwd|) then
        Some(s.(fwd := s.fwd + s.clientBuf[..k], clientBuf := s.clientBuf[k..],
                sender := if k == |s.clientBuf| then PRead else PWrite))
      else None
    case PShut => Some(s.(fwdClosed := true, sender := PDone))
    case PDone => None
  }

  function ServerStep(s: State, k: nat): Option<State>
  {
    match s.server
    case SRead =>
      if CanTransfer(k, s.fwd, s.bufSize) then
        Some(s.(serverBuf := s.serverBuf + s.fwd[..k], fwd := s.fwd[k..], server := SWrite))
      else if s.fwd == [] && s.fwdClosed then Some(s.(server := SExit))
      else None
    case SWrite =>
      if CanTransfer(k, s.serverBuf, s.capReturn - |s.ret|) then
        Some(s.(ret := s.ret + s.serverBuf[..k], serverBuf := s.serverBuf[k..],
                server := if k == |s.serverBuf| then SRead else SWrite))
      else None
    case SExit => Some(s.(retClosed := true, server := SDone))
    case SDone => None
  }

  function ReceiverStep(s: State, k: nat): Option<State>
  {
    match s.receiver
    case CRead =>
      if CanTransfer(k, s.ret, s.bufSize) then
        Some(s.(received := s.received + s.ret[..k], ret := s.ret[k..]))
      else if s.ret == [] && s.retClosed then Some(s.(receiver := CDone))
      else None
    case CDone => None
  }

  ghost predicate Reachable(s0: State, s: State)
  {
    Reaches(Step, s0, s)
  }

  /** Where the bytes of the input are, the ones furthest ahead first. */
  function Places(s: State): seq<Bytes>
  {
    [s.received, s.ret, s.serverBuf, s.fwd, s.clientBuf, s.unread]
  }

  ghost predicate Inv(s: State)
  {
    && s.capForward > 0 && s.capReturn > 0 && s.bufSize > 0
    && |s.fwd| <= s.capForward && |s.ret| <= s.capReturn
    && |s.clientBuf| <= s.bufSize && |s.serverBuf| <= s.bufSize
    && Flat(Places(s)) == s.input
    && (s.sender.PWrite? <==> s.clientBuf != [])
    && (s.server.SWrite? <==> s.serverBuf != [])
    && (s.sender.PShut? || s.sender.PDone? ==> s.unread == [])
    && (s.fwdClosed <==> s.sender.PDone?)
    && (s.server.SExit? || s.server.SDone? ==> s.fwdClosed && s.fwd == [])
    && (s.retClosed <==> s.server.SDone?)
    && (s.receiver.CDone? ==> s.retClosed && s.ret == [])
  }

  lemma InvInit(input: Bytes, capForward: nat, capReturn: nat, bufSize: nat)
    requires capForward > 0 && capReturn > 0 && bufSize > 0
    ensures Inv(Init(input, capForward, capReturn, bufSize))
  {
    NothingMoved(Places(Init(input, capForward, capReturn, bufSize)));
  }

  lemma InvSender(s: State, k: nat)
    requires Inv(s) && SenderStep(s, k).Some?
    ensures Inv(SenderStep(s, k).value)
  {
    var t := SenderStep(s, k).value;
    if s.sender.PRead? && s.unread != [] {
      assert Places(t) == Advance(Places(s), 4, k);
      AdvanceKeepsStream(Places(s), 4, k);
    } else if s.sender.PWrite? {
      assert Places(t) == Advance(Places(s), 3, k);
      AdvanceKeepsStream(Places(s), 3, k);
    }
  }

  lemma InvServer(s: State, k: nat)
    requires Inv(s) && ServerStep(s, k).Some?
    ensures Inv(ServerStep(s, k).value)
  {
    var t := ServerStep(s, k).value;
    if t.server.SWrite? && s.server.SRead? {
      assert Places(t) == Advance(Places(s), 2, k);
      AdvanceKeepsStream(Places(s), 2, k);
    } else if s.server.SWrite? {
      assert Places(t) == Advance(Places(s), 1, k);
      AdvanceKeepsStream(Places(s), 1, k);
    }
  }

  lemma InvReceiver(s: State, k: nat)
    requires Inv(s) && ReceiverStep(s, k).Some?
    ensures Inv(ReceiverStep(s, k).value)
  {
    var t := ReceiverStep(s, k).value;
    if t.receiver.CRead? {
      assert Places(t) == Advance(Places(s), 0, k);
      AdvanceKeepsStream(Places(s), 0, k);
    }
  }

  lemma InvStep(s: State, m: Move)
    requires Inv(s) && Step(s, m).Some?
    ensures Inv(Step(s, m).value)
  {
    match m
    case Sender(k) => InvSender(s, k);
    case Server(k) => InvServer(s, k);
    case Receiver(k) => InvReceiver(s, k);
  }

  predicate Same(s: State, t: State)
  {
    t.input == s.input && t.capForward == s.capForward && t.capReturn == s.capReturn && t.bufSize == s.bufSize
  }

  lemma SenderSame(s: State, k: nat)
    requires SenderStep(s, k).Some?
    ensures Same(s, SenderStep(s, k).value)
  {
  }

  lemma ServerSame(s: State, k: nat)
    requires ServerStep(s, k).Some?
    ensures Same(s, ServerStep(s, k).value)
  {
  }

  lemma SameStep(s: State, m: Move)
    requires Step(s, m).Some?
    ensures Same(s, Step(s, m).value)
  {
    match m
    case Sender(k) => SenderSame(s, k);
    case Server(k) => ServerSame(s, k);
    case Receiver(k) =>
  }

  lemma SameIsPreserved(s0: State)
    ensures Preserved(Step, (m: Move) => true, (t: State) => Same(s0, t))
  {
    forall s, m | Same(s0, s) && Step(s, m).Some?
      ensures Same(s0, Step(s, m).value)
    {
      SameStep(s, m);
    }
  }

  lemma ReachableInv(s0: State, s: State)
    requires Inv(s0) && Reachable(s0, s)
    ensures Inv(s) && Same(s0, s)
  {
    StepIsGood();
    SameIsPreserved(s0);
    var ms :| Run(Step, s0, ms) == Some(s);
    InvariantHolds(Step, (m: Move) => true, Inv, s0, ms);
    InvariantHolds(Step, (m: Move) => true, (t: State) => Same(s0, t), s0, ms);
  }

  // ---- What every reachable state satisfies

  /** Every byte taken from standard input is in exactly one place, in order, and no place overflows. */
  lemma StreamIsPreserved(input: Bytes, capForward: nat, capReturn: nat, bufSize: nat, s: State)
    requires capForward > 0 && capReturn > 0 && bufSize > 0
    requires Reachable(Init(input, capForward, capReturn, bufSize), s)
    ensures input == s.received + s.ret + s.serverBuf + s.fwd + s.clientBuf + s.unread
    ensures |s.fwd| <= capForward && |s.ret| <= capReturn
    ensures |s.clientBuf| <= bufSize && |s.serverBuf| <= bufSize
  {
    InvInit(input, capForward, capReturn, bufSize);
    ReachableInv(Init(input, capForward, capReturn, bufSize), s);
    FlatOfSix(s.received, s.ret, s.serverBuf, s.fwd, s.clientBuf, s.unread);
  }

  /** Each read() and write() may transfer any number of bytes from one to what there is and fits, and no other. */
  lemma AnyChunk(s: State, k: nat)
    requires Inv(s)
    ensures s.sender.PRead? && s.unread != [] ==>
              (SenderStep(s, k).Some? <==> 1 <= k <= |s.unread| && k <= s.bufSize)
              && (SenderStep(s, k).Some? ==> |SenderStep(s, k).value.clientBuf| == k)
    ensures s.sender.PWrite? ==>
              (SenderStep(s, k).Some? <==> 1 <= k <= |s.clientBuf| && |s.fwd| + k <= s.capForward)
              && (SenderStep(s, k).Some? ==> |SenderStep(s, k).value.fwd| == |s.fwd| + k)
    ensures s.server.SRead? && s.fwd != [] ==>
              (ServerStep(s, k).Some? <==> 1 <= k <= |s.fwd| && k <= s.bufSize)
              && (ServerStep(s, k).Some? ==> |ServerStep(s, k).value.serverBuf| == k)
    ensures s.server.SWrite? ==>
              (ServerStep(s, k).Some? <==> 1 <= k <= |s.serverBuf| && |s.ret| + k <= s.capReturn)
              && (ServerStep(s, k).Some? ==> |ServerStep(s, k).value.ret| == |s.ret| + k)
    ensures s.receiver.CRead? && s.ret != [] ==>
              (ReceiverStep(s, k).Some? <==> 1 <= k <= |s.ret| && k <= s.bufSize)
              && (ReceiverStep(s, k).Some? ==> |ReceiverStep(s, k).value.received| == |s.received| + k)
  {
  }

  /** Each read() of the receiver prints the next bytes of the input, a bufferful at most. */
  lemma ReceiverReads(input: Bytes, capForward: nat, capReturn: nat, bufSize: nat, s: State, k: nat)
    requires capForward > 0 && capReturn > 0 && bufSize > 0
    requires Reachable(Init(input, capForward, capReturn, bufSize), s) && ReceiverStep(s, k).Some?
    ensures var t := ReceiverStep(s, k).value;
            && |s.received| <= |t.received| <= |s.received| + bufSize && t.received <= input
            && (|t.received| == |s.received| ==> t.receiver.CDone? && s.received == input)
  {
    var s0 := Init(input, capForward, capReturn, bufSize);
    InvInit(input, capForward, capReturn, bufSize);
    ReachableInv(s0, s);
    ReachesByMove(Step, s0, s, Receiver(k));
    var t := ReceiverStep(s, k).value;
    StreamIsPreserved(input, capForward, capReturn, bufSize, t);
    assert t.received <= input;
    if t.receiver.CDone? {
      EndOfFileMeansAll(input, capForward, capReturn, bufSize, t);
    }
  }

  /** When the receiver sees end of file it has received the whole input. */
  lemma EndOfFileMeansAll(input: Bytes, capForward: nat, capReturn: nat, bufSize: nat, s: State)
    requires capForward > 0 && capReturn > 0 && bufSize > 0
    requires Reachable(Init(input, capForward, capReturn, bufSize), s) && s.receiver.CDone?
    ensures s.received == input
  {
    InvInit(input, capForward, capReturn, bufSize);
    ReachableInv(Init(input, capForward, capReturn, bufSize), s);
    AllArrived(Places(s));
  }

  // ---- Progress

  predicate Finished(s: State)
  {
    s.sender.PDone? && s.receiver.CDone? && s.server.SDone?
  }

  /** However small the capacities are, somebody can always go on. */
  lemma NeverStuck(s: State) returns (m: Move)
    requires Inv(s) && !Finished(s)
    ensures Step(s, m).Some?
  {
    if SenderStep(s, 1).Some? {
      m := Sender(1);
    } else if ServerStep(s, 1).Some? {
      m := Server(1);
    } else {
      m := Receiver(1);
    }
  }

  function Measure(s: State): nat
  {
    5 * |s.unread| + 4 * |s.clientBuf| + 3 * |s.fwd| + 2 * |s.serverBuf| + |s.ret|
    + (if s.sender.PDone? then 0 else if s.sender.PShut? then 1 else 2)
    + (if s.server.SDone? then 0 else if s.server.SExit? then 1 else 2)
    + (if s.receiver.CDone? then 0 else 1)
  }

  lemma MeasureDecreases(s: State, m: Move)
    requires Inv(s) && Step(s, m).Some?
    ensures Measure(Step(s, m).value) < Measure(s)
  {
  }

  lemma StepIsGood()
    ensures Preserved(Step, (m: Move) => true, Inv)
    ensures Decreases(Step, (m: Move) => true, Inv, Measure)
  {
    forall s, m | Inv(s) && Step(s, m).Some?
      ensures Inv(Step(s, m).value) && Measure(Step(s, m).value) < Measure(s)
    {
      InvStep(s, m);
      MeasureDecreases(s, m);
    }
  }

  /** Every run is finite, and one that cannot go on has echoed the whole input. */
  lemma EchoCompletes(input: Bytes, capForward: nat, capReturn: nat, bufSize: nat, ms: seq<Move>)
    requires capForward > 0 && capReturn > 0 && bufSize > 0
    requires Run(Step, Init(input, capForward, capReturn, bufSize), ms).Some?
    ensures |ms| <= 5 * |input| + 5
    ensures var s := Run(Step, Init(input, capForward, capReturn, bufSize), ms).value;
            (forall m :: Step(s, m).None?) ==> Finished(s) && s.received == input
  {
    var s0 := Init(input, capForward, capReturn, bufSize);
    var s := Run(Step, s0, ms).value;
    InvInit(input, capForward, capReturn, bufSize);
    StepIsGood();
    RunIsBounded(Step, (m: Move) => true, Inv, Measure, s0, ms);
    ReachableInv(s0, s);
    if forall m :: Step(s, m).None? {
      if !Finished(s) {
        var m := NeverStuck(s);
        assert false;
      }
      EndOfFileMeansAll(input, capForward, capReturn, bufSize, s);
    }
  }

  // ---- The programs

  datatype Process = TheSender | TheReceiver | TheServer

  predicate Owns(p: Process, m: Move)
  {
    match p
    case TheSender => m.Sender?
    case TheReceiver => m.Receiver?
    case TheServer => m.Server?
  }

  /** What the other processes leave alone while `p` is between two actions. */
  ghost predicate Kept(p: Process, from: State, s: State)
  {
    && Inv(s) && s.input == from.input && Measure(s) <= Measure(from)
    && (p.TheSender? ==> s.sender == from.sender && s.clientBuf == from.clientBuf && s.unread == from.unread)
    && (p.TheReceiver? ==> s.receiver == from.receiver && s.received == from.received)
    && (p.TheServer? ==> s.server == from.server && s.serverBuf == from.serverBuf)
  }

  /** The action that `p` is at can be taken, for some number of bytes. */
  predicate Ready(p: Process, s: State)
  {
    match p
    case TheSender => SenderStep(s, 1).Some?
    case TheReceiver => ReceiverStep(s, 1).Some?
    case TheServer => ServerStep(s, 1).Some?
  }

  predicate Ended(p: Process, s: State)
  {
    match p
    case TheSender => s.sender.PDone?
    case TheReceiver => s.receiver.CDone?
    case TheServer => s.server.SDone?
  }

  function TheMove(p: Process, k: nat): Move
  {
    match p
    case TheSender => Sender(k)
    case TheReceiver => Receiver(k)
    case TheServer => Server(k)
  }

  /** The places that an action of `p` can lead to from where `s` is. */
  predicate Follows(p: Process, s: State, t: State)
  {
    match p
    case TheSender =>
      (match s.sender
       case PRead => t.sender.PShut? || t.sender.PWrite?
       case PWrite => t.sender.PRead? || t.sender.PWrite?
       case _ => t.sender.PDone?)
    case TheReceiver => true
    case TheServer =>
      (match s.server
       case SRead => t.server.SExit? || t.server.SWrite?
       case SWrite => t.server.SRead? || t.server.SWrite?
       case _ => t.server.SDone?)
  }

  lemma OthersKeep(p: Process, from: State, s: State, m: Move)
    requires Kept(p, from, s) && !Owns(p, m) && Step(s, m).Some?
    ensures Kept(p, from, Step(s, m).value) && Measure(Step(s, m).value) < Measure(s)
  {
    InvStep(s, m);
    MeasureDecreases(s, m);
  }

  lemma OthersGoOn(p: Process, s: State) returns (m: Move)
    requires Inv(s) && !Ended(p, s) && !Ready(p, s)
    ensures !Owns(p, m) && Step(s, m).Some?
  {
    m := NeverStuck(s);
  }

  /** The next action of `p`, which may have to wait for the others; it moves as much as it likes. */
  method Act(w: World<State, Move>, p: Process)
    requires w.Valid() && w.step == Step && Inv(w.s) && !Ended(p, w.s)
    modifies w
    ensures w.Valid() && Inv(w.s) && w.s.input == old(w.s.input) && Measure(w.s) < Measure(old(w.s))
    ensures Follows(p, old(w.s), w.s)
  {
    Wait(w, p);
    var k: nat := *;
    if Step(w.s, TheMove(p, k)).None? {
      k := 1;
    }
    InvStep(w.s, TheMove(p, k));
    MeasureDecreases(w.s, TheMove(p, k));
    w.Do(TheMove(p, k));
  }

  /** The others run, at least until `p` can act. */
  method Wait(w: World<State, Move>, p: Process)
    requires w.Valid() && w.step == Step && Inv(w.s) && !Ended(p, w.s)
    modifies w
    ensures w.Valid() && Kept(p, old(w.s), w.s) && Ready(p, w.s)
  {
    ghost var from := w.s;
    ghost var keep := (s: State) => Kept(p, from, s);
    var others := (m: Move) => !Owns(p, m);
    forall s, m | keep(s) && others(m) && Step(s, m).Some?
      ensures keep(Step(s, m).value) && Measure(Step(s, m).value) < Measure(s)
    {
      OthersKeep(p, from, s, m);
    }
    forall s | keep(s) && !Ready(p, s)
      ensures exists m :: others(m) && Step(s, m).Some?
    {
      var m := OthersGoOn(p, s);
    }
    w.WaitUntil((s: State) => Ready(p, s), others, keep, Measure);
  }

  /** echo() and the exit that follows it. */
  method Echo(w: World<State, Move>)
    requires w.Valid() && w.step == Step && Inv(w.s) && w.s.server.SRead?
    modifies w
    ensures w.Valid() && Inv(w.s) && w.s.server.SDone?
    ensures w.s.received + w.s.ret == w.s.input
  {
    while true
      invariant w.Valid() && w.step == Step && Inv(w.s) && w.s.server.SRead?
      decreases Measure(w.s)
    {
      Act(w, TheServer);          // read()
      if w.s.server.SExit? {
        break;
      }
      ghost var before := Measure(w.s);
      while w.s.server.SWrite?    // write()
        invariant w.Valid() && w.step == Step && Inv(w.s) && (w.s.server.SRead? || w.s.server.SWrite?)
        invariant Measure(w.s) <= before
        decreases Measure(w.s)
      {
        Act(w, TheServer);
      }
    }
    Act(w, TheServer);
    FlatOfSix(w.s.received, w.s.ret, w.s.serverBuf, w.s.fwd, w.s.clientBuf, w.s.unread);
    assert w.s.serverBuf == w.s.fwd == w.s.clientBuf == w.s.unread == [];
  }

  /** The client's parent: it returns having read its whole input and shut its side down. */
  method Send(w: World<State, Move>)
    requires w.Valid() && w.step == Step && Inv(w.s) && w.s.sender.PRead?
    modifies w
    ensures w.Valid() && Inv(w.s) && w.s.sender.PDone? && w.s.unread == w.s.clientBuf == [] && w.s.fwdClosed
  {
    while true
      invariant w.Valid() && w.step == Step && Inv(w.s) && w.s.sender.PRead?
      decreases Measure(w.s)
    {
      Act(w, TheSender);          // read()
      if w.s.sender.PShut? {
        break;
      }
      ghost var before := Measure(w.s);
      while w.s.sender.PWrite?    // write()
        invariant w.Valid() && w.step == Step && Inv(w.s) && (w.s.sender.PRead? || w.s.sender.PWrite?)
        invariant Measure(w.s) <= before
        decreases Measure(w.s)
      {
        Act(w, TheSender);
      }
    }
    Act(w, TheSender);            // shutdown()
  }

  /** The client's child: it returns having received the whole input. */
  method Receive(w: World<State, Move>)
    requires w.Valid() && w.step == Step && Inv(w.s) && w.s.receiver.CRead?
    modifies w
    ensures w.Valid() && Inv(w.s) && w.s.receiver.CDone? && w.s.received == w.s.input == old(w.s.input)
  {
    while w.s.receiver.CRead?     // read() until it returns 0
      invariant w.Valid() && w.step == Step && Inv(w.s) && w.s.input == old(w.s.input)
      decreases Measure(w.s)
    {
      Act(w, TheReceiver);
    }
    AllArrived(Places(w.s));
  }
}
