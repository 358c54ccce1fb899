/**
 Why the echo client is two processes.  A client that did all its sending before it
 started to receive would take part in the same relay, but with its receiver held
 back until the sender is done.  This module says exactly when that deadlocks.
 */
module EchoSingle {
  import opened Runs
  import opened Streams
  import opened EchoRelay

  /** The relay's step, with receiving put after sending. */
  function SingleStep(s: State, m: Move): Option<State>
  {
    if m.Receiver? && !s.sender.PDone? then None else Step(s, m)
  }

  ghost predicate Deadlocked(s: State)
  {
    !Finished(s) && forall m :: SingleStep(s, m).None?
  }

  lemma ReachableInv(s0: State, s: State)
    requires Inv(s0) && Reaches(SingleStep, s0, s)
    ensures Inv(s) && Same(s0, s)
  {
    forall s, m | Inv(s) && SingleStep(s, m).Some?
      ensures Inv(SingleStep(s, m).value)
    {
      InvStep(s, m);
    }
    forall s, m | Same(s0, s) && SingleStep(s, m).Some?
      ensures Same(s0, SingleStep(s, m).value)
    {
      SameStep(s, m);
    }
    var ms :| Run(SingleStep, s0, ms) == Some(s);
    InvariantHolds(SingleStep, (m: Move) => true, Inv, s0, ms);
    InvariantHolds(SingleStep, (m: Move) => true, (t: State) => Same(s0, t), s0, ms);
  }

  /** In a deadlock both channels are full and both buffers are not empty. */
  lemma DeadlockIsFull(s: State)
    requires Inv(s) && Deadlocked(s)
    ensures |s.input| >= s.capForward + s.capReturn + 2
  {
    var k := if s.unread == [] then 0 else 1;
    assert SingleStep(s, Sender(k)).None? && SingleStep(s, Sender(1)).None?;
    assert SingleStep(s, Server(1)).None? && SingleStep(s, Receiver(1)).None?;
    assert s.sender.PWrite? && s.server.SWrite?;
    FlatOfSix(s.received, s.ret, s.serverBuf, s.fwd, s.clientBuf, s.unread);
  }

  // ---- A run into the deadlock, one byte at a time

  /** The sender is about to read and has nothing under way, and there is room for a byte. */
  predicate Sending(s: State)
  {
    s.sender.PRead? && s.clientBuf == [] && s.bufSize > 0 && s.capForward > 0
  }

  /** All that has been sent is in the return channel. */
  predicate Returning(s: State)
  {
    Sending(s) && s.server.SRead? && s.serverBuf == s.fwd == []
  }

  /** The server is stuck behind a full return channel. */
  predicate ServerStuck(s: State)
  {
    Sending(s) && s.server.SWrite? && s.serverBuf != [] && |s.ret| == s.capReturn && !s.fwdClosed
  }

  lemma {:induction false} FillReturn(s: State) returns (t: State)
    requires Returning(s) && |s.ret| <= s.capReturn && |s.unread| >= s.capReturn - |s.ret|
    ensures Reaches(SingleStep, s, t) && Returning(t) && |t.ret| == t.capReturn && Same(s, t)
    ensures |t.unread| == |s.unread| - (s.capReturn - |s.ret|) && t.fwdClosed == s.fwdClosed
    decreases s.capReturn - |s.ret|
  {
    ReachesSelf(SingleStep, s);
    t := s;
    if |s.ret| < s.capReturn {
      var u := Go(SingleStep, s, s, Sender(1));
      u := Go(SingleStep, s, u, Sender(1));
      u := Go(SingleStep, s, u, Server(1));
      u := Go(SingleStep, s, u, Server(1));
      t := FillReturn(u);
      ReachesThrough(SingleStep, s, u, t);
    }
  }

  lemma BlockServer(s: State) returns (t: State)
    requires Returning(s) && |s.ret| == s.capReturn && s.unread != [] && !s.fwdClosed
    ensures Reaches(SingleStep, s, t) && ServerStuck(t) && t.fwd == [] && |t.unread| == |s.unread| - 1 && Same(s, t)
  {
    ReachesSelf(SingleStep, s);
    t := Go(SingleStep, s, s, Sender(1));
    t := Go(SingleStep, s, t, Sender(1));
    t := Go(SingleStep, s, t, Server(1));
  }

  lemma {:induction false} FillForward(s: State) returns (t: State)
    requires ServerStuck(s) && |s.fwd| <= s.capForward && |s.unread| >= s.capForward - |s.fwd|
    ensures Reaches(SingleStep, s, t) && ServerStuck(t) && |t.fwd| == t.capForward && Same(s, t)
    ensures |t.unread| == |s.unread| - (s.capForward - |s.fwd|)
    decreases s.capForward - |s.fwd|
  {
    ReachesSelf(SingleStep, s);
    t := s;
    if |s.fwd| < s.capForward {
      var u := Go(SingleStep, s, s, Sender(1));
      u := Go(SingleStep, s, u, Sender(1));
      t := FillForward(u);
      ReachesThrough(SingleStep, s, u, t);
    }
  }

  lemma LongInputDeadlocks(input: Bytes, capForward: nat, capReturn: nat, bufSize: nat) returns (s: State)
    requires capForward > 0 && capReturn > 0 && bufSize > 0 && |input| >= capForward + capReturn + 2
    ensures Reaches(SingleStep, Init(input, capForward, capReturn, bufSize), s) && Deadlocked(s)
  {
    var s0 := Init(input, capForward, capReturn, bufSize);
    var a := FillReturn(s0);
    var b := BlockServer(a);
    var c := FillForward(b);
    ReachesSelf(SingleStep, c);
    s := Go(SingleStep, c, c, Sender(1));
    ReachesThrough(SingleStep, b, c, s);
    ReachesThrough(SingleStep, a, b, s);
    ReachesThrough(SingleStep, s0, a, s);
  }

  /**
   Sending everything first can deadlock exactly when the input has two bytes more
   than the two channels hold together; with two processes it never does.
   */
  lemma SendingFirstDeadlocksIff(input: Bytes, capForward: nat, capReturn: nat, bufSize: nat)
    requires capForward > 0 && capReturn > 0 && bufSize > 0
    ensures (exists s :: Reaches(SingleStep, Init(input, capForward, capReturn, bufSize), s) && Deadlocked(s))
            <==> |input| >= capForward + capReturn + 2
  {
    var s0 := Init(input, capForward, capReturn, bufSize);
    InvInit(input, capForward, capReturn, bufSize);
    if |input| >= capForward + capReturn + 2 {
      var s := LongInputDeadlocks(input, capForward, capReturn, bufSize);
    }
    forall s | Reaches(SingleStep, s0, s) && Deadlocked(s)
      ensures |input| >= capForward + capReturn + 2
    {
      ReachableInv(s0, s);
      DeadlockIsFull(s);
    }
  }
}
