/**
 The consumer that is told of messages by a new thread for each notification.
 Every thread registers again, drains the queue and ends; any number of them
 can be at work at the same time.
 */
module NotifyByThread {
  import opened Runs
  import opened Sums
  import opened MessageQueue

  datatype ThreadPc = TRegister | TDrain | TDone | TFailed

  datatype State = State(
    q: Queue,
    started: bool,          // the main thread has registered, and is in pause()
    emptyAtFirst: bool,     // the queue was empty at that registration
    threads: seq<ThreadPc>  // one entry for each notification so far
  )

  datatype Move =
    | Offer(m: Message)           // some process calls mq_send()
    | Unblock(m: Message)         // a blocked sender's message gets in
    | Start                       // the first mq_notify()
    | Thread(i: nat, m: Message)  // thread `i` acts; `m` is what mq_receive() returns

  function Init(cap: nat): State
  {
    State(Empty(cap), false, false, [])
  }

  /** An arrival that uses the registration up starts a thread. */
  function Spawn(s: State, fires: bool): seq<ThreadPc>
  {
    if fires then s.threads + [TRegister] else s.threads
  }

  function Step(s: State, m: Move): Option<State>
  {
    match m
    case Offer(a) => Some(s.(q := Send(s.q, a), threads := Spawn(s, !Full(s.q) && Fires(s.q))))
    case Unblock(a) =>
      if a in s.q.waiting && !Full(s.q) then
        Some(s.(q := Admit(s.q, a), threads := Spawn(s, Fires(s.q))))
      else None
    case Start =>
      if s.started then None
      else Some(s.(q := s.q.(armed := true), started := true, emptyAtFirst := s.q.held == multiset{}))
    case Thread(i, a) => if i < |s.threads| then ThreadStep(s, i, a) else None
  }

  function ThreadStep(s: State, i: nat, a: Message): Option<State>
    requires i < |s.threads|
  {
    match s.threads[i]
    case TRegister =>
      if s.q.armed then Some(s.(threads := s.threads[i := TFailed]))
      else Some(s.(q := s.q.(armed := true), threads := s.threads[i := TDrain]))
    case TDrain =>
      if a in s.q.held then Some(s.(q := Receive(s.q, a)))
      else if s.q.held == multiset{} then Some(s.(threads := s.threads[i := TDone]))
      else None
    case TDone => None
    case TFailed => None
  }

  ghost predicate Reachable(cap: nat, s: State)
  {
    Reaches(Step, Init(cap), s)
  }

  function Registering(p: ThreadPc): nat
  {
    if p.TRegister? then 1 else 0
  }

  function AtWork(p: ThreadPc): nat
  {
    if p.TRegister? then 2 else if p.TDrain? then 1 else 0
  }

  ghost predicate Inv(s: State)
  {
    && s.q.cap > 0 && Conserved(s.q)
    && (forall i :: 0 <= i < |s.threads| ==> !s.threads[i].TFailed?)
    && (!s.started ==> s.threads == [] && !s.q.armed && s.q.got == multiset{})
    && (s.started ==> Sum(Registering, s.threads) + (if s.q.armed then 1 else 0) == 1)
    && (s.started && s.emptyAtFirst ==> s.q.held == multiset{} || Sum(AtWork, s.threads) > 0)
    && (s.started && !s.emptyAtFirst ==> s.threads == [] && s.q.held != multiset{} && s.q.got == multiset{})
  }

  lemma InvArrival(s: State, m: Move)
    requires Inv(s) && (m.Offer? || m.Unblock?) && Step(s, m).Some?
    ensures Inv(Step(s, m).value)
  {
    if m.Offer? {
      SendConserves(s.q, m.m);
    } else {
      AdmitConserves(s.q, m.m);
    }
    SumAppend(Registering, s.threads, TRegister);
    SumAppend(AtWork, s.threads, TRegister);
    if s.started && !s.q.armed {
      var i := SumPositive(Registering, s.threads);
      SumAtLeast(AtWork, s.threads, i);
    }
  }

  lemma InvThread(s: State, i: nat, a: Message)
    requires Inv(s) && i < |s.threads| && ThreadStep(s, i, a).Some?
    ensures Inv(ThreadStep(s, i, a).value)
  {
    var t := ThreadStep(s, i, a).value;
    if s.threads[i].TDrain? && a in s.q.held {
      ReceiveConserves(s.q, a);
    }
    SumAtLeast(Registering, s.threads, i);
    SumUpdate(Registering, s.threads, i, t.threads[i]);
    SumUpdate(AtWork, s.threads, i, t.threads[i]);
    SumAtLeast(AtWork, t.threads, i);
    assert t.threads == s.threads[i := t.threads[i]];
  }

  lemma InvStep(s: State, m: Move)
    requires Inv(s) && Step(s, m).Some?
    ensures Inv(Step(s, m).value)
  {
    match m
    case Offer(_) => InvArrival(s, m);
    case Unblock(_) => InvArrival(s, m);
    case Start => assert Sum(Registering, s.threads) == 0;
    case Thread(i, a) => InvThread(s, i, a);
  }

  lemma ReachableInv(cap: nat, s: State)
    requires cap > 0 && Reachable(cap, s)
    ensures Inv(s)
  {
    forall s, m | Inv(s) && Step(s, m).Some?
      ensures Inv(Step(s, m).value)
    {
      InvStep(s, m);
    }
    var ms :| Run(Step, Init(cap), ms) == Some(s);
    InvariantHolds(Step, (m: Move) => true, Inv, Init(cap), ms);
  }

  ghost predicate AllReturned(s: State)
  {
    forall i :: 0 <= i < |s.threads| ==> s.threads[i].TDone?
  }

  /** No thread's registration ever fails, and at most one thread is about to register. */
  lemma ReregistrationSucceeds(cap: nat, s: State, i: nat, j: nat)
    requires cap > 0 && Reachable(cap, s)
    requires i < |s.threads| && j < |s.threads| && s.threads[i].TRegister?
    ensures !s.q.armed && (s.threads[j].TRegister? ==> i == j) && !s.threads[j].TFailed?
  {
    ReachableInv(cap, s);
    SumAtLeast(Registering, s.threads, i);
    if i != j && s.threads[j].TRegister? {
      SumUpdate(Registering, s.threads, i, TDone);
      SumAtLeast(Registering, s.threads[i := TDone], j);
    }
  }

  /** A message in the queue has a thread that is still to register or still draining. */
  lemma QueuedMessageHasThread(cap: nat, s: State) returns (i: nat)
    requires cap > 0 && Reachable(cap, s) && s.started && s.emptyAtFirst && s.q.held != multiset{}
    ensures i < |s.threads| && (s.threads[i].TRegister? || s.threads[i].TDrain?)
  {
    ReachableInv(cap, s);
    i := SumPositive(AtWork, s.threads);
  }

  /**
   When all threads have returned, the queue is empty and each message that got in
   was received exactly once: exactly if the queue was empty at the first registration.
   */
  lemma NothingLeftIffEmptyAtFirst(cap: nat, s: State)
    requires cap > 0 && Reachable(cap, s) && s.started && AllReturned(s)
    ensures s.q.held == multiset{} <==> s.emptyAtFirst
    ensures s.emptyAtFirst ==> s.q.got + s.q.waiting == s.q.sent
  {
    ReachableInv(cap, s);
    if s.emptyAtFirst && s.q.held != multiset{} {
      var i := QueuedMessageHasThread(cap, s);
    }
  }

  /** Both cases happen: a message before the first registration stays, for every capacity. */
  lemma EarlyMessageStays(cap: nat, a: Message) returns (s: State)
    requires cap > 0
    ensures Reachable(cap, s) && s.started && !s.emptyAtFirst
    ensures AllReturned(s) && a in s.q.held
  {
    var s0 := Init(cap);
    ReachesSelf(Step, s0);
    s := Go(Step, s0, s0, Offer(a));
    assert a in s.q.held;
    s := Go(Step, s0, s, Start);
  }

  // ---- Delivery

  predicate Internal(m: Move)
  {
    m.Unblock? || m.Thread?
  }

  function Measure(s: State): nat
  {
    4 * |s.q.waiting| + |s.q.held| + Sum(AtWork, s.threads)
  }

  lemma MeasureDecreases(s: State, m: Move)
    requires Inv(s) && Internal(m) && Step(s, m).Some?
    ensures Measure(Step(s, m).value) < Measure(s)
  {
    var t := Step(s, m).value;
    if m.Unblock? {
      AdmitSizes(s.q, m.m);
      SumAppend(AtWork, s.threads, TRegister);
    } else {
      SumAtLeast(Registering, s.threads, m.i);
      SumUpdate(AtWork, s.threads, m.i, t.threads[m.i]);
      if s.threads[m.i].TDrain? && m.m in s.q.held {
        ReceiveSizes(s.q, m.m);
      } else {
        assert t.threads == s.threads[m.i := t.threads[m.i]];
      }
    }
  }

  lemma WorkLeft(t: State) returns (m: Move)
    requires Inv(t) && t.started && t.emptyAtFirst && t.q.got != t.q.sent
    ensures Internal(m) && Step(t, m).Some?
  {
    if t.q.held != multiset{} {
      var i := SumPositive(AtWork, t.threads);
      var a :| a in t.q.held;
      m := Thread(i, a);
    } else {
      assert t.q.waiting != multiset{};
      var a :| a in t.q.waiting;
      m := Unblock(a);
    }
  }

  /** The first registration found the queue empty, and these are the messages sent. */
  ghost predicate Delivering(sent: multiset<Message>, s: State)
  {
    Inv(s) && s.q.sent == sent && s.started && s.emptyAtFirst
  }

  lemma DeliveringStep(sent: multiset<Message>, s: State, m: Move)
    requires Delivering(sent, s) && Internal(m) && Step(s, m).Some?
    ensures Delivering(sent, Step(s, m).value) && Measure(Step(s, m).value) < Measure(s)
  {
    InvStep(s, m);
    MeasureDecreases(s, m);
  }

  lemma DeliveringIsGood(sent: multiset<Message>)
    ensures Preserved(Step, Internal, (s: State) => Delivering(sent, s))
    ensures Decreases(Step, Internal, (s: State) => Delivering(sent, s), Measure)
  {
    forall s, m | Delivering(sent, s) && Internal(m) && Step(s, m).Some?
      ensures Delivering(sent, Step(s, m).value) && Measure(Step(s, m).value) < Measure(s)
    {
      DeliveringStep(sent, s, m);
    }
  }

  /** When nobody sends any more, the threads finish, having received exactly what was sent. */
  lemma EverythingIsDelivered(cap: nat, s: State, ms: seq<Move>)
    requires cap > 0 && Reachable(cap, s) && s.started && s.emptyAtFirst
    requires All(Internal, ms) && Run(Step, s, ms).Some?
    ensures |ms| <= Measure(s)
    ensures var t := Run(Step, s, ms).value;
            (forall m :: Internal(m) ==> Step(t, m).None?) ==> t.q.got == t.q.sent == s.q.sent
  {
    ReachableInv(cap, s);
    var sent := s.q.sent;
    DeliveringIsGood(sent);
    RunIsBounded(Step, Internal, (t: State) => Delivering(sent, t), Measure, s, ms);
    InvariantHolds(Step, Internal, (t: State) => Delivering(sent, t), s, ms);
    var t := Run(Step, s, ms).value;
    if forall m :: Internal(m) ==> Step(t, m).None? {
      if t.q.got != t.q.sent {
        var m := WorkLeft(t);
        assert false;
      }
    }
  }

  // ---- The program

  /** thread_func, as the thread with number `i`, among senders and other threads, who pause in the end. */
  method ThreadFunc(w: World<State, Move>, i: nat)
    requires w.Valid() && w.step == Step && Inv(w.s) && i < |w.s.threads| && w.s.threads[i].TRegister?
    modifies w
    ensures w.Valid() && Inv(w.s) && i < |w.s.threads| && w.s.threads[i].TDone?
    ensures w.s.q.held == multiset{}
  {
    Others(w, i);
    Act(w, i, []);            // mq_notify()
    Others(w, i);
    var budget: nat := *;     // how long the others keep adding messages
    while w.s.q.held != multiset{}
      invariant w.Valid() && w.step == Step && Inv(w.s) && i < |w.s.threads| && w.s.threads[i].TDrain?
      decreases budget, |w.s.q.held|
    {
      var m :| m in w.s.q.held;
      assert |w.s.q.held - multiset{m}| == |w.s.q.held| - 1;
      Act(w, i, m);           // mq_receive()
      if budget > 0 {
        Others(w, i);
        budget := budget - 1;
      }
    }
    Act(w, i, []);            // mq_receive() fails with EAGAIN
  }

  /** One action of thread `i`; it cannot find a registration in force. */
  method Act(w: World<State, Move>, i: nat, m: Message)
    requires w.Valid() && w.step == Step && Inv(w.s)
    requires i < |w.s.threads| && ThreadStep(w.s, i, m).Some?
    modifies w
    ensures w.Valid() && Inv(w.s) && w.s == ThreadStep(old(w.s), i, m).value
    ensures old(w.s.threads[i]).TRegister? ==> w.s.threads[i].TDrain?
  {
    InvStep(w.s, Thread(i, m));
    w.Do(Thread(i, m));
  }

  predicate OfOther(i: nat, m: Move)
  {
    !m.Thread? || m.i != i
  }

  ghost predicate KeptFor(i: nat, pc: ThreadPc, s: State)
  {
    Inv(s) && i < |s.threads| && s.threads[i] == pc
  }

  lemma OtherStep(i: nat, pc: ThreadPc, s: State, m: Move)
    requires KeptFor(i, pc, s) && OfOther(i, m) && Step(s, m).Some?
    ensures KeptFor(i, pc, Step(s, m).value)
  {
    InvStep(s, m);
  }

  /** Everybody but thread `i` runs for a while. */
  method Others(w: World<State, Move>, i: nat)
    requires w.Valid() && w.step == Step && Inv(w.s) && i < |w.s.threads|
    modifies w
    ensures w.Valid() && Inv(w.s) && i < |w.s.threads| && w.s.threads[i] == old(w.s.threads[i])
  {
    ghost var pc := w.s.threads[i];
    forall s, m | KeptFor(i, pc, s) && OfOther(i, m) && Step(s, m).Some?
      ensures KeptFor(i, pc, Step(s, m).value)
    {
      OtherStep(i, pc, s, m);
    }
    w.Interfere((m: Move) => OfOther(i, m), (s: State) => KeptFor(i, pc, s));
  }
}
