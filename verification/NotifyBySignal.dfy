/**
 The consumer that is told of messages by a signal.  It keeps the signal blocked
 except while suspended, and on each wake-up registers again before it drains
 the queue.  Senders are any number of other processes.
 */
module NotifyBySignal {
  import opened Runs
  import opened MessageQueue

  datatype ConsumerPc =
    | CFirst      // the registration before the loop
    | CSuspend    // sigsuspend()
    | CRegister   // mq_notify() in the loop
    | CDrain      // mq_receive() until EAGAIN
    | CFailed     // mq_notify() returned an error

  /** The program registers first; the other order is here for comparison. */
  datatype Order = RegisterThenDrain | DrainThenRegister

  datatype State = State(
    q: Queue,
    pending: bool,        // the signal is pending
    cpc: ConsumerPc,
    order: Order,
    emptyAtFirst: bool    // the queue was empty at the first registration
  )

  datatype Move =
    | Offer(m: Message)     // some process calls mq_send()
    | Unblock(m: Message)   // a blocked sender's message gets in
    | Consumer(m: Message)  // the consumer's next action; `m` is what mq_receive() returns

  /** The queue may hold messages, and senders may be active, before the consumer starts. */
  function Init(cap: nat, order: Order): State
  {
    State(Empty(cap), false, CFirst, order, false)
  }

  function Step(s: State, m: Move): Option<State>
  {
    match m
    case Offer(a) => Some(s.(q := Send(s.q, a), pending := s.pending || (!Full(s.q) && Fires(s.q))))
    case Unblock(a) =>
      if a in s.q.waiting && !Full(s.q) then
        Some(s.(q := Admit(s.q, a), pending := s.pending || Fires(s.q)))
      else None
    case Consumer(a) => ConsumerStep(s, a)
  }

  function ConsumerStep(s: State, a: Message): Option<State>
  {
    match s.cpc
    case CFirst => Register(s.(emptyAtFirst := s.q.held == multiset{}), CSuspend)
    case CSuspend =>
      if s.pending then
        Some(s.(pending := false, cpc := if s.order.RegisterThenDrain? then CRegister else CDrain))
      else None
    case CRegister => Register(s, if s.order.RegisterThenDrain? then CDrain else CSuspend)
    case CDrain =>
      if a in s.q.held then Some(s.(q := Receive(s.q, a)))
      else if s.q.held == multiset{} then
        Some(s.(cpc := if s.order.RegisterThenDrain? then CSuspend else CRegister))
      else None
    case CFailed => None
  }

  /** mq_notify() fails with EBUSY when a registration is already in force. */
  function Register(s: State, next: ConsumerPc): Option<State>
  {
    if s.q.armed then Some(s.(cpc := CFailed))
    else Some(s.(q := s.q.(armed := true), cpc := next))
  }

  ghost predicate Reachable(cap: nat, order: Order, s: State)
  {
    Reaches(Step, Init(cap, order), s)
  }

  /** Messages wait while the consumer sleeps and nothing is on its way to wake it. */
  predicate Stranded(s: State)
  {
    s.cpc.CSuspend? && !s.pending && s.q.held != multiset{}
  }

  /** The three places the right to a notification can be in. */
  function Claims(s: State): nat
  {
    (if s.q.armed then 1 else 0) + (if s.pending then 1 else 0) + (if s.cpc.CRegister? then 1 else 0)
  }

  /** Where the right to a notification is, and what that means for the queue. */
  ghost predicate Watched(s: State)
  {
    && s.q.cap > 0 && s.order.RegisterThenDrain? && !s.cpc.CFailed?
    && (s.cpc.CFirst? ==> Claims(s) == 0 && s.q.got == multiset{})
    && (!s.cpc.CFirst? ==> Claims(s) == 1)
    && (!s.cpc.CFirst? && s.emptyAtFirst ==> s.q.held == multiset{} || s.pending || s.cpc.CRegister? || s.cpc.CDrain?)
    && (!s.cpc.CFirst? && !s.emptyAtFirst ==> Stranded(s) && s.q.got == multiset{})
  }

  ghost predicate Inv(s: State)
  {
    Watched(s) && Conserved(s.q)
  }

  lemma WatchedAfterArrival(s: State, m: Move)
    requires Watched(s) && !m.Consumer? && Step(s, m).Some?
    ensures Watched(Step(s, m).value)
  {
    assert m.m in Step(s, m).value.q.held || Step(s, m).value.q.held == s.q.held;
  }

  lemma WatchedAfterConsumer(s: State, a: Message)
    requires Watched(s) && ConsumerStep(s, a).Some?
    ensures Watched(ConsumerStep(s, a).value)
  {
  }

  lemma ConservedOffer(s: State, a: Message)
    requires s.q.cap > 0 && Conserved(s.q)
    ensures Conserved(Step(s, Offer(a)).value.q)
  {
    SendConserves(s.q, a);
  }

  lemma ConservedUnblock(s: State, a: Message)
    requires Conserved(s.q) && Step(s, Unblock(a)).Some?
    ensures Conserved(Step(s, Unblock(a)).value.q)
  {
    AdmitConserves(s.q, a);
  }

  lemma ConservedConsumer(s: State, a: Message)
    requires Conserved(s.q) && ConsumerStep(s, a).Some?
    ensures Conserved(ConsumerStep(s, a).value.q)
  {
    if s.cpc.CDrain? && a in s.q.held {
      ReceiveConserves(s.q, a);
    }
  }

  lemma ConservedStep(s: State, m: Move)
    requires s.q.cap > 0 && Conserved(s.q) && Step(s, m).Some?
    ensures Conserved(Step(s, m).value.q)
  {
    match m
    case Offer(a) => ConservedOffer(s, a);
    case Unblock(a) => ConservedUnblock(s, a);
    case Consumer(a) => ConservedConsumer(s, a);
  }

  lemma InvStep(s: State, m: Move)
    requires Inv(s) && Step(s, m).Some?
    ensures Inv(Step(s, m).value)
  {
    ConservedStep(s, m);
    if m.Consumer? {
      WatchedAfterConsumer(s, m.m);
    } else {
      WatchedAfterArrival(s, m);
    }
  }

  lemma ReachableInv(cap: nat, s: State)
    requires cap > 0 && Reachable(cap, RegisterThenDrain, s)
    ensures Inv(s)
  {
    forall s, m | Inv(s) && Step(s, m).Some?
      ensures Inv(Step(s, m).value)
    {
      InvStep(s, m);
    }
    var ms :| Run(Step, Init(cap, RegisterThenDrain), ms) == Some(s);
    InvariantHolds(Step, (m: Move) => true, Inv, Init(cap, RegisterThenDrain), ms);
  }

  /** The right to one notification is never lost or doubled, so re-registering never fails. */
  lemma ReregistrationSucceeds(cap: nat, s: State)
    requires cap > 0 && Reachable(cap, RegisterThenDrain, s)
    ensures !s.cpc.CFailed? && (s.cpc.CFirst? || s.cpc.CRegister? ==> !s.q.armed && !s.pending)
    ensures !s.cpc.CFirst? ==> Claims(s) == 1
  {
    ReachableInv(cap, s);
  }

  /**
   Messages are stranded in a state exactly when the queue was not empty at the
   first registration: then from there on always, and otherwise never.
   */
  lemma StrandedIffNotEmptyAtFirst(cap: nat, s: State)
    requires cap > 0 && Reachable(cap, RegisterThenDrain, s) && !s.cpc.CFirst?
    ensures Stranded(s) <==> !s.emptyAtFirst
  {
    ReachableInv(cap, s);
  }

  /** Both cases happen: one message before the first registration strands, for every capacity. */
  lemma EarlyMessageStrands(cap: nat, a: Message) returns (s: State)
    requires cap > 0
    ensures Reachable(cap, RegisterThenDrain, s) && !s.cpc.CFirst? && !s.emptyAtFirst
    ensures Stranded(s) && a in s.q.held
  {
    var s0 := Init(cap, RegisterThenDrain);
    ReachesSelf(Step, s0);
    s := Go(Step, s0, s0, Offer(a));
    assert a in s.q.held;
    s := Go(Step, s0, s, Consumer(a));
  }

  /** A sender is blocked on a full queue only while the consumer is awake or about to be. */
  lemma BlockedSenderHasAwakeConsumer(cap: nat, s: State)
    requires cap > 0 && Reachable(cap, RegisterThenDrain, s) && !s.cpc.CFirst? && s.emptyAtFirst
    requires s.q.waiting != multiset{} && Full(s.q)
    ensures s.pending || s.cpc.CRegister? || s.cpc.CDrain?
  {
    ReachableInv(cap, s);
  }

  // ---- What a wake-up does

  /** sigsuspend() returns. */
  predicate WakesUp(s: State, m: Move)
  {
    s.cpc.CSuspend? && Step(s, m).Some? && !Step(s, m).value.cpc.CSuspend?
  }

  /** The messages `held` are in the queue or received, and all received by the time of the next sigsuspend(). */
  predicate Collecting(held: multiset<Message>, s: State)
  {
    && s.order.RegisterThenDrain?
    && held <= s.q.held + s.q.got && (s.cpc.CSuspend? || s.cpc.CFailed? || s.cpc.CFirst? ==> held <= s.q.got)
  }

  lemma CollectingStep(held: multiset<Message>, s: State, m: Move)
    requires Collecting(held, s) && Watched(s) && Step(s, m).Some?
    ensures Collecting(held, Step(s, m).value)
  {
    if m.Consumer? && s.cpc.CDrain? && m.m in s.q.held {
      var q := Step(s, m).value.q;
      assert s.q.held + s.q.got == q.held + q.got;
    }
  }

  /** Whatever a wake-up finds in the queue has been received when the consumer suspends itself again. */
  lemma WakeUpCollects(cap: nat, s: State, m: Move, ms: seq<Move>)
    requires cap > 0 && Reachable(cap, RegisterThenDrain, s) && WakesUp(s, m)
    requires Run(Step, Step(s, m).value, ms).Some? && Run(Step, Step(s, m).value, ms).value.cpc.CSuspend?
    ensures s.q.held <= Run(Step, Step(s, m).value, ms).value.q.got
  {
    ReachableInv(cap, s);
    CollectsFrom(s, m, ms);
  }

  lemma CollectsFrom(s: State, m: Move, ms: seq<Move>)
    requires Inv(s) && WakesUp(s, m)
    requires Run(Step, Step(s, m).value, ms).Some? && Run(Step, Step(s, m).value, ms).value.cpc.CSuspend?
    ensures s.q.held <= Run(Step, Step(s, m).value, ms).value.q.got
  {
    var held := s.q.held;
    InvStep(s, m);
    forall t, a | Inv(t) && Collecting(held, t) && Step(t, a).Some?
      ensures Inv(Step(t, a).value) && Collecting(held, Step(t, a).value)
    {
      InvStep(t, a);
      CollectingStep(held, t, a);
    }
    InvariantHolds(Step, (a: Move) => true, (t: State) => Inv(t) && Collecting(held, t), Step(s, m).value, ms);
  }

  // ---- Delivery

  /** Every move but a new call of mq_send(). */
  predicate Internal(m: Move)
  {
    !m.Offer?
  }

  function Measure(s: State): nat
  {
    5 * |s.q.waiting| + |s.q.held| + (if s.pending then 3 else 0) +
    match s.cpc
      case CFirst => 1
      case CSuspend => 0
      case CRegister => 2
      case CDrain => 1
      case CFailed => 0
  }

  lemma MeasureDecreases(s: State, m: Move)
    requires !s.cpc.CFailed? && s.order.RegisterThenDrain? && !s.cpc.CFirst? && (s.cpc.CRegister? ==> !s.q.armed)
    requires Internal(m) && Step(s, m).Some?
    ensures Measure(Step(s, m).value) < Measure(s)
  {
    if m.Unblock? {
      AdmitSizes(s.q, m.m);
    } else if s.cpc.CDrain? && m.m in s.q.held {
      ReceiveSizes(s.q, m.m);
    }
  }

  /** The consumer has started on an empty queue, and these are the messages sent. */
  ghost predicate Delivering(sent: multiset<Message>, s: State)
  {
    Inv(s) && s.q.sent == sent && !s.cpc.CFirst? && s.emptyAtFirst
  }

  lemma DeliveringStep(sent: multiset<Message>, s: State, m: Move)
    requires Delivering(sent, s) && Internal(m) && Step(s, m).Some?
    ensures Delivering(sent, Step(s, m).value) && Measure(Step(s, m).value) < Measure(s)
  {
    InvStep(s, m);
    MeasureDecreases(s, m);
  }

  lemma DeliveringIsGood(sent: multiset<Message>)
    ensures Preserved(Step, Internal, (s: State) => Delivering(sent, s))
    ensures Decreases(Step, Internal, (s: State) => Delivering(sent, s), Measure)
  {
    forall s, m | Delivering(sent, s) && Internal(m) && Step(s, m).Some?
      ensures Delivering(sent, Step(s, m).value) && Measure(Step(s, m).value) < Measure(s)
    {
      DeliveringStep(sent, s, m);
    }
  }

  /**
   When nobody sends any more, the system comes to rest, and at rest every message
   that was ever sent has been received, exactly as many times as it was sent.
   */
  lemma EverythingIsDelivered(cap: nat, s: State, ms: seq<Move>)
    requires cap > 0 && Reachable(cap, RegisterThenDrain, s) && !s.cpc.CFirst? && s.emptyAtFirst
    requires All(Internal, ms) && Run(Step, s, ms).Some?
    ensures |ms| <= Measure(s)
    ensures var t := Run(Step, s, ms).value;
            (forall m :: Internal(m) ==> Step(t, m).None?) ==> t.q.got == t.q.sent == s.q.sent
  {
    ReachableInv(cap, s);
    var sent := s.q.sent;
    DeliveringIsGood(sent);
    RunIsBounded(Step, Internal, (t: State) => Delivering(sent, t), Measure, s, ms);
    InvariantHolds(Step, Internal, (t: State) => Delivering(sent, t), s, ms);
    var t := Run(Step, s, ms).value;
    if forall m :: Internal(m) ==> Step(t, m).None? {
      if t.q.got != t.q.sent {
        var m := WorkLeft(t);
        assert false;
      }
    }
  }

  /** While something sent has not been received, somebody other than a new sender can move. */
  lemma WorkLeft(t: State) returns (m: Move)
    requires Inv(t) && !t.cpc.CFirst? && t.emptyAtFirst && t.q.got != t.q.sent
    ensures Internal(m) && Step(t, m).Some?
  {
    if t.q.held != multiset{} {
      var a :| a in t.q.held;
      m := Consumer(a);
    } else {
      assert t.q.waiting != multiset{};
      var a :| a in t.q.waiting;
      m := Unblock(a);
    }
  }

  // ---- The other order

  /** Draining before registering strands a message that arrives in between. */
  lemma DrainingFirstStrands(cap: nat) returns (s: State)
    requires cap > 0
    ensures Reachable(cap, DrainThenRegister, s) && s.emptyAtFirst && Stranded(s)
  {
    var a: Message := [];
    var s0 := Init(cap, DrainThenRegister);
    ReachesSelf(Step, s0);
    s := Go(Step, s0, s0, Consumer(a));
    s := Go(Step, s0, s, Offer(a));
    s := Go(Step, s0, s, Consumer(a));
    s := Go(Step, s0, s, Consumer(a));
    assert s.q.held == multiset{};
    var t := LateArrival(s, a);
    ReachesThrough(Step, s0, s, t);
    s := t;
  }

  /** From the end of a drain: the last EAGAIN, a message, and only then the registration. */
  lemma LateArrival(s: State, a: Message) returns (t: State)
    requires s.order.DrainThenRegister? && s.cpc.CDrain? && !s.q.armed && !s.pending
    requires s.q.held == multiset{} && s.q.cap > 0
    ensures Reaches(Step, s, t) && Stranded(t) && t.emptyAtFirst == s.emptyAtFirst
  {
    ReachesSelf(Step, s);
    t := Go(Step, s, s, Consumer(a));
    t := Go(Step, s, t, Offer(a));
    assert a in t.q.held;
    t := Go(Step, s, t, Consumer(a));
  }

  /** With an empty queue at the start, the program's order is the one that strands nothing. */
  lemma OnlyRegisteringFirstIsSafe(cap: nat, order: Order)
    requires cap > 0
    ensures (forall s :: Reachable(cap, order, s) && !s.cpc.CFirst? && s.emptyAtFirst ==> !Stranded(s))
            <==> order == RegisterThenDrain
  {
    if order == RegisterThenDrain {
      forall s | Reachable(cap, order, s) && !s.cpc.CFirst? && s.emptyAtFirst
        ensures !Stranded(s)
      {
        StrandedIffNotEmptyAtFirst(cap, s);
      }
    } else {
      var s := DrainingFirstStrands(cap);
    }
  }

  // ---- The program

  /** How often the consumer has been woken up so far. */
  ghost function Wakes(w: World<State, Move>): nat
    reads w
  {
    Count(Step, WakesUp, w.start, w.trace)
  }

  lemma {:induction false} SendersWakeNobody(s: State, ms: seq<Move>)
    requires All(Sender, ms)
    ensures Count(Step, WakesUp, s, ms) == 0
    decreases ms
  {
    if ms != [] && Step(s, ms[0]).Some? {
      assert Sender(ms[0]);
      SendersWakeNobody(Step(s, ms[0]).value, ms[1..]);
    }
  }

  /** Every message that a wake-up during the moves `ms` found in the queue has been received. */
  ghost predicate AllCollected(s: State, ms: seq<Move>, got: multiset<Message>)
  {
    forall k :: 0 <= k < |ms| && Run(Step, s, ms[..k]).Some? && WakesUp(Run(Step, s, ms[..k]).value, ms[k]) ==>
                  Run(Step, s, ms[..k]).value.q.held <= got
  }

  lemma CollectedBetween(s: State, ms: seq<Move>)
    requires Inv(s) && Run(Step, s, ms).Some? && Run(Step, s, ms).value.cpc.CSuspend?
    ensures AllCollected(s, ms, Run(Step, s, ms).value.q.got)
  {
    forall t, m | Inv(t) && Step(t, m).Some?
      ensures Inv(Step(t, m).value)
    {
      InvStep(t, m);
    }
    forall k | 0 <= k < |ms| && Run(Step, s, ms[..k]).Some? && WakesUp(Run(Step, s, ms[..k]).value, ms[k])
      ensures Run(Step, s, ms[..k]).value.q.held <= Run(Step, s, ms).value.q.got
    {
      InvariantHolds(Step, (m: Move) => true, Inv, s, ms[..k]);
      Since(Step, WakesUp, s, ms[..k], ms);
      CollectsFrom(Run(Step, s, ms[..k]).value, ms[k], ms[k + 1..]);
    }
  }

  /**
   ipc_posix_mq_read_by_signal from line 175 on, for `rounds` wake-ups, or fewer if the
   signal stays away.  What each wake-up found in the queue has been received.
   */
  method ReadBySignal(w: World<State, Move>, cap: nat, rounds: nat)
    requires w.Valid() && w.step == Step && cap > 0 && w.s == Init(cap, RegisterThenDrain)
    modifies w
    ensures w.Valid() && Inv(w.s) && w.s.cpc.CSuspend?
    ensures Stranded(w.s) <==> !w.s.emptyAtFirst
    ensures Wakes(w) <= old(Wakes(w)) + rounds
    ensures w.s.pending ==> Wakes(w) == old(Wakes(w)) + rounds
    ensures old(w.trace) <= w.trace && AllCollected(old(w.s), w.trace[|old(w.trace)|..], w.s.q.got)
  {
    Others(w);
    Act(w, []);         // mq_notify(), the first time
    var i := 0;
    while i < rounds
      invariant w.Valid() && w.step == Step && Inv(w.s) && w.s.cpc.CSuspend? && old(w.trace) <= w.trace
      invariant i <= rounds && Wakes(w) == old(Wakes(w)) + i
    {
      Others(w);
      if !w.s.pending {
        break;          // still suspended
      }
      WakeUp(w);
      i := i + 1;
    }
    Since(Step, WakesUp, w.start, old(w.trace), w.trace);
    CollectedBetween(old(w.s), w.trace[|old(w.trace)|..]);
  }

  /** The body of the loop, from the return of sigsuspend() to its next call. */
  method WakeUp(w: World<State, Move>)
    requires w.Valid() && w.step == Step && Inv(w.s) && w.s.cpc.CSuspend? && w.s.pending
    modifies w
    ensures w.Valid() && Inv(w.s) && w.s.cpc.CSuspend? && w.s.q.held == multiset{}
    ensures old(w.trace) <= w.trace && Wakes(w) == old(Wakes(w)) + 1
  {
    Act(w, []);         // sigsuspend() returns
    Others(w);
    Act(w, []);         // mq_notify()
    Drain(w);
  }

  /** The inner loop: receive until the queue is empty.  Senders may add to it meanwhile, but not for ever. */
  method Drain(w: World<State, Move>)
    requires w.Valid() && w.step == Step && Inv(w.s) && w.s.cpc.CDrain?
    modifies w
    ensures w.Valid() && Inv(w.s) && w.s.cpc.CSuspend? && w.s.q.held == multiset{}
    ensures old(w.trace) <= w.trace && Wakes(w) == old(Wakes(w))
  {
    Others(w);
    var budget: nat := *;     // how long the senders keep up
    while w.s.q.held != multiset{}
      invariant w.Valid() && w.step == Step && Inv(w.s) && w.s.cpc.CDrain?
      invariant old(w.trace) <= w.trace && Wakes(w) == old(Wakes(w))
      decreases budget, |w.s.q.held|
    {
      var m :| m in w.s.q.held;
      assert |w.s.q.held - multiset{m}| == |w.s.q.held| - 1;
      Act(w, m);
      if budget > 0 {
        Others(w);
        budget := budget - 1;
      }
    }
    Act(w, []);
  }

  /** One action of the consumer. */
  method Act(w: World<State, Move>, m: Message)
    requires w.Valid() && w.step == Step && Inv(w.s) && ConsumerStep(w.s, m).Some?
    modifies w
    ensures w.Valid() && Inv(w.s) && w.s == ConsumerStep(old(w.s), m).value && old(w.trace) <= w.trace
    ensures Wakes(w) == old(Wakes(w)) + if old(w.s.cpc.CSuspend?) then 1 else 0
  {
    InvStep(w.s, Consumer(m));
    CountConcat(Step, WakesUp, w.start, w.trace, [Consumer(m)]);
    w.Do(Consumer(m));
  }

  predicate Sender(m: Move)
  {
    !m.Consumer?
  }

  /** The senders run for a while. */
  method Others(w: World<State, Move>)
    requires w.Valid() && w.step == Step && Inv(w.s)
    modifies w
    ensures w.Valid() && Inv(w.s) && w.s.cpc == old(w.s.cpc)
    ensures old(w.trace) <= w.trace && Wakes(w) == old(Wakes(w))
  {
    ghost var pc := w.s.cpc;
    ghost var keep := (s: State) => Inv(s) && s.cpc == pc;
    forall s, m | keep(s) && Sender(m) && Step(s, m).Some?
      ensures keep(Step(s, m).value)
    {
      InvStep(s, m);
    }
    w.Interfere(Sender, keep);
    Since(Step, WakesUp, w.start, old(w.trace), w.trace);
    SendersWakeNobody(old(w.s), w.trace[|old(w.trace)|..]);
  }
}
