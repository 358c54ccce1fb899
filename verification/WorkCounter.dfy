/**
 Producers add work under a mutex and signal a condition variable after they
 have released it; one consumer waits on it while there is no work.
 Any number of producers, any number of items each.
 */
module WorkCounter {
  import opened Runs
  import opened Sums

  datatype ProducerPc =
    | PLock     // the loop test and pthread_mutex_lock()
    | PAdd      // work++
    | PUnlock
    | PSignal   // pthread_cond_signal()
    | PDone

  datatype Producer = Producer(pc: ProducerPc, left: nat)   // and the items still to add

  datatype ConsumerPc =
    | CLock       // pthread_mutex_lock() before the loop
    | CTest       // while (work == 0)
    | CAsleep     // inside pthread_cond_wait(), not signalled
    | CReacquire  // inside pthread_cond_wait(), signalled
    | CConsume    // while (work > 0) work--

  datatype Owner = TheConsumer | TheProducer(i: nat)

  datatype State = State(
    producers: seq<Producer>,
    work: nat,
    produced: nat,
    consumed: nat,
    mutex: Option<Owner>,
    cpc: ConsumerPc,
    spurious: nat        // how often pthread_cond_wait() may still return without a signal
  )

  datatype Move = Consume | Produce(i: nat) | Spurious

  function Init(items: seq<nat>, spurious: nat): State
  {
    State(seq(|items|, i requires 0 <= i < |items| => Producer(PLock, items[i])), 0, 0, 0, None, CLock, spurious)
  }

  function Step(s: State, m: Move): Option<State>
  {
    match m
    case Consume => ConsumerStep(s)
    case Produce(i) => if i < |s.producers| then ProducerStep(s, i) else None
    case Spurious =>
      if s.cpc.CAsleep? && s.spurious > 0 then Some(s.(cpc := CReacquire, spurious := s.spurious - 1)) else None
  }

  function ConsumerStep(s: State): Option<State>
  {
    match s.cpc
    case CLock => if s.mutex.None? then Some(s.(mutex := Some(TheConsumer), cpc := CTest)) else None
    case CTest =>
      if s.work == 0 then Some(s.(mutex := None, cpc := CAsleep)) else Some(s.(cpc := CConsume))
    case CAsleep => None
    case CReacquire => if s.mutex.None? then Some(s.(mutex := Some(TheConsumer), cpc := CTest)) else None
    case CConsume =>
      if s.work > 0 then Some(s.(work := s.work - 1, consumed := s.consumed + 1)) else Some(s.(cpc := CTest))
  }

  function ProducerStep(s: State, i: nat): Option<State>
    requires i < |s.producers|
  {
    var p := s.producers[i];
    match p.pc
    case PLock =>
      if p.left == 0 then Some(Set(s, i, p.(pc := PDone)))
      else if s.mutex.None? then Some(Set(s.(mutex := Some(TheProducer(i))), i, p.(pc := PAdd)))
      else None
    case PAdd =>
      if p.left == 0 then None
      else Some(Set(s.(work := s.work + 1, produced := s.produced + 1), i, Producer(PUnlock, p.left - 1)))
    case PUnlock => Some(Set(s.(mutex := None), i, p.(pc := PSignal)))
    case PSignal =>
      Some(Set(s.(cpc := if s.cpc.CAsleep? then CReacquire else s.cpc), i, p.(pc := PLock)))
    case PDone => None
  }

  function Set(s: State, i: nat, p: Producer): State
    requires i < |s.producers|
  {
    s.(producers := s.producers[i := p])
  }

  /** With any number of spurious wake-ups. */
  ghost predicate Reachable(items: seq<nat>, s: State)
  {
    exists spurious :: Reaches(Step, Init(items, spurious), s)
  }

  function Left(p: Producer): nat
  {
    p.left
  }

  /** The producer has added work and not signalled since. */
  function OwesSignal(p: Producer): nat
  {
    if p.pc.PUnlock? || p.pc.PSignal? then 1 else 0
  }

  function Identity(n: nat): nat
  {
    n
  }

  predicate ProducerOk(s: State, i: nat)
    requires i < |s.producers|
  {
    var p := s.producers[i];
    && (p.pc.PAdd? || p.pc.PUnlock? <==> s.mutex == Some(TheProducer(i)))
    && (p.pc.PAdd? ==> p.left > 0)
    && (p.pc.PDone? ==> p.left == 0)
  }

  ghost predicate Inv(total: nat, s: State)
  {
    && (forall i :: 0 <= i < |s.producers| ==> ProducerOk(s, i))
    && (s.cpc.CTest? || s.cpc.CConsume? <==> s.mutex == Some(TheConsumer))
    && (s.mutex.Some? && s.mutex.value.TheProducer? ==> s.mutex.value.i < |s.producers|)
    && s.produced == s.consumed + s.work
    && s.produced + Sum(Left, s.producers) == total
    && (s.cpc.CAsleep? && s.work > 0 ==> Sum(OwesSignal, s.producers) > 0)
  }

  lemma {:induction false} InitTotals(items: seq<nat>, spurious: nat)
    ensures Sum(Left, Init(items, spurious).producers) == Sum(Identity, items)
    ensures Sum(Cost, Init(items, spurious).producers) == 9 * Sum(Identity, items) + |items|
  {
    if items != [] {
      assert Init(items, spurious).producers[1..] == Init(items[1..], spurious).producers;
      InitTotals(items[1..], spurious);
    }
  }

  lemma InvInit(items: seq<nat>, spurious: nat)
    ensures Inv(Sum(Identity, items), Init(items, spurious))
  {
    InitTotals(items, spurious);
  }

  lemma TotalsAfter(s: State, i: nat, p: Producer)
    requires i < |s.producers|
    ensures var t := s.producers[i := p];
            && Sum(Left, t) + s.producers[i].left == Sum(Left, s.producers) + p.left
            && Sum(OwesSignal, t) + OwesSignal(s.producers[i]) == Sum(OwesSignal, s.producers) + OwesSignal(p)
            && Sum(Cost, t) + Cost(s.producers[i]) == Sum(Cost, s.producers) + Cost(p)
            && Sum(OwesSignal, t) >= OwesSignal(p)
  {
    SumUpdate(Left, s.producers, i, p);
    SumUpdate(OwesSignal, s.producers, i, p);
    SumUpdate(Cost, s.producers, i, p);
    SumAtLeast(OwesSignal, s.producers[i := p], i);
  }

  lemma InvProducer(total: nat, s: State, i: nat)
    requires Inv(total, s) && i < |s.producers| && ProducerStep(s, i).Some?
    ensures Inv(total, ProducerStep(s, i).value)
  {
    var t := ProducerStep(s, i).value;
    assert ProducerOk(s, i);
    assert t.producers == s.producers[i := t.producers[i]];
    TotalsAfter(s, i, t.producers[i]);
    forall j | 0 <= j < |t.producers|
      ensures ProducerOk(t, j)
    {
      assert ProducerOk(s, j);
    }
  }

  lemma InvConsumer(total: nat, s: State, m: Move)
    requires Inv(total, s) && !m.Produce? && Step(s, m).Some?
    ensures Inv(total, Step(s, m).value)
  {
    forall j | 0 <= j < |s.producers|
      ensures ProducerOk(Step(s, m).value, j)
    {
      assert ProducerOk(s, j);
    }
  }

  lemma InvStep(total: nat, s: State, m: Move)
    requires Inv(total, s) && Step(s, m).Some?
    ensures Inv(total, Step(s, m).value)
  {
    if m.Produce? {
      InvProducer(total, s, m.i);
    } else {
      InvConsumer(total, s, m);
    }
  }

  lemma InvIsPreserved(total: nat)
    ensures Preserved(Step, (m: Move) => true, (s: State) => Inv(total, s))
  {
    forall s, m | Inv(total, s) && Step(s, m).Some?
      ensures Inv(total, Step(s, m).value)
    {
      InvStep(total, s, m);
    }
  }

  lemma ReachableInv(items: seq<nat>, s: State)
    requires Reachable(items, s)
    ensures Inv(Sum(Identity, items), s)
  {
    var total := Sum(Identity, items);
    var spurious :| Reaches(Step, Init(items, spurious), s);
    InvInit(items, spurious);
    InvIsPreserved(total);
    var ms :| Run(Step, Init(items, spurious), ms) == Some(s);
    InvariantHolds(Step, (m: Move) => true, (t: State) => Inv(total, t), Init(items, spurious), ms);
  }

  // ---- What every reachable state satisfies

  /** Work is neither lost nor invented, and only changes hands under the mutex. */
  lemma WorkIsConserved(items: seq<nat>, s: State, i: nat, j: nat)
    requires Reachable(items, s) && i < |s.producers| && j < |s.producers|
    ensures s.produced == s.consumed + s.work
    ensures s.produced + Sum(Left, s.producers) == Sum(Identity, items)
    ensures s.producers[i].pc.PAdd? ==> !s.cpc.CTest? && !s.cpc.CConsume? && (s.producers[j].pc.PAdd? ==> i == j)
  {
    ReachableInv(items, s);
    assert ProducerOk(s, i) && ProducerOk(s, j);
  }

  /** While the consumer sleeps with work to do, some producer is about to signal it. */
  lemma NoLostWakeup(items: seq<nat>, s: State) returns (i: nat)
    requires Reachable(items, s) && s.cpc.CAsleep? && s.work > 0
    ensures i < |s.producers| && (s.producers[i].pc.PUnlock? || s.producers[i].pc.PSignal?)
  {
    ReachableInv(items, s);
    i := SumPositive(OwesSignal, s.producers);
  }

  // ---- Progress

  predicate Proper(m: Move)
  {
    !m.Spurious?
  }

  ghost predicate AtRest(s: State)
  {
    s.cpc.CAsleep? && forall i :: 0 <= i < |s.producers| ==> s.producers[i].pc.PDone?
  }

  lemma NoDeadlock(total: nat, s: State) returns (m: Move)
    requires Inv(total, s) && !AtRest(s)
    ensures Proper(m) && Step(s, m).Some?
  {
    if s.mutex.Some? && s.mutex.value.TheProducer? {
      m := Produce(s.mutex.value.i);
      assert ProducerOk(s, m.i);
    } else if !s.cpc.CAsleep? {
      m := Consume;
    } else {
      var i :| 0 <= i < |s.producers| && !s.producers[i].pc.PDone?;
      m := Produce(i);
      assert ProducerOk(s, i);
    }
  }

  function Cost(p: Producer): nat
  {
    9 * p.left + match p.pc
                 case PLock => 1
                 case PAdd => 0
                 case PUnlock => 7
                 case PSignal => 6
                 case PDone => 0
  }

  function Measure(s: State): nat
  {
    Sum(Cost, s.producers) + s.work + 5 * s.spurious + match s.cpc
                                                       case CLock => 4
                                                       case CTest => if s.work > 0 then 3 else 1
                                                       case CAsleep => 0
                                                       case CReacquire => 4
                                                       case CConsume => 2
  }

  lemma MeasureDecreases(total: nat, s: State, m: Move)
    requires Inv(total, s) && Step(s, m).Some?
    ensures Measure(Step(s, m).value) < Measure(s)
  {
    if m.Produce? {
      var t := Step(s, m).value;
      assert ProducerOk(s, m.i);
      assert t.producers == s.producers[m.i := t.producers[m.i]];
      TotalsAfter(s, m.i, t.producers[m.i]);
    }
  }

  lemma StepIsGood(total: nat)
    ensures Preserved(Step, (m: Move) => true, (s: State) => Inv(total, s))
    ensures Decreases(Step, (m: Move) => true, (s: State) => Inv(total, s), Measure)
  {
    forall s, m | Inv(total, s) && Step(s, m).Some?
      ensures Inv(total, Step(s, m).value) && Measure(Step(s, m).value) < Measure(s)
    {
      InvStep(total, s, m);
      MeasureDecreases(total, s, m);
    }
  }

  lemma {:induction false} NothingLeft(producers: seq<Producer>)
    requires forall i :: 0 <= i < |producers| ==> producers[i].pc.PDone? && producers[i].left == 0
    ensures Sum(Left, producers) == Sum(OwesSignal, producers) == 0
  {
    if producers != [] {
      NothingLeft(producers[1..]);
    }
  }

  /** At rest, everything that was to be produced has been consumed. */
  lemma RestMeansAllConsumed(total: nat, s: State)
    requires Inv(total, s) && AtRest(s)
    ensures s.work == 0 && s.consumed == total
  {
    forall i | 0 <= i < |s.producers|
      ensures s.producers[i].left == 0
    {
      assert ProducerOk(s, i);
    }
    NothingLeft(s.producers);
  }

  /** Nothing but a spurious wake-up can happen any more. */
  ghost predicate Stopped(s: State)
  {
    forall m :: Proper(m) ==> Step(s, m).None?
  }

  /** Every run with finitely many spurious wake-ups is finite. */
  lemma RunsAreFinite(items: seq<nat>, spurious: nat, ms: seq<Move>)
    requires Run(Step, Init(items, spurious), ms).Some?
    ensures |ms| <= 9 * Sum(Identity, items) + |items| + 4 + 5 * spurious
  {
    var total := Sum(Identity, items);
    var start := Init(items, spurious);
    InvInit(items, spurious);
    InitTotals(items, spurious);
    StepIsGood(total);
    RunIsBounded(Step, (m: Move) => true, (s: State) => Inv(total, s), Measure, start, ms);
  }

  /** It can only stop with the producers done, the consumer asleep, and all the work consumed. */
  lemma AllWorkIsConsumed(items: seq<nat>, s: State)
    requires Reachable(items, s) && Stopped(s)
    ensures AtRest(s) && s.work == 0 && s.consumed == Sum(Identity, items)
  {
    var total := Sum(Identity, items);
    ReachableInv(items, s);
    if !AtRest(s) {
      var m := NoDeadlock(total, s);
      assert false;
    }
    RestMeansAllConsumed(total, s);
  }

  // ---- Spurious wake-ups

  /** A spurious wake-up: pthread_cond_wait() returns although nobody has signalled. */
  predicate WokenForNothing(s: State, m: Move)
  {
    s.cpc.CAsleep? && Step(s, m).Some? && !Step(s, m).value.cpc.CAsleep?
    && Step(s, m).value.producers == s.producers
  }

  lemma {:induction false} SleepsAgain(s: State) returns (ms: seq<Move>)
    requires s.cpc.CAsleep? && s.mutex.None? && s.work == 0
    ensures Run(Step, s, ms) == Some(s.(spurious := 0)) && Count(Step, WokenForNothing, s, ms) == s.spurious
    decreases s.spurious
  {
    ms := [];
    if s.spurious > 0 {
      var a := Step(s, Spurious).value;
      var b := Step(a, Consume).value;
      var t := Step(b, Consume).value;
      var rest := SleepsAgain(t);
      var turn := [Spurious, Consume, Consume];
      assert turn[1..] == [Consume, Consume] && [Consume, Consume][1..] == [Consume] && [Consume][1..] == [];
      assert Run(Step, b, [Consume]) == Some(t) && Run(Step, a, [Consume, Consume]) == Some(t);
      assert Count(Step, WokenForNothing, a, [Consume, Consume]) == 0;
      RunConcat(Step, s, turn, rest);
      CountConcat(Step, WokenForNothing, s, turn, rest);
      ms := turn + rest;
    }
  }

  /** With no work the consumer can be woken for nothing any number of times, and sleeps again each time. */
  lemma WokenAnyNumberOfTimes(items: seq<nat>, spurious: nat) returns (ms: seq<Move>, s: State)
    ensures Run(Step, Init(items, spurious), ms) == Some(s) && s.cpc.CAsleep? && s.consumed == 0
    ensures Count(Step, WokenForNothing, Init(items, spurious), ms) == spurious
  {
    var s0 := Init(items, spurious);
    var a := Step(s0, Consume).value;
    var b := Step(a, Consume).value;
    assert [Consume, Consume][1..] == [Consume] && [Consume][1..] == [];
    assert Run(Step, a, [Consume]) == Some(b);
    assert Count(Step, WokenForNothing, a, [Consume]) == 0;
    var rest := SleepsAgain(b);
    RunConcat(Step, s0, [Consume, Consume], rest);
    CountConcat(Step, WokenForNothing, s0, [Consume, Consume], rest);
    ms, s := [Consume, Consume] + rest, b.(spurious := 0);
  }

  // ---- The consumer's program

  /** What happens to the consumer: a spurious wake-up, or something that a producer does. */
  predicate NotConsume(m: Move)
  {
    !m.Consume?
  }

  /** What is left alone then: the consumer's count, and its place unless it is asleep. */
  ghost predicate Kept(total: nat, from: State, s: State)
  {
    && Inv(total, s) && s.consumed == from.consumed && Measure(s) <= Measure(from)
    && (if from.cpc.CAsleep? then s.cpc.CAsleep? || s.cpc.CReacquire? else s.cpc == from.cpc)
    && (from.cpc.CTest? || from.cpc.CConsume? ==> s.work == from.work)
  }

  lemma KeptStep(total: nat, from: State, s: State, m: Move)
    requires Kept(total, from, s) && NotConsume(m) && Step(s, m).Some?
    ensures Kept(total, from, Step(s, m).value) && Measure(Step(s, m).value) < Measure(s)
  {
    InvStep(total, s, m);
    MeasureDecreases(total, s, m);
    if m.Produce? {
      assert ProducerOk(s, m.i);
    }
  }

  lemma OthersLeaveConsumer(total: nat, from: State)
    ensures Preserved(Step, NotConsume, (s: State) => Kept(total, from, s))
    ensures Decreases(Step, NotConsume, (s: State) => Kept(total, from, s), Measure)
  {
    forall s, m | Kept(total, from, s) && NotConsume(m) && Step(s, m).Some?
      ensures Kept(total, from, Step(s, m).value) && Measure(Step(s, m).value) < Measure(s)
    {
      KeptStep(total, from, s, m);
    }
  }

  /** The consumer can go on: it has been signalled, and the mutex is free if it needs it. */
  predicate CanAct(s: State)
  {
    !s.cpc.CAsleep? && (s.cpc.CLock? || s.cpc.CReacquire? ==> s.mutex.None?)
  }

  /** The consumer's next action; it waits for the producers if it must. */
  method Act(w: World<State, Move>, ghost total: nat)
    requires w.Valid() && w.step == Step && Inv(total, w.s) && (w.s.cpc.CAsleep? ==> w.s.consumed < total)
    modifies w
    ensures w.Valid() && Inv(total, w.s) && Measure(w.s) < Measure(old(w.s))
    ensures w.s.consumed == old(w.s.consumed) + (if old(w.s.cpc.CConsume? && w.s.work > 0) then 1 else 0)
    ensures match old(w.s.cpc)
            case CTest => (if old(w.s.work) == 0 then w.s.cpc.CAsleep? else w.s.cpc.CConsume? && w.s.work == old(w.s.work))
            case CConsume =>
              (if old(w.s.work) == 0 then w.s.cpc.CTest? else w.s.cpc.CConsume? && w.s.work == old(w.s.work) - 1)
            case _ => w.s.cpc.CTest?
  {
    ghost var from := w.s;
    OthersLeaveConsumer(total, from);
    forall s | Kept(total, from, s) && !CanAct(s)
      ensures exists m :: NotConsume(m) && Step(s, m).Some?
    {
      if AtRest(s) {
        RestMeansAllConsumed(total, s);
      }
      var m := NoDeadlock(total, s);
    }
    w.WaitUntil(CanAct, NotConsume, (s: State) => Kept(total, from, s), Measure);
    InvStep(total, w.s, Consume);
    MeasureDecreases(total, w.s, Consume);
    w.Do(Consume);
  }

  /**
   pthread_cond_var from line 57 on, until it has consumed all that will ever be produced,
   among producers and spurious wake-ups.
   */
  method Consumer(w: World<State, Move>, items: seq<nat>, ghost spurious: nat)
    requires w.Valid() && w.step == Step && w.s == Init(items, spurious)
    modifies w
    ensures w.Valid() && Inv(Sum(Identity, items), w.s)
    ensures w.s.consumed == Sum(Identity, items) && w.s.work == 0 && w.s.cpc.CTest?
  {
    var total := Sum(Identity, items);
    InvInit(items, spurious);
    Act(w, total);                  // pthread_mutex_lock()
    while w.s.consumed < total
      invariant w.Valid() && w.step == Step && Inv(total, w.s) && w.s.cpc.CTest?
      decreases Measure(w.s)
    {
      while w.s.work == 0           // while (work == 0)
        invariant w.Valid() && w.step == Step && Inv(total, w.s) && w.s.cpc.CTest? && w.s.consumed < total
        decreases Measure(w.s)
      {
        Act(w, total);              // pthread_cond_wait()
        Act(w, total);
      }
      Act(w, total);
      while w.s.work > 0            // while (work > 0) work--
        invariant w.Valid() && w.step == Step && Inv(total, w.s) && w.s.cpc.CConsume?
        decreases Measure(w.s)
      {
        Act(w, total);
      }
      Act(w, total);
    }
  }

  // ---- The producers' program

  predicate OfOther(i: nat, m: Move)
  {
    !m.Produce? || m.i != i
  }

  ghost predicate KeptFor(total: nat, i: nat, p: Producer, s: State)
  {
    Inv(total, s) && i < |s.producers| && s.producers[i] == p
  }

  lemma OthersLeaveProducer(i: nat, s: State, m: Move)
    requires i < |s.producers| && OfOther(i, m) && Step(s, m).Some?
    ensures i < |Step(s, m).value.producers| && Step(s, m).value.producers[i] == s.producers[i]
  {
  }

  lemma OthersKeep(total: nat, i: nat, p: Producer)
    ensures Preserved(Step, (m: Move) => OfOther(i, m), (s: State) => KeptFor(total, i, p, s))
    ensures Decreases(Step, (m: Move) => OfOther(i, m), (s: State) => KeptFor(total, i, p, s), Measure)
  {
    forall s, m | KeptFor(total, i, p, s) && OfOther(i, m) && Step(s, m).Some?
      ensures KeptFor(total, i, p, Step(s, m).value) && Measure(Step(s, m).value) < Measure(s)
    {
      InvStep(total, s, m);
      MeasureDecreases(total, s, m);
      OthersLeaveProducer(i, s, m);
    }
  }

  /** The next action of producer `i`; it waits for the mutex if it must. */
  method ProducerAct(w: World<State, Move>, ghost total: nat, i: nat)
    requires w.Valid() && w.step == Step && Inv(total, w.s)
    requires i < |w.s.producers| && !w.s.producers[i].pc.PDone?
    modifies w
    ensures w.Valid() && Inv(total, w.s) && i < |w.s.producers|
    ensures var p := old(w.s.producers[i]);
            w.s.producers[i] == match p.pc
                                case PLock => p.(pc := if p.left == 0 then PDone else PAdd)
                                case PAdd => Producer(PUnlock, if p.left == 0 then 0 else p.left - 1)
                                case PUnlock => p.(pc := PSignal)
                                case _ => p.(pc := PLock)
  {
    ghost var p := w.s.producers[i];
    OthersKeep(total, i, p);
    forall s | KeptFor(total, i, p, s) && ProducerStep(s, i).None?
      ensures exists m :: OfOther(i, m) && Step(s, m).Some?
    {
      assert ProducerOk(s, i);
      var m := NoDeadlock(total, s);
    }
    w.WaitUntil((s: State) => i < |s.producers| ==> ProducerStep(s, i).Some?,
                (m: Move) => OfOther(i, m), (s: State) => KeptFor(total, i, p, s), Measure);
    assert ProducerOk(w.s, i);
    InvStep(total, w.s, Produce(i));
    w.Do(Produce(i));
  }

  /** thread_func, as producer `i`: it returns having added all its items. */
  method ThreadFunc(w: World<State, Move>, ghost total: nat, i: nat)
    requires w.Valid() && w.step == Step && Inv(total, w.s)
    requires i < |w.s.producers| && w.s.producers[i].pc.PLock?
    modifies w
    ensures w.Valid() && Inv(total, w.s)
    ensures i < |w.s.producers| && w.s.producers[i] == Producer(PDone, 0)
  {
    while w.s.producers[i].left > 0
      invariant w.Valid() && w.step == Step && Inv(total, w.s)
      invariant i < |w.s.producers| && w.s.producers[i].pc.PLock?
      decreases w.s.producers[i].left
    {
      ProducerAct(w, total, i);     // pthread_mutex_lock()
      ProducerAct(w, total, i);     // work++
      ProducerAct(w, total, i);     // pthread_mutex_unlock()
      ProducerAct(w, total, i);     // pthread_cond_signal()
    }
    ProducerAct(w, total, i);
  }
}
