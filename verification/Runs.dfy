/**
 Labelled transition systems and their runs.

 Every protocol of this project is a function `step(s, m)` that says what one
 atomic move `m` of one process does to the whole system `s`, or `None` when
 that move is not enabled.  What a process may choose freely (how many bytes a
 read returns, which child exits) is part of the move, so a run is a sequence
 of moves and "for every run" means: for every interleaving and every choice.
 */
module Runs {

  datatype Option<+T> = None | Some(value: T)

  /** The state after the moves `ms`, or `None` when one of them is not enabled. */
  function Run<S, M>(step: (S, M) -> Option<S>, s: S, ms: seq<M>): Option<S>
  {
    if ms == [] then Some(s)
    else match step(s, ms[0])
      case None => None
      case Some(t) => Run(step, t, ms[1..])
  }

  ghost predicate Reaches<S, M(!new)>(step: (S, M) -> Option<S>, s: S, t: S)
  {
    exists ms: seq<M> :: Run(step, s, ms) == Some(t)
  }

  /** `inv` survives every move that `which` allows. */
  ghost predicate Preserved<S(!new), M(!new)>(step: (S, M) -> Option<S>, which: M -> bool, inv: S -> bool)
  {
    forall s, m :: inv(s) && which(m) && step(s, m).Some? ==> inv(step(s, m).value)
  }

  /** `measure` goes down on every move that `which` allows from a state in `inv`. */
  ghost predicate Decreases<S(!new), M(!new)>(step: (S, M) -> Option<S>, which: M -> bool, inv: S -> bool, measure: S -> nat)
  {
    forall s, m :: inv(s) && which(m) && step(s, m).Some? ==> measure(step(s, m).value) < measure(s)
  }

  ghost predicate All<M>(which: M -> bool, ms: seq<M>)
  {
    forall i :: 0 <= i < |ms| ==> which(ms[i])
  }

  lemma {:induction false} InvariantHolds<S(!new), M(!new)>(
      step: (S, M) -> Option<S>, which: M -> bool, inv: S -> bool, s: S, ms: seq<M>)
    requires Preserved(step, which, inv) && inv(s)
    requires All(which, ms) && Run(step, s, ms).Some?
    ensures inv(Run(step, s, ms).value)
  {
    if ms != [] {
      assert which(ms[0]);
      InvariantHolds(step, which, inv, step(s, ms[0]).value, ms[1..]);
    }
  }

  /** A measure that every move decreases bounds the length of every run. */
  lemma {:induction false} RunIsBounded<S(!new), M(!new)>(
      step: (S, M) -> Option<S>, which: M -> bool, inv: S -> bool, measure: S -> nat, s: S, ms: seq<M>)
    requires Preserved(step, which, inv) && Decreases(step, which, inv, measure) && inv(s)
    requires All(which, ms) && Run(step, s, ms).Some?
    ensures |ms| + measure(Run(step, s, ms).value) <= measure(s)
  {
    if ms != [] {
      assert which(ms[0]);
      RunIsBounded(step, which, inv, measure, step(s, ms[0]).value, ms[1..]);
    }
  }

  lemma {:induction false} RunConcat<S, M>(step: (S, M) -> Option<S>, s: S, ms: seq<M>, ns: seq<M>)
    requires Run(step, s, ms).Some?
    ensures Run(step, s, ms + ns) == Run(step, Run(step, s, ms).value, ns)
  {
    if ms == [] {
      assert ms + ns == ns;
    } else {
      assert (ms + ns)[1..] == ms[1..] + ns;
      RunConcat(step, step(s, ms[0]).value, ms[1..], ns);
    }
  }

  /** How many of the moves `ms` are of the kind `hit`, judged in the state where they are taken. */
  function Count<S, M>(step: (S, M) -> Option<S>, hit: (S, M) -> bool, s: S, ms: seq<M>): nat
  {
    if ms == [] then 0
    else match step(s, ms[0])
      case None => 0
      case Some(t) => (if hit(s, ms[0]) then 1 else 0) + Count(step, hit, t, ms[1..])
  }

  lemma {:induction false} CountConcat<S, M>(
      step: (S, M) -> Option<S>, hit: (S, M) -> bool, s: S, ms: seq<M>, ns: seq<M>)
    requires Run(step, s, ms).Some?
    ensures Count(step, hit, s, ms + ns) == Count(step, hit, s, ms) + Count(step, hit, Run(step, s, ms).value, ns)
  {
    if ms == [] {
      assert ms + ns == ns;
    } else {
      assert (ms + ns)[1..] == ms[1..] + ns;
      CountConcat(step, hit, step(s, ms[0]).value, ms[1..], ns);
    }
  }

  /** What has happened since the moves `before`: a run of its own, with a count of its own. */
  lemma Since<S, M>(step: (S, M) -> Option<S>, hit: (S, M) -> bool, start: S, before: seq<M>, trace: seq<M>)
    requires before <= trace && Run(step, start, before).Some?
    ensures var s := Run(step, start, before).value;
            && Run(step, start, trace) == Run(step, s, trace[|before|..])
            && Count(step, hit, start, trace) == Count(step, hit, start, before) + Count(step, hit, s, trace[|before|..])
  {
    assert trace == before + trace[|before|..];
    RunConcat(step, start, before, trace[|before|..]);
    CountConcat(step, hit, start, before, trace[|before|..]);
  }

  lemma ReachesSelf<S, M(!new)>(step: (S, M) -> Option<S>, s: S)
    ensures Reaches(step, s, s)
  {
    assert Run(step, s, []) == Some(s);
  }

  lemma ReachesThrough<S, M(!new)>(step: (S, M) -> Option<S>, s: S, t: S, u: S)
    requires Reaches(step, s, t) && Reaches(step, t, u)
    ensures Reaches(step, s, u)
  {
    var ms :| Run(step, s, ms) == Some(t);
    var ns :| Run(step, t, ns) == Some(u);
    RunConcat(step, s, ms, ns);
    assert Run(step, s, ms + ns) == Some(u);
  }

  /** Reachability one move at a time, for exhibiting runs. */
  lemma ReachesByMove<S, M(!new)>(step: (S, M) -> Option<S>, s: S, t: S, m: M)
    requires Reaches(step, s, t) && step(t, m).Some?
    ensures Reaches(step, s, step(t, m).value)
  {
    assert Run(step, t, [m]) == Some(step(t, m).value) by {
      assert Run(step, step(t, m).value, [m][1..]) == Some(step(t, m).value);
    }
    ReachesThrough(step, s, t, step(t, m).value);
  }

  /** The scheduler's choice. */
  method AnyMove<M(0)>() returns (m: M)
  {
    m := *;
  }

  /** The state that a move leads to, and that it is reached. */
  lemma Go<S, M(!new)>(step: (S, M) -> Option<S>, s: S, t: S, m: M) returns (u: S)
    requires Reaches(step, s, t) && step(t, m).Some?
    ensures u == step(t, m).value && Reaches(step, s, u)
  {
    u := step(t, m).value;
    ReachesByMove(step, s, t, m);
  }

  /** A system being executed in place, with the history of the moves taken. */
  class World<S(!new), M(0, !new)> {
    const step: (S, M) -> Option<S>
    const start: S
    var s: S
    ghost var trace: seq<M>

    ghost predicate Valid()
      reads this
    {
      Run(step, start, trace) == Some(s)
    }

    constructor (step: (S, M) -> Option<S>, start: S)
      ensures Valid() && this.step == step && this.start == start && s == start
    {
      this.step, this.start, this.s, this.trace := step, start, start, [];
    }

    /** One atomic move of the process under consideration. */
    method Do(m: M)
      requires Valid() && step(s, m).Some?
      modifies this
      ensures Valid() && s == step(old(s), m).value && trace == old(trace) + [m]
    {
      ghost var before := s;
      s := step(s, m).value;
      RunConcat(step, start, trace, [m]);
      assert Run(step, before, [m]) == Some(s) by {
        assert Run(step, s, [m][1..]) == Some(s);
      }
      trace := trace + [m];
    }

    /** Any number of moves of the other processes; `keep` is what they cannot disturb. */
    method Interfere(others: M -> bool, ghost keep: S -> bool)
      requires Valid() && Preserved(step, others, keep) && keep(s)
      modifies this
      ensures Valid() && keep(s)
      ensures old(trace) <= trace && All(others, trace[|old(trace)|..])
    {
      var n: nat := *;
      ghost var done: seq<M> := [];
      while n > 0
        invariant Valid() && keep(s)
        invariant trace == old(trace) + done && All(others, done)
      {
        var m := AnyMove<M>();
        if others(m) && step(s, m).Some? {
          Do(m);
          done := done + [m];
        }
        n := n - 1;
      }
      assert trace[|old(trace)|..] == done;
    }

    /** A blocking call: the other processes run until `ready` holds. */
    method WaitUntil(ready: S -> bool, others: M -> bool, ghost keep: S -> bool, ghost measure: S -> nat)
      requires Valid() && Preserved(step, others, keep) && keep(s)
      requires Decreases(step, others, keep, measure)
      requires forall t :: keep(t) && !ready(t) ==> exists o :: others(o) && step(t, o).Some?
      modifies this
      ensures Valid() && keep(s) && ready(s) && old(trace) <= trace
    {
      Interfere(others, keep);
      while !ready(s)
        invariant Valid() && keep(s) && old(trace) <= trace
        decreases measure(s)
      {
        var o :| others(o) && step(s, o).Some?;
        Do(o);
      }
    }
  }
}
