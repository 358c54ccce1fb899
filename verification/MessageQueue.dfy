/**
 A POSIX message queue with its one-shot registration for notification, after
 mq_notify() in POSIX.1-2017 XSH section 3: a registration is used up by the
 first message that arrives at an empty queue, and by no other.

 Which message mq_receive() returns is left open, so what is proved holds for
 the priority order and for every other order.
 */
module MessageQueue {
  type Message = seq<bv8>

  datatype Queue = Queue(
    cap: nat,                     // mq_maxmsg
    held: multiset<Message>,
    waiting: multiset<Message>,   // messages of senders blocked on the full queue
    sent: multiset<Message>,      // all messages ever passed to mq_send()
    got: multiset<Message>,       // all messages ever returned by mq_receive()
    armed: bool                   // somebody is registered
  )

  function Empty(cap: nat): Queue
  {
    Queue(cap, multiset{}, multiset{}, multiset{}, multiset{}, false)
  }

  /** The next arrival uses the registration up. */
  predicate Fires(q: Queue)
  {
    q.armed && q.held == multiset{}
  }

  function Arrive(q: Queue, m: Message): Queue
  {
    q.(held := q.held + multiset{m}, armed := q.armed && !Fires(q))
  }

  predicate Full(q: Queue)
  {
    |q.held| >= q.cap
  }

  /** mq_send(): the message arrives, or its sender blocks. */
  function Send(q: Queue, m: Message): Queue
  {
    var q' := q.(sent := q.sent + multiset{m});
    if Full(q) then q'.(waiting := q.waiting + multiset{m}) else Arrive(q', m)
  }

  /** A sender blocks exactly when the queue holds as many messages as it can; otherwise its message is in. */
  lemma SendBlocksIff(q: Queue, m: Message)
    requires Conserved(q)
    ensures var t := Send(q, m);
            && t.sent == q.sent + multiset{m} && t.got == q.got
            && (|q.held| == q.cap <==> t.waiting == q.waiting + multiset{m} && t.held == q.held)
            && (|q.held| < q.cap <==> t.waiting == q.waiting && t.held == q.held + multiset{m})
  {
    assert |q.held + multiset{m}| == |q.held| + 1 && |q.waiting + multiset{m}| == |q.waiting| + 1;
  }

  /** A blocked sender goes on. */
  function Admit(q: Queue, m: Message): Queue
  {
    Arrive(q.(waiting := q.waiting - multiset{m}), m)
  }

  function Receive(q: Queue, m: Message): Queue
  {
    q.(held := q.held - multiset{m}, got := q.got + multiset{m})
  }

  /** Every message is in exactly one place. */
  ghost predicate Conserved(q: Queue)
  {
    && q.sent == q.got + q.held + q.waiting
    && |q.held| <= q.cap
    && (q.waiting != multiset{} ==> q.cap > 0)
  }

  lemma SendConserves(q: Queue, m: Message)
    requires Conserved(q) && q.cap > 0
    ensures Conserved(Send(q, m))
  {
  }

  lemma AdmitConserves(q: Queue, m: Message)
    requires Conserved(q) && m in q.waiting && !Full(q)
    ensures Conserved(Admit(q, m))
  {
    assert q.waiting == (q.waiting - multiset{m}) + multiset{m};
  }

  lemma ReceiveConserves(q: Queue, m: Message)
    requires Conserved(q) && m in q.held
    ensures Conserved(Receive(q, m))
  {
    assert q.held == (q.held - multiset{m}) + multiset{m};
  }

  lemma AdmitSizes(q: Queue, m: Message)
    requires m in q.waiting
    ensures |Admit(q, m).waiting| == |q.waiting| - 1 && |Admit(q, m).held| == |q.held| + 1
  {
    assert |q.waiting - multiset{m}| == |q.waiting| - 1;
  }

  lemma ReceiveSizes(q: Queue, m: Message)
    requires m in q.held
    ensures |Receive(q, m).held| == |q.held| - 1 && Receive(q, m).waiting == q.waiting
  {
    assert |q.held - multiset{m}| == |q.held| - 1;
  }
}
