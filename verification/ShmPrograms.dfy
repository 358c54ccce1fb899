/**
 The writer's and the reader's functions as programs that change the segment and
 the semaphores in place, each running against every behaviour of the other.
 Each atomic action is proved to be the move of module ShmTransfer that it
 stands for; the two functions then inherit that module's theorems.
 */
module ShmPrograms {
  import opened Runs
  import opened ShmTransfer

  class Machine {
    const input: Bytes
    var unread: Bytes
    var writeSem: nat
    var readSem: nat
    var semExists: bool
    var shmExists: bool
    var cnt: nat
    const buf: array<bv8>
    var wpc: WriterPc
    var wbytes: nat
    var rpc: ReaderPc
    var rbytes: nat
    var output: Bytes
    var fault: bool

    /** The state of the transition system that the fields stand for. */
    function Abs(): State
      reads this, buf
    {
      State(input, unread, writeSem, readSem, semExists, shmExists, cnt, buf[..], wpc, wbytes, rpc, rbytes, output, fault)
    }

    constructor (input: Bytes, bufSize: nat)
      requires bufSize > 0
      ensures fresh(buf) && buf.Length == bufSize
      ensures Abs() == Init(input, buf[..])
    {
      this.input, unread, writeSem, readSem := input, input, 1, 0;
      semExists, shmExists, cnt := true, true, 0;
      buf := new bv8[bufSize];
      wpc, wbytes, rpc, rbytes, output, fault := WAcquire, 0, RWait, 0, [], false;
    }

    /** read(STDIN_FILENO, shmp->buf, BUF_SIZE), returning `k` bytes. */
    method ReadIntoSegment(k: nat)
      requires ReadMayReturn(Abs(), k)
      modifies this`unread, buf
      ensures unread == old(unread[k..]) && buf[..] == old(unread[..k] + buf[k..])
    {
      var i := 0;
      while i < k
        invariant i <= k && unread == old(unread)
        invariant buf[..i] == unread[..i] && buf[i..] == old(buf[i..])
      {
        buf[i] := unread[i];
        i := i + 1;
      }
      assert buf[..] == buf[..k] + buf[k..];
      unread := unread[k..];
    }

    method WriterMove(k: nat)
      requires Inv(Abs()) && WriterStep(Abs(), k).Some?
      modifies this, buf
      ensures Abs() == WriterStep(old(Abs()), k).value
      ensures Inv(Abs()) && Measure(Abs()) < Measure(old(Abs()))
    {
      InvStep(Abs(), Writer(k));
      MeasureDecreases(Abs(), Writer(k));
      match wpc
      case WAcquire => writeSem, wpc := writeSem - 1, WRead;
      case WRead => ReadIntoSegment(k); wpc := WStore(k);
      case WStore(n) => cnt, wpc := n, WPost;
      case WPost => readSem, wpc := readSem + 1, WTest;
      case WTest => wpc := if cnt == 0 then WFinal else WAdd;
      case WAdd => wbytes, wpc := wbytes + cnt, WAcquire;
      case WFinal => writeSem, wpc := writeSem - 1, WRmSem;
      case WRmSem => semExists, wpc := false, WDetach;
      case WDetach => wpc := WRmShm;
      case WRmShm => shmExists, wpc := false, WDone;
    }

    method ReaderMove()
      requires Inv(Abs()) && ReaderStep(Abs()).Some?
      modifies this
      ensures Abs() == ReaderStep(old(Abs())).value
      ensures Inv(Abs()) && Measure(Abs()) < Measure(old(Abs()))
    {
      InvStep(Abs(), Reader);
      MeasureDecreases(Abs(), Reader);
      match rpc
      case RWait => readSem, rpc := readSem - 1, RTest;
      case RTest => rpc := if cnt == 0 then RDetach else RCopy;
      case RCopy => output, rpc := output + buf[..cnt], RPost;
      case RPost => writeSem, rpc := writeSem + 1, RAdd;
      case RAdd => rbytes, rpc := rbytes + cnt, RWait;
      case RDetach => rpc := RFinal;
      case RFinal => writeSem, rpc := writeSem + 1, RDone;
    }

    /** What read() happens to return. */
    method ReadSize() returns (k: nat)
      requires Inv(Abs())
      ensures ReadMayReturn(Abs(), k)
    {
      k := *;
      if !(0 < k <= |unread| && k <= buf.Length) {
        k := if unread == [] then 0 else 1;
      }
    }

    /** The reader runs for a while; the writer's places and totals stay as they are. */
    method ReaderRuns()
      requires Inv(Abs())
      modifies this
      ensures Inv(Abs()) && Measure(Abs()) <= Measure(old(Abs()))
      ensures wpc == old(wpc) && cnt == old(cnt) && unread == old(unread)
    {
      var n: nat := *;
      while n > 0
        invariant Inv(Abs()) && Measure(Abs()) <= Measure(old(Abs()))
        invariant wpc == old(wpc) && cnt == old(cnt) && unread == old(unread)
      {
        if ReaderStep(Abs()).Some? {
          ReaderMove();
        }
        n := n - 1;
      }
    }

    /** The writer runs for a while; the reader's place and its output stay as they are. */
    method WriterRuns()
      requires Inv(Abs())
      modifies this, buf
      ensures Inv(Abs()) && Measure(Abs()) <= Measure(old(Abs()))
      ensures rpc == old(rpc) && output == old(output)
    {
      var n: nat := *;
      while n > 0
        invariant Inv(Abs()) && Measure(Abs()) <= Measure(old(Abs()))
        invariant rpc == old(rpc) && output == old(output)
      {
        var k := ReadSize();
        if WriterStep(Abs(), k).Some? {
          WriterMove(k);
        }
        n := n - 1;
      }
    }

    /** semop(WRITE, -1): the reader goes on running until the semaphore is free. */
    method TakeWrite()
      requires Inv(Abs()) && (wpc.WAcquire? || wpc.WFinal?)
      modifies this, buf
      ensures Inv(Abs()) && Measure(Abs()) < Measure(old(Abs()))
      ensures wpc == (if old(wpc).WAcquire? then WRead else WRmSem)
    {
      ReaderRuns();
      while writeSem == 0
        invariant Inv(Abs()) && Measure(Abs()) <= Measure(old(Abs())) && wpc == old(wpc)
        decreases Measure(Abs())
      {
        ReaderMove();
      }
      WriterMove(0);
    }

    /** semop(READ, -1): the writer goes on running until the semaphore is free. */
    method TakeRead()
      requires Inv(Abs()) && rpc.RWait?
      modifies this, buf
      ensures Inv(Abs()) && Measure(Abs()) < Measure(old(Abs())) && rpc == RTest
    {
      WriterRuns();
      while readSem == 0
        invariant Inv(Abs()) && Measure(Abs()) <= Measure(old(Abs())) && rpc == old(rpc)
        decreases Measure(Abs())
      {
        var k := ReadSize();
        WriterMove(k);
      }
      ReaderMove();
    }

    /** One move of the writer after the reader has run for a while. */
    method Then(k: nat)
      requires Inv(Abs()) && !wpc.WAcquire? && !wpc.WFinal? && !wpc.WDone?
      requires wpc.WRead? ==> ReadMayReturn(Abs(), k)
      modifies this, buf
      ensures Inv(Abs()) && Measure(Abs()) < Measure(old(Abs()))
      ensures wpc == match old(wpc)
                     case WRead => WStore(k)
                     case WStore(_) => WPost
                     case WPost => WTest
                     case WTest => (if cnt == 0 then WFinal else WAdd)
                     case WAdd => WAcquire
                     case WRmSem => WDetach
                     case WDetach => WRmShm
                     case _ => WDone
    {
      ReaderRuns();
      WriterMove(k);
    }

    /**
     ipc_systemv_shm_writer from line 47 on.  However the reader is scheduled, it
     returns, and then everything has arrived and both objects are gone.
     */
    method RunWriter()
      requires Abs() == Init(input, buf[..]) && buf.Length > 0
      modifies this, buf
      ensures Finished(Abs()) && !fault && !semExists && !shmExists
      ensures output == input && wbytes == |input|
    {
      InvInit(input, buf[..]);
      while true
        invariant Inv(Abs()) && wpc.WAcquire?
        decreases Measure(Abs())
      {
        TakeWrite();             // semop(WRITE, -1)
        var k := ReadSize();
        Then(k);                 // read
        Then(0);                 // cnt =
        Then(0);                 // semop(READ, +1)
        Then(0);                 // cnt == 0 ?
        if cnt == 0 {
          break;
        }
        Then(0);                 // bytes += cnt
      }
      RemoveObjects();
    }

    /** The end of the function: wait for the reader, then remove the semaphores and the segment. */
    method RemoveObjects()
      requires Inv(Abs()) && wpc.WFinal?
      modifies this, buf
      ensures Finished(Abs()) && !fault && !semExists && !shmExists
      ensures output == input && wbytes == |input|
    {
      TakeWrite();
      Then(0);
      Then(0);
      Then(0);
      assert output + [] + [] == output;
    }

    /** One move of the reader after the writer has run for a while. */
    method ThenRead()
      requires Inv(Abs()) && !rpc.RWait? && !rpc.RDone?
      modifies this, buf
      ensures Inv(Abs()) && Measure(Abs()) < Measure(old(Abs()))
      ensures match old(rpc)
              case RTest => rpc.RDetach? || rpc.RCopy?
              case RCopy => rpc.RPost?
              case RPost => rpc.RAdd?
              case RAdd => rpc.RWait?
              case RDetach => rpc.RFinal?
              case _ => rpc.RDone?
    {
      WriterRuns();
      ReaderMove();
    }

    /** ipc_systemv_shm_reader from line 23 on: it returns having copied the whole input. */
    method RunReader()
      requires Abs() == Init(input, buf[..]) && buf.Length > 0
      modifies this, buf
      ensures Inv(Abs()) && rpc.RDone? && output == input && !fault
    {
      InvInit(input, buf[..]);
      while true
        invariant Inv(Abs()) && rpc.RWait?
        decreases Measure(Abs())
      {
        TakeRead();              // semop(READ, -1)
        ThenRead();              // cnt == 0 ?
        if rpc.RDetach? {
          break;
        }
        ThenRead();              // write
        ThenRead();              // semop(WRITE, +1)
        ThenRead();              // bytes += cnt
      }
      ThenRead();                // shmdt
      ThenRead();                // semop(WRITE, +1)
      assert Uncopied(Abs()) == [] && output + [] + [] == output;
    }
  }
}
