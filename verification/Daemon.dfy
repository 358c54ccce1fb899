/**
 become_daemon on a process table and a descriptor table.  The kernel gives a new
 process an identifier that no living process, process group or session has, and
 open() the lowest free descriptor.
 */
module Daemon {

  datatype File = File(path: string, id: nat)

  const BD_NO_CHDIR: bv32 := 1
  const BD_NO_CLOSE_FILES: bv32 := 2
  const BD_NO_REOPEN_STD_FDS: bv32 := 4
  const BD_NO_UMASK0: bv32 := 8
  const BD_MAX_CLOSE := 8192
  const STDIN_FILENO := 0
  const STDOUT_FILENO := 1
  const STDERR_FILENO := 2

  predicate Has(flags: bv32, flag: bv32)
  {
    flags & flag != 0
  }

  class Process {
    const pid: nat
    var pgid: nat
    var sid: nat
    var fds: map<nat, File>
    var cwd: string
    var mask: nat
    var exited: bool

    constructor (pid: nat, pgid: nat, sid: nat, fds: map<nat, File>, cwd: string, mask: nat)
      ensures this.pid == pid && this.pgid == pgid && this.sid == sid && this.fds == fds
      ensures this.cwd == cwd && this.mask == mask && !exited
    {
      this.pid, this.pgid, this.sid, this.fds := pid, pgid, sid, fds;
      this.cwd, this.mask, this.exited := cwd, mask, false;
    }

    predicate GroupLeader()
      reads this
    {
      pgid == pid
    }

    predicate SessionLeader()
      reads this
    {
      sid == pid
    }

    /** Fails for a process group leader. */
    method Setsid() returns (r: int)
      modifies this`pgid, this`sid
      ensures r == -1 <==> old(pgid) == pid
      ensures if r == -1 then pgid == old(pgid) && sid == old(sid) else pgid == sid == pid
    {
      if pgid == pid {
        return -1;
      }
      pgid, sid := pid, pid;
      r := pid;
    }

    method Close(fd: nat)
      modifies this`fds
      ensures fds == old(fds) - {fd}
    {
      fds := fds - {fd};
    }

    /** The lowest descriptor that is free. */
    method Open(file: File) returns (fd: nat)
      modifies this`fds
      ensures fd !in old(fds) && forall x :: 0 <= x < fd ==> x in old(fds)
      ensures fds == old(fds)[fd := file]
    {
      fd := 0;
      while fd in fds
        invariant forall x :: 0 <= x < fd ==> x in fds
        invariant fds == old(fds)
        decreases set x | x in fds && x >= fd
      {
        ghost var above := set x | x in fds && x >= fd;
        assert fd in above && (set x | x in fds && x >= fd + 1) == above - {fd};
        fd := fd + 1;
      }
      fds := fds[fd := file];
    }

    /** dup2(): -1 when `from` is not open, and `to` otherwise. */
    method Dup2(from: nat, to: nat) returns (r: int)
      modifies this`fds
      ensures from in old(fds) ==> r == to && fds == old(fds)[to := old(fds)[from]]
      ensures from !in old(fds) ==> r == -1 && fds == old(fds)
    {
      if from !in fds {
        return -1;
      }
      fds := fds[to := fds[from]];
      r := to;
    }
  }

  class Kernel {
    var used: set<nat>    // the identifiers of living processes, groups and sessions
    var nextFile: nat

    /** Every open file description of `p` has an id that is taken already. */
    predicate Knows(p: Process)
      reads this, p
    {
      {p.pid, p.pgid, p.sid} <= used && forall file :: file in p.fds.Values ==> file.id < nextFile
    }

    /** A pid that is not in use. */
    method FreshPid() returns (pid: nat)
      ensures pid !in used
    {
      pid := *;
      if pid in used {
        pid := 0;
        while pid in used
          decreases set x | x in used && x >= pid
        {
          ghost var above := set x | x in used && x >= pid;
          assert pid in above && (set x | x in used && x >= pid + 1) == above - {pid};
          pid := pid + 1;
        }
      }
    }

    /** fork(), seen from the child: a copy of the parent under a new pid. */
    method Fork(p: Process) returns (child: Process)
      requires Knows(p)
      modifies this`used
      ensures fresh(child) && child.pid !in old(used) && used == old(used) + {child.pid} && Knows(child)
      ensures child.pgid == p.pgid && child.sid == p.sid && child.fds == p.fds
      ensures child.cwd == p.cwd && child.mask == p.mask && !child.exited
    {
      var pid := FreshPid();
      used := used + {pid};
      child := new Process(pid, p.pgid, p.sid, p.fds, p.cwd, p.mask);
    }

    /** A new open file description of /dev/null. */
    method DevNull() returns (file: File)
      modifies this`nextFile
      ensures file == File("/dev/null", old(nextFile)) && nextFile == old(nextFile) + 1
    {
      file := File("/dev/null", nextFile);
      nextFile := nextFile + 1;
    }
  }

  /** How many descriptors the closing loop closes: the limit, if sysconf() knows one. */
  function MaxFds(openMax: int): int
  {
    if openMax == -1 then BD_MAX_CLOSE else openMax
  }

  /** What the closing loop leaves open. */
  function KeptFds(fds: map<nat, File>, flags: bv32, openMax: int): map<nat, File>
  {
    if Has(flags, BD_NO_CLOSE_FILES) then fds
    else map fd | fd in fds && fd >= MaxFds(openMax) :: fds[fd]
  }

  /** The descriptor table of the daemon. */
  function DaemonFds(fds: map<nat, File>, flags: bv32, openMax: int, sink: File): map<nat, File>
  {
    if Has(flags, BD_NO_REOPEN_STD_FDS) then KeptFds(fds, flags, openMax)
    else KeptFds(fds, flags, openMax)[STDIN_FILENO := sink][STDOUT_FILENO := sink][STDERR_FILENO := sink]
  }

  /** Each flag is one bit, and it is the one that the header gives it. */
  lemma FlagBits(flags: bv32)
    ensures Has(flags, BD_NO_CHDIR) <==> flags & 1 == 1
    ensures Has(flags, BD_NO_CLOSE_FILES) <==> flags & 2 == 2
    ensures Has(flags, BD_NO_REOPEN_STD_FDS) <==> flags & 4 == 4
    ensures Has(flags, BD_NO_UMASK0) <==> flags & 8 == 8
  {
  }

  /** What is open in the daemon, descriptor by descriptor. */
  lemma DaemonFdsAt(fds: map<nat, File>, flags: bv32, openMax: int, sink: File, fd: nat)
    ensures var d := DaemonFds(fds, flags, openMax, sink);
            && (fd in d <==> (fd <= 2 && flags & 4 != 4)
                             || (fd in fds && (flags & 2 == 2 || fd >= if openMax == -1 then 8192 else openMax)))
            && (fd in d ==> if fd <= 2 && flags & 4 != 4 then d[fd] == sink else fd in fds && d[fd] == fds[fd])
  {
    FlagBits(flags);
  }

  /**
   Nothing but the three standard descriptors is open afterwards exactly when the caller
   asked for the others to be closed and had none at or above the limit, or had none at all.
   */
  lemma OthersAreClosedIff(fds: map<nat, File>, flags: bv32, openMax: int, sink: File)
    ensures (forall fd :: fd in DaemonFds(fds, flags, openMax, sink) ==> fd <= STDERR_FILENO)
            <==> (forall fd :: fd in fds && fd > STDERR_FILENO ==>
                    flags & 2 != 2 && fd < if openMax == -1 then 8192 else openMax)
  {
    var d := DaemonFds(fds, flags, openMax, sink);
    forall fd: nat | fd > STDERR_FILENO
      ensures fd in d <==> fd in fds && (flags & 2 == 2 || fd >= if openMax == -1 then 8192 else openMax)
    {
      DaemonFdsAt(fds, flags, openMax, sink, fd);
    }
  }

  /**
   With a /dev/null that was not open before, the table is the caller's own exactly when no
   standard descriptor is redirected and nothing below the limit was open to be closed.
   */
  lemma TableIsKeptIff(fds: map<nat, File>, flags: bv32, openMax: int, sink: File)
    requires sink !in fds.Values
    ensures DaemonFds(fds, flags, openMax, sink) == fds
            <==> flags & 4 == 4
                 && (flags & 2 == 2 || forall fd :: fd in fds ==> fd >= if openMax == -1 then 8192 else openMax)
  {
    var d := DaemonFds(fds, flags, openMax, sink);
    FlagBits(flags);
    if d == fds {
      assert STDIN_FILENO in d && d[STDIN_FILENO] == sink ==> sink in fds.Values;
    }
  }

  /** The closing loop: for (fd = 0; fd < maxfds; ++fd) close(fd). */
  method CloseAll(p: Process, openMax: int)
    modifies p`fds
    ensures p.fds == map fd | fd in old(p.fds) && fd >= (if openMax == -1 then 8192 else openMax) :: old(p.fds)[fd]
  {
    var maxfds := openMax;
    if maxfds == -1 {
      maxfds := BD_MAX_CLOSE;
    }
    var fd := 0;
    while fd < maxfds
      invariant 0 <= fd && (fd <= maxfds || fd == 0)
      invariant p.fds == map x | x in old(p.fds) && x >= fd :: old(p.fds)[x]
    {
      p.Close(fd);
      fd := fd + 1;
    }
  }

  /** The redirection of the three standard descriptors to one description of /dev/null, a new one. */
  method ReopenStandard(k: Kernel, p: Process) returns (r: int, ghost sink: File)
    requires k.Knows(p)
    modifies k`nextFile, p`fds
    ensures r == 0 && sink == File("/dev/null", old(k.nextFile)) && sink !in old(p.fds).Values
    ensures k.Knows(p)
    ensures p.fds == old(p.fds)[STDIN_FILENO := sink][STDOUT_FILENO := sink][STDERR_FILENO := sink]
  {
    p.Close(STDIN_FILENO);
    var file := k.DevNull();
    sink := file;
    var fd := p.Open(file);
    if fd != STDIN_FILENO {
      return -1, sink;
    }
    var d := p.Dup2(STDIN_FILENO, STDOUT_FILENO);
    if d != STDOUT_FILENO {
      return -1, sink;
    }
    d := p.Dup2(STDIN_FILENO, STDERR_FILENO);
    if d != STDERR_FILENO {
      return -1, sink;
    }
    r := 0;
  }

  /** What the daemon does to its own mask, directory and descriptors; it cannot fail. */
  method Detach(k: Kernel, p: Process, flags: bv32, openMax: int) returns (r: int, ghost sink: File)
    requires k.Knows(p)
    modifies k`nextFile, p`fds, p`mask, p`cwd
    ensures r == 0 && sink == File("/dev/null", old(k.nextFile))
    ensures p.fds == DaemonFds(old(p.fds), flags, openMax, sink)
    ensures p.mask == if Has(flags, BD_NO_UMASK0) then old(p.mask) else 0
    ensures p.cwd == if Has(flags, BD_NO_CHDIR) then old(p.cwd) else "/"
  {
    sink := File("/dev/null", k.nextFile);
    if !Has(flags, BD_NO_UMASK0) {
      p.mask := 0;
    }
    if !Has(flags, BD_NO_CHDIR) {
      p.cwd := "/";
    }
    if !Has(flags, BD_NO_CLOSE_FILES) {
      CloseAll(p, openMax);
    }
    if !Has(flags, BD_NO_REOPEN_STD_FDS) {
      r, sink := ReopenStandard(k, p);
      if r != 0 {
        return -1, sink;
      }
    }
    r := 0;
  }

  /**
   become_daemon, followed through the two forks; `d` is the process in which it returns
   and `child` the result of the first fork, or the caller if that fails.  It fails only
   when a fork fails.  When it succeeds the caller and its child have exited, and `d` is
   alive in a session that the child began and that nobody leads any more.
   */
  method BecomeDaemon(k: Kernel, p: Process, flags: bv32, forkOk1: bool, forkOk2: bool, openMax: int)
    returns (r: int, d: Process, ghost child: Process, ghost sink: File)
    requires k.Knows(p) && !p.exited
    modifies k, p`exited
    ensures r == 0 <==> forkOk1 && forkOk2
    ensures r == 0 || r == -1
    ensures !forkOk1 ==> d == child == p && !p.exited
    ensures forkOk1 ==> fresh(child) && child.pid !in old(k.used) && child.SessionLeader() && p.exited
    ensures forkOk1 ==> fresh(d) && !d.exited && d.pgid == d.sid == child.pid
    ensures forkOk1 && !forkOk2 ==> d == child && d.fds == p.fds
    ensures r == 0 ==> child.exited && d != child && d.pid !in old(k.used) + {child.pid}
    ensures r == 0 ==> !d.SessionLeader() && !d.GroupLeader()
    ensures r == 0 ==> sink.path == "/dev/null" && sink !in p.fds.Values
    ensures r == 0 ==>
              && (forall fd: nat :: fd in d.fds <==>
                    (fd <= 2 && flags & 4 != 4)
                    || (fd in p.fds && (flags & 2 == 2 || fd >= if openMax == -1 then 8192 else openMax)))
              && (forall fd: nat :: fd in d.fds ==>
                    d.fds[fd] == if fd <= 2 && flags & 4 != 4 then sink else p.fds[fd])
    ensures r == 0 ==> (d.fds == p.fds
                        <==> flags & 4 == 4
                             && (flags & 2 == 2
                                 || forall fd :: fd in p.fds ==> fd >= if openMax == -1 then 8192 else openMax))
    ensures r == 0 ==> d.mask == if flags & 8 == 8 then p.mask else 0
    ensures r == 0 ==> d.cwd == if flags & 1 == 1 then p.cwd else "/"
    ensures r == 0 && flags == 0 ==>
              && d.mask == 0 && d.cwd == "/"
              && (forall fd :: 0 <= fd <= 2 ==> fd in d.fds && d.fds[fd] == sink)
              && (forall fd :: fd in d.fds ==> fd <= 2 || fd >= if openMax == -1 then 8192 else openMax)
  {
    sink := File("/dev/null", k.nextFile);
    if !forkOk1 {
      return -1, p, p, sink;
    }
    var middle := k.Fork(p);
    child := middle;
    p.exited := true;
    var s := middle.Setsid();
    if s == -1 {
      return -1, middle, middle, sink;
    }
    if !forkOk2 {
      return -1, middle, middle, sink;
    }
    d := k.Fork(middle);
    middle.exited := true;
    r, sink := Detach(k, d, flags, openMax);
    FlagBits(flags);
    TableIsKeptIff(p.fds, flags, openMax, sink);
    forall fd: nat {
      DaemonFdsAt(p.fds, flags, openMax, sink, fd);
    }
  }
}
