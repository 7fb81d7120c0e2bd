/**
 * The lock file protocol: any number of processes that open, lock, check,
 * unlink and close one path, one system call at a time.
 */
module FileLock {
  import opened Options
  import Finite

  datatype Mode = Shared | Exclusive

  /** Where a process is in lockfile or unlockfile, with the open files it holds. */
  datatype Pc =
    | Idle
    | Opening(stale: Option<int>)
    | Rebinding(fd: int, prior: int)
    | Locking(fd: int)
    | Checking(fd: int)
    | Statting(fd: int)
    | Closing(fd: int)
    | Abandoning(fd: int)
    | Held(fd: int)
    | Unlinking(fd: int)
    | Unlocking(fd: int)
    | Shutting(fd: int)

  datatype Proc = Proc(pc: Pc, mode: Mode, retry: bool)

  /** What the path names, the inode of every open file, the locks on open files, and the processes. */
  datatype State = State(path: Option<int>, files: map<int, int>, locks: map<int, Mode>, procs: map<int, Proc>)

  ghost predicate Init(s: State) {
    && s.files == map[] && s.locks == map[]
    && forall p :: p in s.procs ==> s.procs[p].pc == Idle
  }

  // ----- the steps

  datatype Action =
    | Call(mode: Mode, retry: bool)
    | Open(fd: int, inode: int)
    | OpenFails
    | DropOld
    | Flock
    | FlockFails
    | Exists
    | Stat
    | Close
    | Abandon
    | Promote
    | PromoteFails
    | Unlink
    | Unlock
    | Shut
    | Crash

  /** No other open file of the same inode is locked in a conflicting way. */
  ghost predicate Grantable(s: State, fd: int, mode: Mode) {
    && fd in s.files
    && forall g :: g in s.locks && g in s.files && g != fd && s.files[g] == s.files[fd] ==>
       mode == Shared && s.locks[g] == Shared
  }

  ghost predicate Enabled(s: State, p: int, a: Action) {
    && p in s.procs
    && var pc := s.procs[p].pc;
       match a
       case Call(_, _) => pc.Idle?
       case Open(fd, inode) => pc.Opening? && fd !in s.files && (if s.path.Some? then inode == s.path.value
         else inode !in s.files.Values)
       case OpenFails => pc.Opening?
       case DropOld => pc.Rebinding?
       case Flock => pc.Locking? && Grantable(s, pc.fd, s.procs[p].mode)
       case FlockFails => pc.Locking?
       case Exists => pc.Checking?
       case Stat => pc.Statting? && pc.fd in s.files
       case Close => pc.Closing?
       case Abandon => pc.Abandoning?
       case Promote => pc.Held? && Grantable(s, pc.fd, Exclusive)
       case PromoteFails => pc.Held?
       case Unlink => pc.Unlinking?
       case Unlock => pc.Unlocking?
       case Shut => pc.Shutting?
       case Crash => true
  }

  ghost function At(s: State, p: int, pc: Pc): State
    requires p in s.procs
  {
    s.(procs := s.procs[p := s.procs[p].(pc := pc)])
  }

  /** Closing an open file gives up its lock. */
  ghost function Closed(s: State, fds: set<int>): State {
    s.(files := s.files - fds, locks := s.locks - fds)
  }

  /** An exception: try again with the file still open, or give up. */
  ghost function Raised(s: State, p: int, fd: int): State
    requires p in s.procs
  {
    At(s, p, if s.procs[p].retry then Opening(Some(fd)) else Abandoning(fd))
  }

  ghost function Fds(pc: Pc): set<int> {
    match pc
    case Idle => {}
    case Opening(stale) => if stale.Some? then {stale.value} else {}
    case Rebinding(fd, prior) => {fd, prior}
    case _ => {pc.fd}
  }

  ghost function After(s: State, p: int, a: Action): State
    requires Enabled(s, p, a)
  {
    var me := s.procs[p];
    match a
    case Call(mode, retry) => s.(procs := s.procs[p := Proc(Opening(None), mode, retry)])
    case Open(fd, inode) =>
      var t := s.(path := Some(inode), files := s.files[fd := inode]);
      At(t, p, if me.pc.stale.Some? then Rebinding(fd, me.pc.stale.value) else Locking(fd))
    case OpenFails =>
      if me.retry then s
      else if me.pc.stale.Some? then At(s, p, Abandoning(me.pc.stale.value))
      else At(s, p, Idle)
    case DropOld => At(Closed(s, {me.pc.prior}), p, Locking(me.pc.fd))
    case Flock => At(s.(locks := s.locks[me.pc.fd := me.mode]), p, Checking(me.pc.fd))
    case FlockFails => Raised(s, p, me.pc.fd)
    case Exists => At(s, p, if s.path.Some? then Statting(me.pc.fd) else Closing(me.pc.fd))
    case Stat =>
      if s.path.None? then Raised(s, p, me.pc.fd)
      else At(s, p, if s.path.value == s.files[me.pc.fd] then Held(me.pc.fd) else Closing(me.pc.fd))
    case Close => At(Closed(s, {me.pc.fd}), p, if me.retry then Opening(None) else Idle)
    case Abandon => At(Closed(s, {me.pc.fd}), p, Idle)
    case Promote => At(s.(locks := s.locks[me.pc.fd := Exclusive]), p, Unlinking(me.pc.fd))
    case PromoteFails => At(s, p, Unlocking(me.pc.fd))
    case Unlink => At(s.(path := None), p, Unlocking(me.pc.fd))
    case Unlock => At(s.(locks := s.locks - {me.pc.fd}), p, Shutting(me.pc.fd))
    case Shut => At(Closed(s, {me.pc.fd}), p, Idle)
    case Crash => At(Closed(s, Fds(me.pc)), p, Idle)
  }

  // ----- the invariant

  ghost predicate LockedAs(s: State, fd: int, mode: Mode) {
    fd in s.locks && s.locks[fd] == mode
  }

  /** fd is an open file of the inode that the path names. */
  ghost predicate OnDisk(s: State, fd: int) {
    fd in s.files && s.path == Some(s.files[fd])
  }

  ghost predicate ProcOk(s: State, me: Proc) {
    && Fds(me.pc) <= s.files.Keys
    && match me.pc
       case Rebinding(fd, prior) => fd !in s.locks && fd != prior
       case Locking(fd) => fd !in s.locks
       case Checking(fd) => LockedAs(s, fd, me.mode)
       case Statting(fd) => LockedAs(s, fd, me.mode)
       case Held(fd) => LockedAs(s, fd, me.mode) && OnDisk(s, fd)
       case Unlinking(fd) => LockedAs(s, fd, Exclusive) && OnDisk(s, fd)
       case Abandoning(fd) => !me.retry
       case Shutting(fd) => fd !in s.locks
       case _ => true
  }

  /** Locks on open files of the same inode are all shared. */
  ghost predicate Compatible(s: State) {
    forall f, g :: f in s.locks && g in s.locks && f in s.files && g in s.files && f != g && s.files[f] == s.files[g]
                   ==> s.locks[f] == Shared && s.locks[g] == Shared
  }

  ghost predicate Owned(s: State) {
    && (forall p, q :: p in s.procs && q in s.procs && p != q ==> Fds(s.procs[p].pc) !! Fds(s.procs[q].pc))
    && (forall f :: f in s.locks ==> f in s.files && HasOwner(s, f))
  }

  ghost predicate HasOwner(s: State, f: int) {
    exists p :: p in s.procs && f in Fds(s.procs[p].pc)
  }

  ghost predicate Inv(s: State) {
    && Owned(s) && Compatible(s)
    && forall p :: p in s.procs ==> ProcOk(s, s.procs[p])
  }

  lemma InitInv(s: State)
    requires Init(s)
    ensures Inv(s)
  {
  }

  // ----- every step keeps it

  ghost predicate SameFor(s: State, t: State, fd: int) {
    && (fd in s.files <==> fd in t.files) && (fd in s.files && fd in t.files ==> s.files[fd] == t.files[fd])
    && (fd in s.locks <==> fd in t.locks) && (fd in s.locks && fd in t.locks ==> s.locks[fd] == t.locks[fd])
  }

  /** A process whose own open files are untouched is untouched, unless it relies on the path. */
  lemma Undisturbed(s: State, t: State, me: Proc)
    requires ProcOk(s, me)
    requires forall fd :: fd in Fds(me.pc) ==> SameFor(s, t, fd)
    requires t.path == s.path || !(me.pc.Held? || me.pc.Unlinking?)
    ensures ProcOk(t, me)
  {
    forall fd | fd in Fds(me.pc) ensures fd in t.files.Keys {
      assert SameFor(s, t, fd);
    }
  }

  /** A step of p touches no open file of another process. */
  lemma OnlyOwnFiles(s: State, p: int, a: Action, q: int, fd: int)
    requires Inv(s) && Enabled(s, p, a) && q in s.procs && q != p && fd in Fds(s.procs[q].pc)
    ensures SameFor(s, After(s, p, a), fd)
  {
    assert fd !in Fds(s.procs[p].pc);
    assert ProcOk(s, s.procs[q]);
  }

  /** Only one process at a time can rely on the path while another is about to unlink it. */
  lemma Alone(s: State, p: int, q: int)
    requires Inv(s) && p in s.procs && q in s.procs && p != q
    requires s.procs[p].pc.Unlinking?
    ensures !s.procs[q].pc.Held? && !s.procs[q].pc.Unlinking?
  {
    var me, other := s.procs[p], s.procs[q];
    assert ProcOk(s, me) && ProcOk(s, other);
    assert Fds(me.pc) !! Fds(other.pc);
  }

  lemma PathKept(s: State, p: int, a: Action, q: int)
    requires Inv(s) && Enabled(s, p, a) && q in s.procs && q != p
    ensures After(s, p, a).path == s.path || !(s.procs[q].pc.Held? || s.procs[q].pc.Unlinking?)
  {
    assert ProcOk(s, s.procs[q]);
    if a.Unlink? {
      Alone(s, p, q);
    }
  }

  lemma OthersOk(s: State, p: int, a: Action, q: int)
    requires Inv(s) && Enabled(s, p, a) && q in s.procs && q != p
    ensures After(s, p, a).procs[q] == s.procs[q]
    ensures ProcOk(After(s, p, a), s.procs[q])
  {
    PathKept(s, p, a, q);
    forall fd | fd in Fds(s.procs[q].pc) ensures SameFor(s, After(s, p, a), fd) {
      OnlyOwnFiles(s, p, a, q, fd);
    }
    Undisturbed(s, After(s, p, a), s.procs[q]);
  }

  lemma MeOk(s: State, p: int, a: Action)
    requires Inv(s) && Enabled(s, p, a)
    ensures ProcOk(After(s, p, a), After(s, p, a).procs[p])
  {
    assert ProcOk(s, s.procs[p]);
  }

  lemma StillCompatible(s: State, p: int, a: Action)
    requires Inv(s) && Enabled(s, p, a)
    ensures Compatible(After(s, p, a))
  {
    assert ProcOk(s, s.procs[p]);
  }

  lemma StillDisjoint(s: State, p: int, a: Action, q: int)
    requires Inv(s) && Enabled(s, p, a) && q in s.procs && q != p
    ensures Fds(After(s, p, a).procs[p].pc) !! Fds(s.procs[q].pc)
  {
    assert ProcOk(s, s.procs[q]) && ProcOk(s, s.procs[p]);
    assert Fds(s.procs[p].pc) !! Fds(s.procs[q].pc);
  }

  lemma StillHasOwner(s: State, p: int, a: Action, f: int)
    requires Inv(s) && Enabled(s, p, a) && f in After(s, p, a).locks
    ensures f in After(s, p, a).files && HasOwner(After(s, p, a), f)
  {
    var t := After(s, p, a);
    assert ProcOk(s, s.procs[p]);
    assert p in t.procs;
    if f !in Fds(t.procs[p].pc) {
      var q :| q in s.procs && f in Fds(s.procs[q].pc);
      assert q != p;
      assert q in t.procs && t.procs[q] == s.procs[q];
    }
  }

  lemma StepKeeps(s: State, p: int, a: Action)
    requires Inv(s) && Enabled(s, p, a)
    ensures Inv(After(s, p, a))
  {
    var t := After(s, p, a);
    OwnedKeeps(s, p, a);
    StillCompatible(s, p, a);
    forall q | q in t.procs ensures ProcOk(t, t.procs[q]) {
      if q == p {
        MeOk(s, p, a);
      } else {
        OthersOk(s, p, a, q);
      }
    }
  }

  lemma OwnedKeeps(s: State, p: int, a: Action)
    requires Inv(s) && Enabled(s, p, a)
    ensures Owned(After(s, p, a))
  {
    var t := After(s, p, a);
    forall f | f in t.locks ensures f in t.files && HasOwner(t, f) {
      StillHasOwner(s, p, a, f);
    }
    forall q, r | q in t.procs && r in t.procs && q != r ensures Fds(t.procs[q].pc) !! Fds(t.procs[r].pc) {
      if q == p {
        StillDisjoint(s, p, a, r);
      } else if r == p {
        StillDisjoint(s, p, a, q);
      } else {
        assert t.procs[q] == s.procs[q] && t.procs[r] == s.procs[r];
      }
    }
  }

  // ----- whole runs

  ghost predicate Step(s: State, t: State) {
    exists p, a :: Enabled(s, p, a) && t == After(s, p, a)
  }

  ghost predicate Run(run: seq<State>) {
    && |run| > 0 && Init(run[0])
    && forall i :: 0 < i < |run| ==> Step(run[i - 1], run[i])
  }

  lemma {:induction false} Reachable(run: seq<State>, i: nat)
    requires Run(run) && i < |run|
    ensures Inv(run[i])
  {
    if i == 0 {
      InitInv(run[0]);
    } else {
      Reachable(run, i - 1);
      assert Step(run[i - 1], run[i]);
      var p, a :| Enabled(run[i - 1], p, a) && run[i] == After(run[i - 1], p, a);
      StepKeeps(run[i - 1], p, a);
    }
  }

  /** Between the return of lockfile and the unlink of unlockfile. */
  ghost predicate Holds(s: State, p: int) {
    p in s.procs && (s.procs[p].pc.Held? || s.procs[p].pc.Unlinking?)
  }

  /** Two processes that hold the lock at the same time both hold it shared; and the path names the file of a holder. */
  lemma MutualExclusion(run: seq<State>, i: nat, p: int, q: int)
    requires Run(run) && i < |run| && Holds(run[i], p)
    ensures var fd := run[i].procs[p].pc.fd; fd in run[i].locks && OnDisk(run[i], fd)
    ensures Holds(run[i], q) && q != p ==>
              && run[i].procs[p].pc.Held? && run[i].procs[p].mode == Shared
              && run[i].procs[q].pc.Held? && run[i].procs[q].mode == Shared
  {
    var s := run[i];
    Reachable(run, i);
    assert ProcOk(s, s.procs[p]);
    if Holds(s, q) && q != p {
      assert ProcOk(s, s.procs[q]);
      assert Fds(s.procs[p].pc) !! Fds(s.procs[q].pc);
    }
  }

  /** Releasing the lock removes the file that was locked, and nobody else holds a lock on it. */
  lemma UnlinksItsOwn(run: seq<State>, i: nat, p: int)
    requires Run(run) && i < |run| && Enabled(run[i], p, Unlink)
    ensures OnDisk(run[i], run[i].procs[p].pc.fd)
    ensures forall g :: g in run[i].locks && OnDisk(run[i], g) ==> g == run[i].procs[p].pc.fd
  {
    Reachable(run, i);
    assert ProcOk(run[i], run[i].procs[p]);
  }

  /** lockfile fails only for a caller that asked it not to retry. */
  lemma FailsOnlyWithoutRetry(run: seq<State>, i: nat, p: int, a: Action)
    requires Run(run) && i < |run| && Enabled(run[i], p, a) && a != Crash && a != Shut
    requires After(run[i], p, a).procs[p].pc == Idle
    ensures !run[i].procs[p].retry
  {
    Reachable(run, i);
    assert ProcOk(run[i], run[i].procs[p]);
  }

  // ----- nobody waits for nobody

  lemma Unused(s: set<int>) returns (x: int)
    ensures x !in s && forall y :: y in s ==> y < x
  {
    x := 0;
    if s != {} {
      var y := Finite.AnyOf(s);
      var z := Unused(s - {y});
      x := if z > y then z else y + 1;
      forall w | w in s ensures w < x {
        assert w == y || w in s - {y};
      }
    }
  }

  /** The steps that carry lockfile or unlockfile on. */
  ghost predicate Progress(a: Action) {
    !a.Call? && !a.OpenFails? && !a.FlockFails? && !a.PromoteFails? && !a.Crash?
  }

  ghost predicate CanMove(s: State, p: int) {
    exists a :: Progress(a) && Enabled(s, p, a)
  }

  lemma Moves(s: State, p: int)
    requires Inv(s) && p in s.procs
    requires !s.procs[p].pc.Idle? && !s.procs[p].pc.Locking? && !s.procs[p].pc.Held?
    ensures CanMove(s, p)
  {
    assert ProcOk(s, s.procs[p]);
    match s.procs[p].pc {
      case Opening(_) =>
        var fd := Unused(s.files.Keys);
        var inode := Unused(s.files.Values);
        assert Enabled(s, p, Open(fd, if s.path.Some? then s.path.value else inode));
      case Rebinding(_, _) => assert Enabled(s, p, DropOld);
      case Checking(_) => assert Enabled(s, p, Exists);
      case Statting(_) => assert Enabled(s, p, Stat);
      case Closing(_) => assert Enabled(s, p, Close);
      case Abandoning(_) => assert Enabled(s, p, Abandon);
      case Unlinking(_) => assert Enabled(s, p, Unlink);
      case Unlocking(_) => assert Enabled(s, p, Unlock);
      case Shutting(_) => assert Enabled(s, p, Shut);
    }
  }

  /** Where every process at work waits in flock, no lock is left to wait for. */
  lemma AllWaiting(s: State, p: int)
    requires Inv(s) && p in s.procs && s.procs[p].pc.Locking?
    requires forall q :: q in s.procs ==> s.procs[q].pc.Idle? || s.procs[q].pc.Locking?
    ensures CanMove(s, p)
  {
    assert ProcOk(s, s.procs[p]);
    forall q, g | q in s.procs && g in Fds(s.procs[q].pc) ensures g !in s.locks {
      assert ProcOk(s, s.procs[q]);
    }
    assert forall g :: g in s.locks ==> HasOwner(s, g);
    assert Enabled(s, p, Flock);
  }

  /** No deadlock: while some process is at work, one of them holds the lock or can move. */
  lemma NoDeadlock(run: seq<State>, i: nat, p: int)
    requires Run(run) && i < |run| && p in run[i].procs && !run[i].procs[p].pc.Idle?
    ensures exists q :: q in run[i].procs && (run[i].procs[q].pc.Held? || CanMove(run[i], q))
  {
    var s := run[i];
    Reachable(run, i);
    if q :| q in s.procs && !s.procs[q].pc.Idle? && !s.procs[q].pc.Locking? {
      if !s.procs[q].pc.Held? {
        Moves(s, q);
      }
    } else {
      AllWaiting(s, p);
    }
  }

  // ----- the lock is got, and given back

  /** p takes a step of lockfile or unlockfile in which no system call fails. */
  ghost predicate StepBy(s: State, p: int, t: State) {
    exists a :: Progress(a) && Enabled(s, p, a) && t == After(s, p, a)
  }

  /** Nobody else comes in between: each state follows from the one before by a step of p. */
  ghost predicate OnItsOwn(run: seq<State>, p: int) {
    |run| > 0 && forall i :: 0 < i < |run| ==> StepBy(run[i - 1], p, run[i])
  }

  /** No lock on the file that the path names stands against one in the given mode. */
  ghost predicate Free(s: State, mode: Mode) {
    forall g :: g in s.locks && OnDisk(s, g) ==> mode == Shared && s.locks[g] == Shared
  }

  /** A process that asks for the lock, and has not opened the file. */
  ghost predicate Asks(s: State, p: int, mode: Mode) {
    p in s.procs && s.procs[p].pc == Opening(None) && s.procs[p].mode == mode
  }

  ghost predicate HasLock(s: State, p: int, mode: Mode) {
    p in s.procs && s.procs[p].pc.Held? && LockedAs(s, s.procs[p].pc.fd, mode) && OnDisk(s, s.procs[p].pc.fd)
  }

  lemma Called(s: State, p: int, mode: Mode, retry: bool)
    requires Enabled(s, p, Call(mode, retry)) && Free(s, mode)
    ensures var t := After(s, p, Call(mode, retry)); Asks(t, p, mode) && Free(t, mode) && t.procs[p].retry == retry
  {
    var t := After(s, p, Call(mode, retry));
    assert forall g :: OnDisk(t, g) <==> OnDisk(s, g);
  }

  lemma Opened(s: State, p: int, mode: Mode, t: State)
    requires Inv(s) && Asks(s, p, mode) && Free(s, mode) && StepBy(s, p, t)
    ensures Inv(t) && p in t.procs && t.procs[p].mode == mode && t.procs[p].pc.Locking?
    ensures var fd := t.procs[p].pc.fd; OnDisk(t, fd) && Grantable(t, fd, mode)
  {
    var a :| Progress(a) && Enabled(s, p, a) && t == After(s, p, a);
    StepKeeps(s, p, a);
    var fd := t.procs[p].pc.fd;
    forall g | g in t.locks && g in t.files && g != fd && t.files[g] == t.files[fd]
      ensures mode == Shared && t.locks[g] == Shared
    {
      assert g in s.locks && g in s.files;
      assert s.files[g] in s.files.Values;
      assert OnDisk(s, g);
    }
  }

  lemma GotIt(s: State, p: int, mode: Mode, run: seq<State>)
    requires Inv(s) && p in s.procs && s.procs[p].mode == mode && s.procs[p].pc.Locking?
      && OnDisk(s, s.procs[p].pc.fd)
    requires OnItsOwn(run, p) && |run| == 4 && run[0] == s
    ensures HasLock(run[3], p, mode)
  {
    assert StepBy(run[0], p, run[1]) && StepBy(run[1], p, run[2]) && StepBy(run[2], p, run[3]);
  }

  /**
   * A caller that nobody interrupts gets a lock that is free, in the mode that it
   * asked for, when it has opened, locked and checked the file; and at no point
   * on the way is it stuck.
   */
  lemma UncontendedSucceeds(before: seq<State>, i: nat, run: seq<State>, p: int, mode: Mode, retry: bool)
    requires Run(before) && i < |before| && Enabled(before[i], p, Call(mode, retry)) && Free(before[i], mode)
    requires run != [] && run[0] == After(before[i], p, Call(mode, retry)) && OnItsOwn(run, p)
    ensures |run| <= 4 ==> CanMove(run[|run| - 1], p)
    ensures |run| == 5 ==> HasLock(run[4], p, mode)
  {
    hide Inv;
    hide After;
    hide Enabled;
    hide Run;
    hide StepBy;
    hide OnItsOwn;
    Reachable(before, i);
    StepKeeps(before[i], p, Call(mode, retry));
    Called(before[i], p, mode, retry);
    if |run| == 1 {
      Moves(run[0], p);
    } else {
      Steps(run, p, 1);
      Opened(run[0], p, mode, run[1]);
      OnItsOwnTail(run, p);
      GetsIt(run[1..], p, mode);
    }
  }

  lemma GetsIt(run: seq<State>, p: int, mode: Mode)
    requires OnItsOwn(run, p) && Inv(run[0]) && p in run[0].procs && run[0].procs[p].mode == mode
    requires run[0].procs[p].pc.Locking? && OnDisk(run[0], run[0].procs[p].pc.fd)
      && Grantable(run[0], run[0].procs[p].pc.fd, mode)
    ensures |run| <= 3 ==> CanMove(run[|run| - 1], p)
    ensures |run| == 4 ==> HasLock(run[3], p, mode)
  {
    hide Inv;
    if |run| == 1 {
      assert Enabled(run[0], p, Flock);
    } else if |run| <= 3 {
      Steps(run, p, 1);
      OwnStepKeeps(run[0], p, run[1]);
      if |run| == 3 {
        Steps(run, p, 2);
        OwnStepKeeps(run[1], p, run[2]);
      }
      Moves(run[|run| - 1], p);
    } else if |run| == 4 {
      GotIt(run[0], p, mode, run);
    }
  }

  lemma OnItsOwnTail(run: seq<State>, p: int)
    requires OnItsOwn(run, p) && |run| > 1
    ensures OnItsOwn(run[1..], p)
  {
    forall i | 0 < i < |run[1..]| ensures StepBy(run[1..][i - 1], p, run[1..][i]) {
      assert StepBy(run[i], p, run[i + 1]);
    }
  }

  lemma OwnStepKeeps(s: State, p: int, t: State)
    requires Inv(s) && StepBy(s, p, t)
    ensures Inv(t)
  {
    var a :| Progress(a) && Enabled(s, p, a) && t == After(s, p, a);
    StepKeeps(s, p, a);
  }

  lemma StepAt(run: seq<State>, i: nat)
    requires Run(run) && 0 < i < |run|
    ensures Step(run[i - 1], run[i])
  {
  }

  lemma CheckStep(s: State, p: int, a: Action)
    requires Inv(s) && Enabled(s, p, a) && After(s, p, a).procs[p] != s.procs[p]
    ensures var t := After(s, p, a);
      && (t.procs[p].pc.Held? <==> s.procs[p].pc.Statting? && !t.procs[p].pc.Idle? && OnDisk(s, s.procs[p].pc.fd))
      && (t.procs[p].pc.Held? ==> HasLock(t, p, s.procs[p].mode) && t.procs[p].mode == s.procs[p].mode)
  {
    assert ProcOk(s, s.procs[p]);
    hide Inv;
  }

  /**
   * Whoever else runs: a step gives p the lock exactly if p looks at the path and
   * finds there the file that it has locked.
   */
  lemma CheckDecides(run: seq<State>, i: nat, p: int)
    requires Run(run) && 0 < i < |run| && p in run[i - 1].procs && p in run[i].procs
    requires run[i].procs[p] != run[i - 1].procs[p]
    ensures run[i].procs[p].pc.Held? <==>
      && run[i - 1].procs[p].pc.Statting? && !run[i].procs[p].pc.Idle? && OnDisk(run[i - 1], run[i - 1].procs[p].pc.fd)
    ensures run[i].procs[p].pc.Held? ==>
      HasLock(run[i], p, run[i - 1].procs[p].mode) && run[i].procs[p].mode == run[i - 1].procs[p].mode
  {
    hide Run;
    hide Inv;
    hide After;
    hide Enabled;
    Reachable(run, i - 1);
    StepAt(run, i);
    var q, a :| Enabled(run[i - 1], q, a) && run[i] == After(run[i - 1], q, a);
    if q == p {
      CheckStep(run[i - 1], p, a);
    } else {
      OthersOk(run[i - 1], q, a, p);
    }
  }

  /** How far lockfile can still be from an answer if it does not retry. */
  ghost function Distance(pc: Pc): nat {
    match pc
    case Opening(_) => 6
    case Rebinding(_, _) => 5
    case Locking(_) => 4
    case Checking(_) => 3
    case Statting(_) => 2
    case Closing(_) => 1
    case Abandoning(_) => 1
    case _ => 0
  }

  /** A caller that asked not to retry has its answer, the lock or nothing, after at most six steps of its own. */
  lemma AnsweredSoon(s: State, p: int, a: Action)
    requires Enabled(s, p, a) && !s.procs[p].retry && Distance(s.procs[p].pc) > 0
    ensures var t := After(s, p, a); Distance(t.procs[p].pc) < Distance(s.procs[p].pc) && !t.procs[p].retry
    ensures Distance(After(s, p, a).procs[p].pc) == 0 ==>
      After(s, p, a).procs[p].pc.Idle? || After(s, p, a).procs[p].pc.Held?
  {
  }

  /** Nothing of p is open or locked any more. */
  ghost predicate LetGo(s: State, p: int, fd: int) {
    p in s.procs && s.procs[p].pc == Idle && fd !in s.files && fd !in s.locks
  }

  /** Another process has a lock on the file too. */
  ghost predicate SharedWith(s: State, fd: int) {
    exists g :: g in s.locks && g != fd && OnDisk(s, g)
  }

  ghost predicate IsHeld(s: State, p: int) {
    p in s.procs && s.procs[p].pc.Held?
  }

  /**
   * unlockfile by a holder that nobody interrupts and that shares the lock with
   * nobody: it is promoted, removes the file, unlocks and closes it, and the path
   * names nothing then.
   */
  lemma AloneRemoves(before: seq<State>, i: nat, run: seq<State>, p: int)
    requires Run(before) && i < |before| && run != [] && run[0] == before[i] && IsHeld(run[0], p)
    requires OnItsOwn(run, p) && !SharedWith(run[0], run[0].procs[p].pc.fd)
    ensures |run| <= 4 ==> CanMove(run[|run| - 1], p)
    ensures |run| == 5 ==> LetGo(run[4], p, run[0].procs[p].pc.fd) && run[4].path == None
  {
    hide Inv;
    hide After;
    hide Enabled;
    hide OnItsOwn;
    hide Run;
    hide StepBy;
    Reachable(before, i);
    var s, fd := run[0], run[0].procs[p].pc.fd;
    Promotable(s, p);
    if |run| >= 2 {
      Steps(run, p, 1);
      OwnSteps(run[0], p, run[1]);
    }
    if |run| >= 3 {
      Steps(run, p, 2);
      OwnSteps(run[1], p, run[2]);
    }
    if |run| >= 4 {
      Steps(run, p, 3);
      OwnSteps(run[2], p, run[3]);
    }
    if |run| >= 5 {
      Steps(run, p, 4);
      OwnSteps(run[3], p, run[4]);
    } else if |run| >= 2 {
      Moves(run[|run| - 1], p);
    }
  }

  lemma Steps(run: seq<State>, p: int, i: int)
    requires OnItsOwn(run, p) && 0 < i < |run|
    ensures StepBy(run[i - 1], p, run[i])
  {
  }

  lemma Promotable(s: State, p: int)
    requires Inv(s) && IsHeld(s, p)
    ensures Enabled(s, p, Promote) <==> !SharedWith(s, s.procs[p].pc.fd)
    ensures !SharedWith(s, s.procs[p].pc.fd) ==> CanMove(s, p)
  {
    assert ProcOk(s, s.procs[p]);
    if Enabled(s, p, Promote) {
      assert CanMove(s, p);
    }
  }

  /** The steps of unlockfile in which no system call fails. */
  lemma OwnSteps(s: State, p: int, t: State)
    requires Inv(s) && StepBy(s, p, t)
    ensures Inv(t) && p in t.procs
    ensures var pc, pc' := s.procs[p].pc, t.procs[p].pc;
      && (pc.Held? ==> pc' == Unlinking(pc.fd))
      && (pc.Unlinking? ==> pc' == Unlocking(pc.fd) && t.path == None && t.locks == s.locks)
      && (pc.Unlocking? ==> pc' == Shutting(pc.fd) && t.path == s.path && t.locks == s.locks - {pc.fd})
      && (pc.Shutting? ==> LetGo(t, p, pc.fd) && t.path == s.path && t.locks == s.locks)
  {
    var a :| Progress(a) && Enabled(s, p, a) && t == After(s, p, a);
    StepKeeps(s, p, a);
    assert ProcOk(s, s.procs[p]);
    hide Inv;
  }

  /**
   * One that shares the lock cannot be promoted; it unlocks and closes the file,
   * and leaves the path and the locks of the others alone.
   */
  lemma SharerLeaves(before: seq<State>, i: nat, run: seq<State>, p: int)
    requires Run(before) && i < |before| && IsHeld(before[i], p) && SharedWith(before[i], before[i].procs[p].pc.fd)
    requires run != [] && run[0] == After(before[i], p, PromoteFails) && OnItsOwn(run, p)
    ensures !Enabled(before[i], p, Promote)
    ensures |run| <= 2 ==> CanMove(run[|run| - 1], p)
    ensures |run| == 3 ==>
      var fd := before[i].procs[p].pc.fd;
      LetGo(run[2], p, fd) && run[2].path == before[i].path && run[2].locks == before[i].locks - {fd}
  {
    hide Inv;
    hide OnItsOwn;
    hide Run;
    hide StepBy;
    Reachable(before, i);
    Promotable(before[i], p);
    StepKeeps(before[i], p, PromoteFails);
    if |run| >= 2 {
      Steps(run, p, 1);
      OwnSteps(run[0], p, run[1]);
    }
    if |run| >= 3 {
      Steps(run, p, 2);
      OwnSteps(run[1], p, run[2]);
    } else {
      Moves(run[|run| - 1], p);
    }
  }
}
