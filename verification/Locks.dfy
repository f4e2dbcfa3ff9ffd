/**
 * The setup guard and the interface lock, over any number of processes. A lock belongs to an open file
 * description, is shared by every process that inherited it, and goes with its last holder.
 */
module Locks {
  import opened Wrappers

  type Pid = nat
  type Ofd = nat

  datatype Mode = Shared | Exclusive

  /** Where a process is: a runtime up to its cleanup, a setup with its lease, or any other child. */
  datatype Pc =
    | Started
    | GuardOpen     // the guard opened, not yet locked
    | ProbeOpen     // adopting: a second descriptor on the guard opened
    | ProbeGranted  // the probe got a shared lock, so the lease is refused
    | ProbeRefused  // the probe was refused, as it must be under a real lease
    | Guarded
    | LockOpen
    | Critical
    | LockClosed
    | SetupStarted
    | LeaseOpen
    | Leased
    | Probing       // setup holds the interface lock for a moment to see that nobody else does
    | Unlocked
    | Helper
    | Finished

  datatype Proc = Proc(
    pc: Pc,
    fds: set<Ofd>,
    guard: Option<Ofd>,
    lock: Option<Ofd>,
    lease: Option<Ofd>,
    probe: Option<Ofd>,
    adopted: bool)

  /** `own` are the descriptions of the guard that runtimes opened for themselves, as guard or as probe. */
  datatype Kernel = Kernel(
    procs: map<Pid, Proc>,
    guardLocks: map<Ofd, Mode>,
    faceLocks: set<Ofd>,
    own: set<Ofd>,
    next: Ofd)

  // ---------------------------------------------------------------- kernel

  predicate Live(procs: map<Pid, Proc>, o: Ofd) {
    exists p :: p in procs && o in procs[p].fds
  }

  function Put(k: Kernel, p: Pid, proc: Proc): Kernel {
    k.(procs := k.procs[p := proc])
  }

  /** Locks of descriptions nobody holds any more are gone. */
  function Reaped(k: Kernel): Kernel {
    k.(guardLocks := map o | o in k.guardLocks && Live(k.procs, o) :: k.guardLocks[o],
       faceLocks := set o | o in k.faceLocks && Live(k.procs, o))
  }

  function Close(k: Kernel, p: Pid, o: Ofd): Kernel
    requires p in k.procs
  {
    Reaped(Put(k, p, k.procs[p].(fds := k.procs[p].fds - {o})))
  }

  predicate MayShare(k: Kernel, o: Ofd) {
    forall a :: a in k.guardLocks && a != o ==> k.guardLocks[a] == Shared
  }

  predicate MayExclude(k: Kernel, o: Ofd) {
    forall a :: a in k.guardLocks ==> a == o
  }

  predicate MayLock(k: Kernel, o: Ofd) {
    forall a :: a in k.faceLocks ==> a == o
  }

  // ----------------------------------------------------------------- steps

  datatype Step =
    | Launch(q: Pid, setup: bool)
    | Fork(p: Pid, q: Pid, inherited: set<Ofd>, lease: Option<Ofd>)
    | OpenGuard(p: Pid)
    | ShareGuard(p: Pid)
    | OpenProbe(p: Pid)
    | ShareProbe(p: Pid)
    | Adopt(p: Pid)
    | OpenLock(p: Pid)
    | TakeLock(p: Pid)
    | CloseLock(p: Pid)
    | CloseGuard(p: Pid)
    | OpenLease(p: Pid)
    | TakeLease(p: Pid)
    | StartProbe(p: Pid)
    | EndProbe(p: Pid)
    | Unlock(p: Pid)
    | Leave(p: Pid)
    | Die(p: Pid)

  const Blank := Proc(Started, {}, None, None, None, None, false)

  predicate PastGuard(pc: Pc) {
    pc == Guarded || pc == LockOpen || pc == Critical || pc == LockClosed
  }

  predicate HoldsLease(pc: Pc) {
    pc == Leased || pc == Probing
  }

  /** No other process still relies on the lease. */
  predicate ChildrenEnded(k: Kernel, p: Pid, o: Ofd) {
    forall q :: q in k.procs && q != p && k.procs[q].guard == Some(o) ==> !PastGuard(k.procs[q].pc)
  }

  /** A setup gives its lease up only after the children it gave it to: it waits for each runtime it calls. */
  predicate Waits(k: Kernel, s: Step) {
    s.Unlock? && Enabled(k, s) ==> ChildrenEnded(k, s.p, k.procs[s.p].lease.value)
  }

  predicate Enabled(k: Kernel, s: Step) {
    match s
    case Launch(q, _) => q !in k.procs
    case Fork(p, q, inherited, lease) =>
      && p in k.procs && q !in k.procs && inherited <= k.procs[p].fds
      && (lease.Some? ==> lease.value in inherited && lease.value !in k.own)
    case OpenGuard(p) => p in k.procs && k.procs[p].pc == Started && k.procs[p].lease.None?
    case ShareGuard(p) => p in k.procs && k.procs[p].pc == GuardOpen && k.procs[p].guard.Some?
    case OpenProbe(p) => p in k.procs && k.procs[p].pc == Started && k.procs[p].lease.Some?
    case ShareProbe(p) => p in k.procs && k.procs[p].pc == ProbeOpen && k.procs[p].probe.Some?
    case Adopt(p) => p in k.procs && k.procs[p].pc == ProbeRefused && k.procs[p].probe.Some? && k.procs[p].lease.Some?
    case OpenLock(p) => p in k.procs && k.procs[p].pc == Guarded
    case TakeLock(p) => p in k.procs && k.procs[p].pc == LockOpen && k.procs[p].lock.Some?
    case CloseLock(p) => p in k.procs && (k.procs[p].pc == Critical || k.procs[p].pc == LockOpen)
        && k.procs[p].lock.Some?
    case CloseGuard(p) => p in k.procs && (k.procs[p].pc == LockClosed || k.procs[p].pc == Guarded)
        && k.procs[p].guard.Some?
    case OpenLease(p) => p in k.procs && k.procs[p].pc == SetupStarted
    case TakeLease(p) => p in k.procs && k.procs[p].pc == LeaseOpen && k.procs[p].lease.Some?
    case StartProbe(p) => p in k.procs && k.procs[p].pc == Leased
    case EndProbe(p) => p in k.procs && k.procs[p].pc == Probing && k.procs[p].lock.Some?
    case Unlock(p) => p in k.procs && k.procs[p].pc == Leased && k.procs[p].lease.Some?
    case Leave(p) => p in k.procs && (k.procs[p].pc == Unlocked || k.procs[p].pc == ProbeGranted)
    case Die(p) => p in k.procs
  }

  /** A new description in the next free number, held by `p` alone. */
  function Opened(k: Kernel, p: Pid, proc: Proc): Kernel {
    Put(k, p, proc.(fds := proc.fds + {k.next})).(next := k.next + 1)
  }

  function Finish(k: Kernel, p: Pid): Kernel
    requires p in k.procs
  {
    Reaped(Put(k, p, k.procs[p].(pc := Finished, fds := {})))
  }

  function Apply(k: Kernel, s: Step): Kernel
    requires Enabled(k, s)
  {
    match s
    case Launch(q, setup) => Put(k, q, Blank.(pc := if setup then SetupStarted else Started))
    case Fork(p, q, inherited, lease) =>
      Put(k, q, Blank.(pc := if lease.Some? then Started else Helper, fds := inherited, lease := lease))
    case OpenGuard(p) =>
      Opened(k, p, k.procs[p].(pc := GuardOpen, guard := Some(k.next))).(own := k.own + {k.next})
    case ShareGuard(p) =>
      var o := k.procs[p].guard.value;
      if MayShare(k, o) then Put(k, p, k.procs[p].(pc := Guarded)).(guardLocks := k.guardLocks[o := Shared])
      else Finish(k, p)
    case OpenProbe(p) =>
      Opened(k, p, k.procs[p].(pc := ProbeOpen, probe := Some(k.next))).(own := k.own + {k.next})
    case ShareProbe(p) =>
      var o := k.procs[p].probe.value;
      if MayShare(k, o) then Put(k, p, k.procs[p].(pc := ProbeGranted)).(guardLocks := k.guardLocks[o := Shared])
      else Put(k, p, k.procs[p].(pc := ProbeRefused))
    case Adopt(p) =>
      var o := k.procs[p].lease.value;
      if MayExclude(k, o) then
        var m := Put(k, p, k.procs[p].(pc := Guarded, guard := Some(o), adopted := true));
        Close(m.(guardLocks := k.guardLocks[o := Exclusive]), p, k.procs[p].probe.value)
      else Finish(k, p)
    case OpenLock(p) => Opened(k, p, k.procs[p].(pc := LockOpen, lock := Some(k.next)))
    case TakeLock(p) =>
      var o := k.procs[p].lock.value;
      if MayLock(k, o) then Put(k, p, k.procs[p].(pc := Critical)).(faceLocks := k.faceLocks + {o})
      else Close(Put(k, p, k.procs[p].(pc := LockClosed)), p, o)
    case CloseLock(p) => Close(Put(k, p, k.procs[p].(pc := LockClosed)), p, k.procs[p].lock.value)
    case CloseGuard(p) => Finish(k, p)
    case OpenLease(p) => Opened(k, p, k.procs[p].(pc := LeaseOpen, lease := Some(k.next)))
    case TakeLease(p) =>
      var o := k.procs[p].lease.value;
      if MayExclude(k, o) then Put(k, p, k.procs[p].(pc := Leased)).(guardLocks := k.guardLocks[o := Exclusive])
      else Finish(k, p)
    case StartProbe(p) =>
      if MayLock(k, k.next) then
        Opened(k, p, k.procs[p].(pc := Probing, lock := Some(k.next))).(faceLocks := k.faceLocks + {k.next})
      else k
    case EndProbe(p) =>
      var o := k.procs[p].lock.value;
      Close(Put(k, p, k.procs[p].(pc := Leased)).(faceLocks := k.faceLocks - {o}), p, o)
    case Unlock(p) =>
      Put(k, p, k.procs[p].(pc := Unlocked)).(guardLocks := k.guardLocks - {k.procs[p].lease.value})
    case Leave(p) => Finish(k, p)
    case Die(p) => Reaped(k.(procs := k.procs - {p}))
  }
}
