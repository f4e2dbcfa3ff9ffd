/** Exclusion between setup, the runtimes it starts and every other runtime. */
module LockLaws {
  import opened Wrappers
  import opened Locks

  /** An exclusive guard lock stands alone, and so does an interface lock. */
  predicate LocksAgree(k: Kernel) {
    && (forall o :: o in k.guardLocks && k.guardLocks[o] == Exclusive ==> forall a :: a in k.guardLocks ==> a == o)
    && (forall a, b :: a in k.faceLocks && b in k.faceLocks ==> a == b)
  }

  /** Locked descriptions are numbered below the next one, and no runtime's own one is locked exclusively. */
  predicate KernelNumbered(k: Kernel) {
    && (forall o :: o in k.guardLocks ==> o < k.next)
    && (forall o :: o in k.faceLocks ==> o < k.next)
    && (forall o :: o in k.own ==> o < k.next)
    && (forall o :: o in k.guardLocks && k.guardLocks[o] == Exclusive ==> o !in k.own)
  }

  predicate Below(n: Ofd, o: Option<Ofd>) {
    o.Some? ==> o.value < n
  }

  predicate Apart(own: set<Ofd>, o: Option<Ofd>) {
    o.Some? ==> o.value !in own
  }

  /** So are a process's descriptions, and its lease is not one a runtime opened for itself. */
  predicate Numbered(k: Kernel, proc: Proc) {
    && (forall o :: o in proc.fds ==> o < k.next)
    && Below(k.next, proc.lock) && Below(k.next, proc.guard) && Below(k.next, proc.lease) && Below(k.next, proc.probe)
    && Apart(k.own, proc.lease)
  }

  /** What a process at each place holds. */
  predicate HoldsWhatItNeeds(k: Kernel, proc: Proc) {
    && (proc.pc == GuardOpen ==>
          proc.guard.Some? && proc.guard.value in proc.fds && proc.guard.value in k.own && !proc.adopted)
    && (PastGuard(proc.pc) ==>
          && proc.guard.Some? && proc.guard.value in proc.fds && proc.guard.value in k.guardLocks
          && (if proc.adopted then proc.lease == proc.guard && k.guardLocks[proc.guard.value] == Exclusive
              else proc.guard.value in k.own && k.guardLocks[proc.guard.value] == Shared))
    && (proc.pc in {Started, GuardOpen, ProbeOpen, ProbeRefused, Guarded} ==> proc.lock.None?)
    && (proc.pc == ProbeOpen || proc.pc == ProbeRefused || proc.pc == Started ==>
          (proc.lease.Some? ==> proc.lease.value in proc.fds) && !proc.adopted)
    && (proc.pc == ProbeOpen || proc.pc == ProbeRefused ==>
          proc.probe.Some? && proc.probe.value in proc.fds && proc.probe.value in k.own && proc.lease.Some?)
    && (proc.pc == Critical || proc.pc == Probing ==>
          proc.lock.Some? && proc.lock.value in proc.fds && proc.lock.value in k.faceLocks)
    && (proc.pc == LockOpen ==> proc.lock.Some? && proc.lock.value in proc.fds)
    && (PastGuard(proc.pc) && proc.lock.Some? ==> proc.lock != proc.guard)
    && (proc.pc == LeaseOpen || HoldsLease(proc.pc) ==> proc.lease.Some? && proc.lease.value in proc.fds)
    && (HoldsLease(proc.pc) ==> proc.lease.value in k.guardLocks && k.guardLocks[proc.lease.value] == Exclusive)
    && (proc.pc == Probing ==> proc.lock != proc.lease)
  }

  /** Two processes never lock the interface through the same description. */
  predicate LocksApart(k: Kernel) {
    forall p, q :: p in k.procs && q in k.procs && p != q && k.procs[p].lock.Some? ==>
      k.procs[p].lock != k.procs[q].lock
  }

  predicate OpensLease(pc: Pc) {
    pc == LeaseOpen || HoldsLease(pc)
  }

  predicate LeaseApart(a: Proc, b: Proc) {
    OpensLease(a.pc) && OpensLease(b.pc) && a.lease.Some? ==> a.lease != b.lease
  }

  /** Every setup opened its own lease. */
  predicate LeasesApart(k: Kernel) {
    forall p, q :: p in k.procs && q in k.procs && p != q ==> LeaseApart(k.procs[p], k.procs[q])
  }

  predicate Inv(k: Kernel) {
    && LocksAgree(k) && KernelNumbered(k) && LocksApart(k) && LeasesApart(k)
    && forall p :: p in k.procs ==> HoldsWhatItNeeds(k, k.procs[p]) && Numbered(k, k.procs[p])
  }

  lemma HoldsOf(k: Kernel, p: Pid)
    requires Inv(k) && p in k.procs
    ensures HoldsWhatItNeeds(k, k.procs[p]) && Numbered(k, k.procs[p])
  {
    hide HoldsWhatItNeeds, Numbered;
  }

  // -------------------------------------------------------------- theorems

  /** While a setup holds its lease every runtime past the guard is one that adopted exactly that lease. */
  lemma SetupExcludesRuntimes(k: Kernel, s: Pid, p: Pid)
    requires Inv(k) && s in k.procs && p in k.procs && HoldsLease(k.procs[s].pc) && PastGuard(k.procs[p].pc)
    ensures k.procs[p].adopted && k.procs[p].guard == k.procs[s].lease
  {
    assert HoldsWhatItNeeds(k, k.procs[s]) && HoldsWhatItNeeds(k, k.procs[p]);
  }

  /** An adopted lease keeps ordinary runtimes out even when the setup that took it has died. */
  lemma AdoptedLeaseExcludesRuntimes(k: Kernel, a: Pid, p: Pid)
    requires Inv(k) && a in k.procs && p in k.procs && PastGuard(k.procs[a].pc) && k.procs[a].adopted
             && PastGuard(k.procs[p].pc)
    ensures k.procs[p].adopted && k.procs[p].guard == k.procs[a].guard
  {
    assert HoldsWhatItNeeds(k, k.procs[a]) && HoldsWhatItNeeds(k, k.procs[p]);
  }

  predicate InInterface(pc: Pc) {
    pc == Critical || pc == Probing
  }

  /** At most one process is in the interface's critical section. */
  lemma InterfaceIsExclusive(k: Kernel, p: Pid, q: Pid)
    requires Inv(k) && p in k.procs && q in k.procs && InInterface(k.procs[p].pc) && InInterface(k.procs[q].pc)
    ensures p == q
  {
    assert HoldsWhatItNeeds(k, k.procs[p]) && HoldsWhatItNeeds(k, k.procs[q]);
  }

  /** Whoever is in the critical section also holds the guard or the lease, and never lost it on the way. */
  lemma InterfaceHolderIsGuarded(k: Kernel, p: Pid)
    requires Inv(k) && p in k.procs && InInterface(k.procs[p].pc)
    ensures var held := if k.procs[p].pc == Probing then k.procs[p].lease else k.procs[p].guard;
            held.Some? && held.value in k.procs[p].fds && held.value in k.guardLocks
  {
    assert HoldsWhatItNeeds(k, k.procs[p]);
  }

  /** At most one setup holds the lease. */
  lemma LeaseIsExclusive(k: Kernel, s: Pid, t: Pid)
    requires Inv(k) && s in k.procs && t in k.procs && HoldsLease(k.procs[s].pc) && HoldsLease(k.procs[t].pc)
    ensures s == t
  {
    assert HoldsWhatItNeeds(k, k.procs[s]) && HoldsWhatItNeeds(k, k.procs[t]);
    assert s != t ==> LeaseApart(k.procs[s], k.procs[t]);
  }

  // ------------------------------------------------------------- invariant

  /** What the locks of one kernel give a process, those of the other still give it. */
  predicate StillHeld(k: Kernel, m: Kernel, proc: Proc) {
    && (PastGuard(proc.pc) && proc.guard.Some? && proc.guard.value in k.guardLocks ==>
          proc.guard.value in m.guardLocks && m.guardLocks[proc.guard.value] == k.guardLocks[proc.guard.value])
    && (HoldsLease(proc.pc) && proc.lease.Some? && proc.lease.value in k.guardLocks ==>
          proc.lease.value in m.guardLocks && m.guardLocks[proc.lease.value] == k.guardLocks[proc.lease.value])
    && (InInterface(proc.pc) && proc.lock.Some? && proc.lock.value in k.faceLocks ==> proc.lock.value in m.faceLocks)
  }

  lemma StillHolds(k: Kernel, m: Kernel, proc: Proc)
    requires HoldsWhatItNeeds(k, proc) && Numbered(k, proc) && StillHeld(k, m, proc)
    requires k.next <= m.next && k.own <= m.own && (forall o :: o in m.own && o !in k.own ==> o >= k.next)
    ensures HoldsWhatItNeeds(m, proc) && Numbered(m, proc)
  {
  }

  lemma SameLocks(k: Kernel, m: Kernel, proc: Proc)
    requires k.guardLocks == m.guardLocks && k.faceLocks == m.faceLocks && k.own == m.own && k.next == m.next
    ensures HoldsWhatItNeeds(k, proc) == HoldsWhatItNeeds(m, proc)
    ensures Numbered(k, proc) == Numbered(m, proc)
    ensures LocksAgree(k) == LocksAgree(m) && KernelNumbered(k) == KernelNumbered(m)
  {
  }

  lemma PutLocksApart(k: Kernel, m: Kernel, p: Pid, proc: Proc)
    requires LocksApart(k) && LeasesApart(k) && m.procs == k.procs[p := proc]
    requires forall q :: q in k.procs && q != p && proc.lock.Some? ==> proc.lock != k.procs[q].lock
    requires forall q :: q in k.procs && q != p ==> LeaseApart(proc, k.procs[q])
    ensures LocksApart(m) && LeasesApart(m)
  {
    forall a, b | a in m.procs && b in m.procs && a != b ensures LeaseApart(m.procs[a], m.procs[b]) {
      if a == p {
        assert LeaseApart(proc, k.procs[b]);
      } else if b == p {
        assert LeaseApart(proc, k.procs[a]);
      } else {
        assert LeaseApart(k.procs[a], k.procs[b]);
      }
    }
  }

  /** The locks change and then one process: the others keep what they hold, and nobody else locks through its
      descriptor. */
  lemma PutKeeps(k: Kernel, n: Kernel, p: Pid, proc: Proc)
    requires Inv(k) && n.procs == k.procs
    requires k.next <= n.next && k.own <= n.own && (forall o :: o in n.own && o !in k.own ==> o >= k.next)
    requires LocksAgree(n) && KernelNumbered(n) && HoldsWhatItNeeds(n, proc) && Numbered(n, proc)
    requires forall q :: q in k.procs && q != p ==> StillHeld(k, n, k.procs[q])
    requires forall q :: q in k.procs && q != p && proc.lock.Some? ==> proc.lock != k.procs[q].lock
    requires forall q :: q in k.procs && q != p ==> LeaseApart(proc, k.procs[q])
    ensures Inv(Put(n, p, proc))
  {
    var m := Put(n, p, proc);
    hide HoldsWhatItNeeds, Numbered, StillHeld, LocksAgree, KernelNumbered;
    forall q | q in m.procs ensures HoldsWhatItNeeds(m, m.procs[q]) && Numbered(m, m.procs[q]) {
      if q != p {
        StillHolds(k, n, k.procs[q]);
      }
      SameLocks(n, m, m.procs[q]);
    }
    SameLocks(n, m, proc);
    PutLocksApart(k, m, p, proc);
    hide LocksApart, LeasesApart, LeaseApart;
  }

  /** The process keeps its place among the setups. */
  predicate SameSetup(k: Kernel, p: Pid, proc: Proc) {
    OpensLease(proc.pc) ==> p in k.procs && OpensLease(k.procs[p].pc) && proc.lease == k.procs[p].lease
  }

  lemma StaysApart(k: Kernel, p: Pid, proc: Proc)
    requires Inv(k) && SameSetup(k, p, proc)
    ensures forall q :: q in k.procs && q != p ==> LeaseApart(proc, k.procs[q])
  {
    forall q | q in k.procs && q != p ensures LeaseApart(proc, k.procs[q]) {
      assert p in k.procs ==> LeaseApart(k.procs[p], k.procs[q]);
    }
  }

  lemma LiveBy(procs: map<Pid, Proc>, q: Pid, o: Ofd)
    requires q in procs && o in procs[q].fds
    ensures Live(procs, o)
  {
  }

  lemma ReapedHolds(k: Kernel, p: Pid)
    requires p in k.procs && HoldsWhatItNeeds(k, k.procs[p])
    ensures HoldsWhatItNeeds(Reaped(k), k.procs[p])
  {
    var proc := k.procs[p];
    forall o | o in proc.fds ensures Live(k.procs, o) {
      LiveBy(k.procs, p, o);
    }
    hide Live;
  }

  /** Reaping never takes a lock from a process that still holds its description. */
  lemma ReapedKeeps(k: Kernel)
    requires Inv(k)
    ensures Inv(Reaped(k))
  {
    var m := Reaped(k);
    forall p | p in m.procs ensures HoldsWhatItNeeds(m, m.procs[p]) && Numbered(m, m.procs[p]) {
      ReapedHolds(k, p);
      hide Live, HoldsWhatItNeeds;
    }
    hide HoldsWhatItNeeds, Numbered;
    assert LocksAgree(m) && KernelNumbered(m) by {
      hide Live, LocksApart, LeasesApart;
    }
    hide Live, LocksAgree, KernelNumbered;
  }

  /** A process moves on without opening or locking anything. */
  lemma MovedKeeps(k: Kernel, p: Pid, proc: Proc)
    requires Inv(k) && HoldsWhatItNeeds(k, proc) && Numbered(k, proc)
    requires if p in k.procs then proc.lock == k.procs[p].lock else proc.lock.None?
    requires SameSetup(k, p, proc)
    ensures Inv(Put(k, p, proc))
  {
    StaysApart(k, p, proc);
    hide HoldsWhatItNeeds, Numbered, LocksAgree, KernelNumbered, SameSetup, LeaseApart;
    PutKeeps(k, k, p, proc);
  }

  lemma NeedsNothing(k: Kernel, proc: Proc)
    requires proc.pc in {Finished, Helper, SetupStarted, Unlocked, ProbeGranted}
    ensures HoldsWhatItNeeds(k, proc)
  {
  }

  lemma FinishKeeps(k: Kernel, p: Pid)
    requires Inv(k) && p in k.procs
    ensures Inv(Finish(k, p))
  {
    var proc := k.procs[p].(pc := Finished, fds := {});
    assert Numbered(k, k.procs[p]);
    assert Numbered(k, proc);
    NeedsNothing(k, proc);
    hide HoldsWhatItNeeds, Numbered, Reaped;
    MovedKeeps(k, p, proc);
    ReapedKeeps(Put(k, p, proc));
  }

  lemma CloseKeeps(k: Kernel, p: Pid, o: Ofd)
    requires Inv(k) && p in k.procs
    requires HoldsWhatItNeeds(k, k.procs[p].(fds := k.procs[p].fds - {o}))
    ensures Inv(Close(k, p, o))
  {
    var proc := k.procs[p].(fds := k.procs[p].fds - {o});
    assert Numbered(k, k.procs[p]);
    assert Numbered(k, proc);
    hide HoldsWhatItNeeds, Numbered, Reaped;
    MovedKeeps(k, p, proc);
    ReapedKeeps(Put(k, p, proc));
  }

  lemma GoneKeeps(k: Kernel, p: Pid)
    requires Inv(k)
    ensures Inv(k.(procs := k.procs - {p}))
  {
    var m := k.(procs := k.procs - {p});
    hide Numbered, HoldsWhatItNeeds, LocksAgree, KernelNumbered;
    SameLocks(k, m, Blank);
    forall q | q in m.procs ensures HoldsWhatItNeeds(m, m.procs[q]) && Numbered(m, m.procs[q]) {
      SameLocks(k, m, k.procs[q]);
    }
    assert LocksApart(m) && LeasesApart(m) by {
      hide LeaseApart;
    }
    hide LocksApart, LeasesApart;
  }

  lemma DieKeeps(k: Kernel, p: Pid)
    requires Inv(k)
    ensures Inv(Reaped(k.(procs := k.procs - {p})))
  {
    hide Inv, Reaped;
    GoneKeeps(k, p);
    ReapedKeeps(k.(procs := k.procs - {p}));
  }

  // ---------------------------------------------------------- new openings

  lemma FreshlyApart(k: Kernel, p: Pid, proc: Proc)
    requires Inv(k) && p in k.procs
    requires proc.lock in {k.procs[p].lock, Some(k.next)}
    requires SameSetup(k, p, proc) || proc.lease == Some(k.next)
    ensures forall q :: q in k.procs && q != p && proc.lock.Some? ==> proc.lock != k.procs[q].lock
    ensures forall q :: q in k.procs && q != p ==> LeaseApart(proc, k.procs[q])
  {
    hide HoldsWhatItNeeds, KernelNumbered, LocksAgree;
    if SameSetup(k, p, proc) {
      StaysApart(k, p, proc);
    }
    forall q | q in k.procs && q != p
      ensures proc.lock.Some? ==> proc.lock != k.procs[q].lock
      ensures LeaseApart(proc, k.procs[q])
    {
      assert Numbered(k, k.procs[q]);
    }
  }

  lemma RoomKeeps(k: Kernel, own: set<Ofd>)
    requires LocksAgree(k) && KernelNumbered(k) && own in {k.own, k.own + {k.next}}
    ensures var n := k.(next := k.next + 1, own := own); LocksAgree(n) && KernelNumbered(n)
  {
  }

  lemma OpenedKeeps(k: Kernel, p: Pid, proc: Proc, own: set<Ofd>)
    requires Inv(k) && p in k.procs && own in {k.own, k.own + {k.next}}
    requires proc.lock in {k.procs[p].lock, Some(k.next)}
    requires SameSetup(k, p, proc) || proc.lease == Some(k.next)
    requires var m := Opened(k, p, proc).(own := own); HoldsWhatItNeeds(m, m.procs[p]) && Numbered(m, m.procs[p])
    ensures Inv(Opened(k, p, proc).(own := own))
  {
    hide HoldsWhatItNeeds, Numbered, LocksAgree, KernelNumbered, LeaseApart, LocksApart, LeasesApart, SameSetup;
    FreshlyApart(k, p, proc);
    RoomKeeps(k, own);
    var n := k.(next := k.next + 1, own := own);
    var grown := proc.(fds := proc.fds + {k.next});
    var m := Opened(k, p, proc).(own := own);
    assert m == Put(n, p, grown);
    SameLocks(m, n, grown);
    forall q | q in k.procs && q != p ensures LeaseApart(grown, k.procs[q]) {
      GrownApart(proc, grown, k.procs[q]);
    }
    PutKeeps(k, n, p, grown);
  }

  lemma GrownApart(proc: Proc, grown: Proc, other: Proc)
    requires LeaseApart(proc, other) && grown.pc == proc.pc && grown.lease == proc.lease
    ensures LeaseApart(grown, other)
  {
  }

  // ----------------------------------------------------------------- locks

  lemma SharedLocks(k: Kernel, o: Ofd)
    requires LocksAgree(k) && KernelNumbered(k) && MayShare(k, o) && o < k.next
    requires o in k.guardLocks ==> k.guardLocks[o] == Shared
    ensures var n := k.(guardLocks := k.guardLocks[o := Shared]); LocksAgree(n) && KernelNumbered(n)
    ensures var n := k.(guardLocks := k.guardLocks[o := Shared]); forall proc: Proc :: StillHeld(k, n, proc)
  {
  }

  /** A shared guard lock granted where no exclusive one is held. */
  lemma SharedKeeps(k: Kernel, p: Pid, o: Ofd, proc: Proc)
    requires Inv(k) && p in k.procs && MayShare(k, o) && o < k.next
    requires o in k.guardLocks ==> k.guardLocks[o] == Shared
    requires proc.lock == k.procs[p].lock && Numbered(k, proc)
    requires HoldsWhatItNeeds(k.(guardLocks := k.guardLocks[o := Shared]), proc)
    requires SameSetup(k, p, proc)
    ensures Inv(Put(k, p, proc).(guardLocks := k.guardLocks[o := Shared]))
  {
    var n := k.(guardLocks := k.guardLocks[o := Shared]);
    assert Numbered(n, proc);
    hide HoldsWhatItNeeds, Numbered, StillHeld, LocksAgree, KernelNumbered, LeaseApart, SameSetup;
    SharedLocks(k, o);
    StaysApart(k, p, proc);
    PutKeeps(k, n, p, proc);
    assert Put(n, p, proc) == Put(k, p, proc).(guardLocks := k.guardLocks[o := Shared]);
  }

  /** Nobody past the guard relies on anything but the description about to be locked alone. */
  lemma OnlyThrough(k: Kernel, q: Pid, o: Ofd)
    requires Inv(k) && q in k.procs && MayExclude(k, o) && o !in k.own
    ensures StillHeld(k, k.(guardLocks := k.guardLocks[o := Exclusive]), k.procs[q])
  {
    assert HoldsWhatItNeeds(k, k.procs[q]);
  }

  lemma ExcludedLocks(k: Kernel, o: Ofd)
    requires LocksAgree(k) && KernelNumbered(k) && MayExclude(k, o) && o < k.next && o !in k.own
    ensures var n := k.(guardLocks := k.guardLocks[o := Exclusive]); LocksAgree(n) && KernelNumbered(n)
  {
  }

  /** An exclusive guard lock granted where no other description holds one. */
  lemma ExcludedKeeps(k: Kernel, p: Pid, o: Ofd, proc: Proc)
    requires Inv(k) && p in k.procs && MayExclude(k, o) && o < k.next && o !in k.own
    requires proc.lock == k.procs[p].lock && Numbered(k, proc)
    requires HoldsWhatItNeeds(k.(guardLocks := k.guardLocks[o := Exclusive]), proc)
    requires SameSetup(k, p, proc)
    ensures Inv(Put(k, p, proc).(guardLocks := k.guardLocks[o := Exclusive]))
  {
    var n := k.(guardLocks := k.guardLocks[o := Exclusive]);
    assert Numbered(n, proc);
    hide HoldsWhatItNeeds, Numbered, StillHeld, LocksAgree, KernelNumbered, LeaseApart, SameSetup;
    ExcludedLocks(k, o);
    StaysApart(k, p, proc);
    forall q | q in k.procs && q != p ensures StillHeld(k, n, k.procs[q]) {
      OnlyThrough(k, q, o);
    }
    PutKeeps(k, n, p, proc);
    assert Put(n, p, proc) == Put(k, p, proc).(guardLocks := k.guardLocks[o := Exclusive]);
  }

  lemma FaceLocks(k: Kernel, o: Ofd)
    requires LocksAgree(k) && KernelNumbered(k) && MayLock(k, o) && o < k.next
    ensures var n := k.(faceLocks := k.faceLocks + {o}); LocksAgree(n) && KernelNumbered(n)
    ensures var n := k.(faceLocks := k.faceLocks + {o}); forall proc: Proc :: StillHeld(k, n, proc)
  {
  }

  /** The interface lock granted through a description nobody else uses for it. */
  lemma FaceKeeps(k: Kernel, p: Pid, o: Ofd, proc: Proc)
    requires Inv(k) && p in k.procs && MayLock(k, o) && o < k.next
    requires proc.lock == k.procs[p].lock && Numbered(k, proc)
    requires HoldsWhatItNeeds(k.(faceLocks := k.faceLocks + {o}), proc)
    requires SameSetup(k, p, proc)
    ensures Inv(Put(k, p, proc).(faceLocks := k.faceLocks + {o}))
  {
    var n := k.(faceLocks := k.faceLocks + {o});
    assert Numbered(n, proc);
    hide HoldsWhatItNeeds, Numbered, StillHeld, LocksAgree, KernelNumbered, LeaseApart, SameSetup;
    FaceLocks(k, o);
    StaysApart(k, p, proc);
    PutKeeps(k, n, p, proc);
    assert Put(n, p, proc) == Put(k, p, proc).(faceLocks := k.faceLocks + {o});
  }

  lemma ReleasedLocks(k: Kernel, o: Ofd)
    requires LocksAgree(k) && KernelNumbered(k)
    ensures var n := k.(faceLocks := k.faceLocks - {o}); LocksAgree(n) && KernelNumbered(n)
    ensures var n := k.(faceLocks := k.faceLocks - {o});
            forall proc: Proc :: proc.lock != Some(o) ==> StillHeld(k, n, proc)
  {
  }

  /** The interface lock given up by the one process that locks through it. */
  lemma ReleasedKeeps(k: Kernel, p: Pid, o: Ofd, proc: Proc)
    requires Inv(k) && p in k.procs && k.procs[p].lock == Some(o) && proc.lock == Some(o) && Numbered(k, proc)
    requires HoldsWhatItNeeds(k.(faceLocks := k.faceLocks - {o}), proc)
    requires SameSetup(k, p, proc)
    ensures Inv(Put(k, p, proc).(faceLocks := k.faceLocks - {o}))
  {
    var n := k.(faceLocks := k.faceLocks - {o});
    assert Numbered(n, proc);
    hide HoldsWhatItNeeds, Numbered, StillHeld, LocksAgree, KernelNumbered, LeaseApart, SameSetup;
    ReleasedLocks(k, o);
    StaysApart(k, p, proc);
    PutKeeps(k, n, p, proc);
    assert Put(n, p, proc) == Put(k, p, proc).(faceLocks := k.faceLocks - {o});
  }

  lemma UnlockAgrees(k: Kernel, p: Pid, o: Ofd)
    requires Inv(k) && p in k.procs && k.procs[p].pc == Leased && k.procs[p].lease == Some(o)
    ensures var n, proc := k.(guardLocks := k.guardLocks - {o}), k.procs[p].(pc := Unlocked);
            && LocksAgree(n) && KernelNumbered(n) && Numbered(n, proc) && HoldsWhatItNeeds(n, proc)
  {
    var n := k.(guardLocks := k.guardLocks - {o});
    HoldsOf(k, p);
    NeedsNothing(n, k.procs[p].(pc := Unlocked));
  }

  /** Whoever else needs the lock on the guard has another description. */
  lemma UnlockHeld(k: Kernel, p: Pid, q: Pid)
    requires Inv(k) && p in k.procs && q in k.procs && q != p && k.procs[p].pc == Leased && k.procs[p].lease.Some?
    requires ChildrenEnded(k, p, k.procs[p].lease.value)
    ensures StillHeld(k, k.(guardLocks := k.guardLocks - {k.procs[p].lease.value}), k.procs[q])
  {
    HoldsOf(k, p);
    HoldsOf(k, q);
    assert LeaseApart(k.procs[p], k.procs[q]);
    hide Inv, Numbered, KernelNumbered, LocksAgree;
  }

  /** The lease given up once no child relies on it. */
  lemma UnlockKeeps(k: Kernel, p: Pid)
    requires Inv(k) && Enabled(k, Unlock(p)) && Waits(k, Unlock(p))
    ensures Inv(Apply(k, Unlock(p)))
  {
    HoldsOf(k, p);
    hide Inv, HoldsWhatItNeeds, Numbered, LocksAgree, KernelNumbered, LocksApart, LeasesApart, StillHeld, LeaseApart;
    var o := k.procs[p].lease.value;
    var proc := k.procs[p].(pc := Unlocked);
    var n := k.(guardLocks := k.guardLocks - {o});
    UnlockAgrees(k, p, o);
    StaysApart(k, p, proc);
    forall q | q in k.procs && q != p ensures StillHeld(k, n, k.procs[q]) {
      UnlockHeld(k, p, q);
    }
    PutKeeps(k, n, p, proc);
    assert Put(n, p, proc) == Apply(k, Unlock(p));
  }

  // ------------------------------------------------------------- each step

  lemma LaunchKeeps(k: Kernel, q: Pid, pc: Pc)
    requires Inv(k) && q !in k.procs && pc in {Started, SetupStarted}
    ensures Inv(Put(k, q, Blank.(pc := pc)))
  {
    hide Inv;
    MovedKeeps(k, q, Blank.(pc := pc));
  }

  lemma ForkKeeps(k: Kernel, p: Pid, q: Pid, inherited: set<Ofd>, lease: Option<Ofd>)
    requires Inv(k) && p in k.procs && q !in k.procs && inherited <= k.procs[p].fds
    requires lease.Some? ==> lease.value in inherited && lease.value !in k.own
    ensures Inv(Put(k, q, Blank.(pc := if lease.Some? then Started else Helper, fds := inherited, lease := lease)))
  {
    HoldsOf(k, p);
    var proc := Blank.(pc := if lease.Some? then Started else Helper, fds := inherited, lease := lease);
    ForkedHolds(k, k.procs[p], proc);
    hide Inv, Numbered, HoldsWhatItNeeds;
    MovedKeeps(k, q, proc);
  }

  lemma ForkedHolds(k: Kernel, parent: Proc, proc: Proc)
    requires Numbered(k, parent) && proc.fds <= parent.fds
    requires proc.lease.Some? ==> proc.lease.value in proc.fds && proc.lease.value !in k.own
    requires proc == Blank.(pc := if proc.lease.Some? then Started else Helper, fds := proc.fds, lease := proc.lease)
    ensures HoldsWhatItNeeds(k, proc) && Numbered(k, proc)
  {
  }

  lemma OwnBelow(k: Kernel)
    requires Inv(k)
    ensures k.next !in k.own && k.next !in k.guardLocks && k.next !in k.faceLocks
    ensures forall o :: o in k.guardLocks && k.guardLocks[o] == Exclusive ==> o !in k.own
  {
    hide HoldsWhatItNeeds, Numbered;
  }

  /** What a process still at the door holds after opening one more description. */
  lemma OpenedHolds(k: Kernel, p: Pid, proc: Proc, own: set<Ofd>)
    requires p in k.procs && HoldsWhatItNeeds(k, k.procs[p]) && Numbered(k, k.procs[p])
    requires own in {k.own, k.own + {k.next}} && k.next !in k.own
    requires var was := k.procs[p];
             || (was.pc == Started && was.lease.None? && proc == was.(pc := GuardOpen, guard := Some(k.next))
                 && k.next in own)
             || (was.pc == Started && was.lease.Some? && proc == was.(pc := ProbeOpen, probe := Some(k.next))
                 && k.next in own)
             || (was.pc == Guarded && proc == was.(pc := LockOpen, lock := Some(k.next)))
             || (was.pc == SetupStarted && proc == was.(pc := LeaseOpen, lease := Some(k.next)) && own == k.own)
             || (was.pc == Leased && proc == was.(lock := Some(k.next)))
    ensures var m := Opened(k, p, proc).(own := own);
            HoldsWhatItNeeds(m, m.procs[p]) && Numbered(m, m.procs[p])
  {
  }

  lemma OpenGuardKeeps(k: Kernel, p: Pid)
    requires Inv(k) && p in k.procs && k.procs[p].pc == Started && k.procs[p].lease.None?
    ensures Inv(Opened(k, p, k.procs[p].(pc := GuardOpen, guard := Some(k.next))).(own := k.own + {k.next}))
  {
    HoldsOf(k, p);
    OwnBelow(k);
    hide Inv, HoldsWhatItNeeds, Numbered;
    var proc := k.procs[p].(pc := GuardOpen, guard := Some(k.next));
    OpenedHolds(k, p, proc, k.own + {k.next});
    OpenedKeeps(k, p, proc, k.own + {k.next});
  }

  lemma OpenProbeKeeps(k: Kernel, p: Pid)
    requires Inv(k) && p in k.procs && k.procs[p].pc == Started && k.procs[p].lease.Some?
    ensures Inv(Opened(k, p, k.procs[p].(pc := ProbeOpen, probe := Some(k.next))).(own := k.own + {k.next}))
  {
    HoldsOf(k, p);
    OwnBelow(k);
    hide Inv, HoldsWhatItNeeds, Numbered;
    var proc := k.procs[p].(pc := ProbeOpen, probe := Some(k.next));
    OpenedHolds(k, p, proc, k.own + {k.next});
    OpenedKeeps(k, p, proc, k.own + {k.next});
  }

  lemma OpenLockKeeps(k: Kernel, p: Pid)
    requires Inv(k) && p in k.procs && k.procs[p].pc == Guarded
    ensures Inv(Opened(k, p, k.procs[p].(pc := LockOpen, lock := Some(k.next))))
  {
    HoldsOf(k, p);
    OwnBelow(k);
    hide Inv, HoldsWhatItNeeds, Numbered;
    var proc := k.procs[p].(pc := LockOpen, lock := Some(k.next));
    OpenedHolds(k, p, proc, k.own);
    OpenedKeeps(k, p, proc, k.own);
    assert Opened(k, p, proc).(own := k.own) == Opened(k, p, proc);
  }

  lemma OpenLeaseKeeps(k: Kernel, p: Pid)
    requires Inv(k) && p in k.procs && k.procs[p].pc == SetupStarted
    ensures Inv(Opened(k, p, k.procs[p].(pc := LeaseOpen, lease := Some(k.next))))
  {
    HoldsOf(k, p);
    OwnBelow(k);
    hide Inv, HoldsWhatItNeeds, Numbered;
    var proc := k.procs[p].(pc := LeaseOpen, lease := Some(k.next));
    OpenedHolds(k, p, proc, k.own);
    OpenedKeeps(k, p, proc, k.own);
    assert Opened(k, p, proc).(own := k.own) == Opened(k, p, proc);
  }

  lemma ShareGuardKeeps(k: Kernel, p: Pid, o: Ofd)
    requires Inv(k) && p in k.procs && k.procs[p].pc == GuardOpen && k.procs[p].guard == Some(o) && MayShare(k, o)
    ensures Inv(Put(k, p, k.procs[p].(pc := Guarded)).(guardLocks := k.guardLocks[o := Shared]))
  {
    HoldsOf(k, p);
    OwnBelow(k);
    var proc := k.procs[p].(pc := Guarded);
    GuardedHolds(k, p, o);
    hide Inv, HoldsWhatItNeeds, Numbered;
    SharedKeeps(k, p, o, proc);
  }

  lemma GuardedHolds(k: Kernel, p: Pid, o: Ofd)
    requires p in k.procs && HoldsWhatItNeeds(k, k.procs[p]) && Numbered(k, k.procs[p])
    requires k.procs[p].pc == GuardOpen && k.procs[p].guard == Some(o)
    ensures HoldsWhatItNeeds(k.(guardLocks := k.guardLocks[o := Shared]), k.procs[p].(pc := Guarded))
    ensures Numbered(k, k.procs[p].(pc := Guarded)) && o in k.own && o < k.next
  {
  }

  lemma ShareProbeKeeps(k: Kernel, p: Pid, o: Ofd)
    requires Inv(k) && p in k.procs && k.procs[p].pc == ProbeOpen && k.procs[p].probe == Some(o) && MayShare(k, o)
    ensures Inv(Put(k, p, k.procs[p].(pc := ProbeGranted)).(guardLocks := k.guardLocks[o := Shared]))
  {
    HoldsOf(k, p);
    OwnBelow(k);
    assert o in k.own && o < k.next;
    var proc := k.procs[p].(pc := ProbeGranted);
    assert Numbered(k, proc);
    NeedsNothing(k.(guardLocks := k.guardLocks[o := Shared]), proc);
    hide Inv, HoldsWhatItNeeds, Numbered;
    SharedKeeps(k, p, o, proc);
  }

  lemma ProbeRefusedKeeps(k: Kernel, p: Pid)
    requires Inv(k) && p in k.procs && k.procs[p].pc == ProbeOpen
    ensures Inv(Put(k, p, k.procs[p].(pc := ProbeRefused)))
  {
    HoldsOf(k, p);
    var proc := k.procs[p].(pc := ProbeRefused);
    assert HoldsWhatItNeeds(k, proc) && Numbered(k, proc);
    hide Inv, HoldsWhatItNeeds, Numbered;
    MovedKeeps(k, p, proc);
  }

  lemma AdoptKeeps(k: Kernel, p: Pid)
    requires Inv(k) && Enabled(k, Adopt(p))
    ensures Inv(Apply(k, Adopt(p)))
  {
    HoldsOf(k, p);
    hide Inv;
    var o, probe := k.procs[p].lease.value, k.procs[p].probe.value;
    if MayExclude(k, o) {
      var proc := k.procs[p].(pc := Guarded, guard := Some(o), adopted := true);
      var m := Put(k, p, proc).(guardLocks := k.guardLocks[o := Exclusive]);
      AdoptedHolds(k, p, proc);
      ExcludedKeeps(k, p, o, proc);
      CloseKeeps(m, p, probe) by {
        AdoptedHolds(k, p, proc);
      }
    } else {
      FinishKeeps(k, p);
    }
  }

  lemma AdoptedHolds(k: Kernel, p: Pid, proc: Proc)
    requires Inv(k) && Enabled(k, Adopt(p))
    requires proc == k.procs[p].(pc := Guarded, guard := k.procs[p].lease, adopted := true)
    ensures k.procs[p].lease.value !in k.own && k.procs[p].lease.value < k.next
    ensures var n := k.(guardLocks := k.guardLocks[k.procs[p].lease.value := Exclusive]);
            && HoldsWhatItNeeds(n, proc) && Numbered(n, proc) && Numbered(k, proc)
            && HoldsWhatItNeeds(n, proc.(fds := proc.fds - {k.procs[p].probe.value}))
    ensures var m := Put(k, p, proc).(guardLocks := k.guardLocks[k.procs[p].lease.value := Exclusive]);
            HoldsWhatItNeeds(m, proc.(fds := proc.fds - {k.procs[p].probe.value}))
  {
    HoldsOf(k, p);
    OwnBelow(k);
    hide Inv;
    LeaseIsApart(k, k.procs[p]);
    AdoptedNeeds(k, k.procs[p], k.procs[p].lease.value, k.procs[p].probe.value);
    hide HoldsWhatItNeeds, Numbered;
  }

  lemma LeaseIsApart(k: Kernel, was: Proc)
    requires was.pc == ProbeRefused && was.lease.Some? && was.probe.Some? && HoldsWhatItNeeds(k, was)
             && Numbered(k, was)
    ensures was.lease.value !in k.own && was.lease.value < k.next && was.lease != was.probe
  {
  }

  lemma AdoptedNeeds(k: Kernel, was: Proc, o: Ofd, probe: Ofd)
    requires was.pc == ProbeRefused && was.lease == Some(o) && was.probe == Some(probe) && o != probe
    requires HoldsWhatItNeeds(k, was) && Numbered(k, was)
    ensures var proc := was.(pc := Guarded, guard := was.lease, adopted := true);
            && Numbered(k, proc)
            && forall m: Kernel ::
                 m.next == k.next && m.own == k.own && m.guardLocks == k.guardLocks[o := Exclusive] ==>
                   && Numbered(m, proc) && HoldsWhatItNeeds(m, proc)
                   && HoldsWhatItNeeds(m, proc.(fds := proc.fds - {probe}))
  {
  }

  /** Closing the interface lock's descriptor keeps the guard. */
  lemma DropLockKeeps(k: Kernel, p: Pid)
    requires Inv(k) && p in k.procs && k.procs[p].lock.Some?
    requires k.procs[p].pc == LockOpen || k.procs[p].pc == Critical
    ensures Inv(Close(Put(k, p, k.procs[p].(pc := LockClosed)), p, k.procs[p].lock.value))
  {
    HoldsOf(k, p);
    var proc := k.procs[p].(pc := LockClosed);
    var m := Put(k, p, proc);
    hide Inv, HoldsWhatItNeeds, Numbered, Close, SameSetup;
    DroppedHolds(k, k.procs[p]);
    DroppedIsNoSetup(k, p, proc);
    MovedKeeps(k, p, proc);
    CloseKeeps(m, p, proc.lock.value);
  }

  lemma DroppedHolds(k: Kernel, was: Proc)
    requires (was.pc == LockOpen || was.pc == Critical) && was.lock.Some?
    requires HoldsWhatItNeeds(k, was) && Numbered(k, was)
    ensures var proc := was.(pc := LockClosed);
            && HoldsWhatItNeeds(k, proc) && Numbered(k, proc)
            && forall m: Kernel :: m.guardLocks == k.guardLocks && m.own == k.own ==>
                 HoldsWhatItNeeds(m, proc.(fds := proc.fds - {was.lock.value}))
  {
  }

  lemma DroppedIsNoSetup(k: Kernel, p: Pid, proc: Proc)
    requires proc.pc == LockClosed
    ensures SameSetup(k, p, proc)
  {
  }

  lemma CriticalNeeds(k: Kernel, p: Pid, o: Ofd)
    requires p in k.procs && k.procs[p].pc == LockOpen && k.procs[p].lock == Some(o)
    requires HoldsWhatItNeeds(k, k.procs[p]) && Numbered(k, k.procs[p])
    ensures var proc := k.procs[p].(pc := Critical);
            && o < k.next && Numbered(k, proc) && SameSetup(k, p, proc)
            && HoldsWhatItNeeds(k.(faceLocks := k.faceLocks + {o}), proc)
  {
  }

  lemma TakeLockKeeps(k: Kernel, p: Pid)
    requires Inv(k) && Enabled(k, TakeLock(p))
    ensures Inv(Apply(k, TakeLock(p)))
  {
    HoldsOf(k, p);
    hide Inv, HoldsWhatItNeeds, Numbered, SameSetup;
    var o := k.procs[p].lock.value;
    if MayLock(k, o) {
      CriticalNeeds(k, p, o);
      FaceKeeps(k, p, o, k.procs[p].(pc := Critical));
    } else {
      DropLockKeeps(k, p);
    }
  }

  lemma LeasedNeeds(k: Kernel, p: Pid, o: Ofd)
    requires p in k.procs && k.procs[p].pc == LeaseOpen && k.procs[p].lease == Some(o)
    requires HoldsWhatItNeeds(k, k.procs[p]) && Numbered(k, k.procs[p])
    ensures var proc := k.procs[p].(pc := Leased);
            && o < k.next && o !in k.own && Numbered(k, proc) && SameSetup(k, p, proc)
            && HoldsWhatItNeeds(k.(guardLocks := k.guardLocks[o := Exclusive]), proc)
  {
  }

  lemma TakeLeaseKeeps(k: Kernel, p: Pid)
    requires Inv(k) && Enabled(k, TakeLease(p))
    ensures Inv(Apply(k, TakeLease(p)))
  {
    HoldsOf(k, p);
    hide Inv, HoldsWhatItNeeds, Numbered, SameSetup;
    var o := k.procs[p].lease.value;
    if MayExclude(k, o) {
      LeasedNeeds(k, p, o);
      ExcludedKeeps(k, p, o, k.procs[p].(pc := Leased));
    } else {
      FinishKeeps(k, p);
    }
  }

  lemma StartProbeOpens(k: Kernel, p: Pid)
    requires Inv(k) && p in k.procs && k.procs[p].pc == Leased
    ensures var m := Opened(k, p, k.procs[p].(lock := Some(k.next)));
            && Inv(m) && HoldsWhatItNeeds(m, m.procs[p]) && Numbered(m, m.procs[p])
            && m.procs[p].lease.Some? && m.procs[p].lock != m.procs[p].lease
  {
    HoldsOf(k, p);
    OwnBelow(k);
    assert k.procs[p].lease.Some? && k.procs[p].lease.value < k.next;
    hide Inv, HoldsWhatItNeeds, Numbered, SameSetup;
    var grown := k.procs[p].(lock := Some(k.next));
    var m := Opened(k, p, grown);
    assert m.(own := k.own) == m;
    OpenedHolds(k, p, grown, k.own);
    LeasedIsSameSetup(k, p, grown);
    OpenedKeeps(k, p, grown, k.own);
  }

  lemma StartProbeKeeps(k: Kernel, p: Pid)
    requires Inv(k) && p in k.procs && k.procs[p].pc == Leased && MayLock(k, k.next)
    ensures Inv(Opened(k, p, k.procs[p].(pc := Probing, lock := Some(k.next))).(faceLocks := k.faceLocks + {k.next}))
  {
    hide Inv, HoldsWhatItNeeds, Numbered, MayLock, SameSetup;
    StartProbeOpens(k, p);
    var grown := k.procs[p].(lock := Some(k.next));
    var m := Opened(k, p, grown);
    var proc := m.procs[p].(pc := Probing);
    ProbingHolds(m, p);
    SameFace(k, m, k.next);
    LeasedIsSameSetup(m, p, proc);
    FaceKeeps(m, p, k.next, proc);
    assert m.procs == k.procs[p := grown.(fds := grown.fds + {k.next})];
    assert m.procs[p := proc] == k.procs[p := proc];
  }

  lemma LeasedIsSameSetup(k: Kernel, p: Pid, proc: Proc)
    requires p in k.procs && HoldsLease(k.procs[p].pc) && HoldsLease(proc.pc) && proc.lease == k.procs[p].lease
    ensures SameSetup(k, p, proc)
  {
  }

  lemma SameFace(k: Kernel, m: Kernel, o: Ofd)
    requires k.faceLocks == m.faceLocks
    ensures MayLock(k, o) == MayLock(m, o)
  {
  }

  lemma ProbingHolds(m: Kernel, p: Pid)
    requires p in m.procs && m.procs[p].pc == Leased && HoldsWhatItNeeds(m, m.procs[p]) && Numbered(m, m.procs[p])
    requires m.procs[p].lock.Some? && m.procs[p].lock.value in m.procs[p].fds && m.procs[p].lock != m.procs[p].lease
    ensures var proc := m.procs[p].(pc := Probing);
            HoldsWhatItNeeds(m.(faceLocks := m.faceLocks + {m.procs[p].lock.value}), proc) && Numbered(m, proc)
  {
  }

  lemma EndProbeKeeps(k: Kernel, p: Pid)
    requires Inv(k) && Enabled(k, EndProbe(p))
    ensures Inv(Apply(k, EndProbe(p)))
  {
    HoldsOf(k, p);
    hide Inv, HoldsWhatItNeeds, Numbered, Close, SameSetup;
    var o := k.procs[p].lock.value;
    var proc := k.procs[p].(pc := Leased);
    var m := Put(k, p, proc).(faceLocks := k.faceLocks - {o});
    ProbedHolds(k, k.procs[p]);
    LeasedIsSameSetup(k, p, proc);
    ReleasedKeeps(k, p, o, proc);
    CloseKeeps(m, p, o);
    assert Apply(k, EndProbe(p)) == Close(m, p, o);
    hide Apply;
  }

  lemma ProbedHolds(k: Kernel, was: Proc)
    requires was.pc == Probing && HoldsWhatItNeeds(k, was) && Numbered(k, was) && was.lock.Some?
    ensures var o, proc := was.lock.value, was.(pc := Leased);
            && HoldsWhatItNeeds(k.(faceLocks := k.faceLocks - {o}), proc) && Numbered(k, proc)
            && forall m: Kernel :: m.guardLocks == k.guardLocks && m.faceLocks == k.faceLocks - {o} ==>
                 HoldsWhatItNeeds(m, proc.(fds := proc.fds - {o}))
  {
  }

  lemma StepKeeps(k: Kernel, s: Step)
    requires Inv(k) && Enabled(k, s) && Waits(k, s)
    ensures Inv(Apply(k, s))
  {
    hide Inv;
    match s
    case Launch(q, setup) => LaunchKeeps(k, q, if setup then SetupStarted else Started);
    case Fork(p, q, inherited, lease) => ForkKeeps(k, p, q, inherited, lease);
    case OpenGuard(p) => OpenGuardKeeps(k, p);
    case OpenProbe(p) => OpenProbeKeeps(k, p);
    case ShareGuard(p) =>
      if MayShare(k, k.procs[p].guard.value) {
        ShareGuardKeeps(k, p, k.procs[p].guard.value);
      } else {
        FinishKeeps(k, p);
      }
    case ShareProbe(p) =>
      if MayShare(k, k.procs[p].probe.value) {
        ShareProbeKeeps(k, p, k.procs[p].probe.value);
      } else {
        ProbeRefusedKeeps(k, p);
      }
    case Adopt(p) => AdoptKeeps(k, p);
    case OpenLock(p) => OpenLockKeeps(k, p);
    case TakeLock(p) => TakeLockKeeps(k, p);
    case CloseLock(p) => DropLockKeeps(k, p);
    case CloseGuard(p) => FinishKeeps(k, p);
    case OpenLease(p) => OpenLeaseKeeps(k, p);
    case TakeLease(p) => TakeLeaseKeeps(k, p);
    case StartProbe(p) =>
      if MayLock(k, k.next) {
        StartProbeKeeps(k, p);
      }
    case EndProbe(p) => EndProbeKeeps(k, p);
    case Unlock(p) => UnlockKeeps(k, p);
    case Leave(p) => FinishKeeps(k, p);
    case Die(p) => DieKeeps(k, p);
  }

  // ----------------------------------------------------------------- runs

  const Boot := Kernel(map[], map[], {}, {}, 0)

  /** Steps that are not enabled are skipped, so every sequence of steps is an interleaving. */
  function Run(k: Kernel, steps: seq<Step>): Kernel
    decreases |steps|
  {
    if steps == [] then k
    else Run(if Enabled(k, steps[0]) then Apply(k, steps[0]) else k, steps[1..])
  }

  /** Every setup of the run waits for its children before it unlocks. */
  predicate WaitsThroughout(k: Kernel, steps: seq<Step>)
    decreases |steps|
  {
    steps == []
    || (&& Waits(k, steps[0])
        && WaitsThroughout(if Enabled(k, steps[0]) then Apply(k, steps[0]) else k, steps[1..]))
  }

  /** Every interleaving of any number of processes, crashes included, keeps the invariant the theorems rest on. */
  lemma {:induction false} RunsKeep(k: Kernel, steps: seq<Step>)
    requires Inv(k) && WaitsThroughout(k, steps)
    ensures Inv(Run(k, steps))
    decreases |steps|
  {
    hide Inv, Enabled, Apply, Waits;
    if steps != [] {
      if Enabled(k, steps[0]) {
        StepKeeps(k, steps[0]);
        RunsKeep(Apply(k, steps[0]), steps[1..]);
      } else {
        RunsKeep(k, steps[1..]);
      }
    }
  }

  /** What two live processes may be at once: one at a time in the interface and one with the lease, always guarded, and
      no runtime beside a lease but those that adopted it. */
  predicate Excludes(k: Kernel, p: Pid, q: Pid)
    requires p in k.procs && q in k.procs
  {
    && (InInterface(k.procs[p].pc) && InInterface(k.procs[q].pc) ==> p == q)
    && (HoldsLease(k.procs[p].pc) && PastGuard(k.procs[q].pc) ==>
          k.procs[q].adopted && k.procs[q].guard == k.procs[p].lease)
    && (HoldsLease(k.procs[p].pc) && HoldsLease(k.procs[q].pc) ==> p == q)
    && (InInterface(k.procs[p].pc) ==>
          var held := if k.procs[p].pc == Probing then k.procs[p].lease else k.procs[p].guard;
          held.Some? && held.value in k.procs[p].fds && held.value in k.guardLocks)
  }

  /** From boot, any two processes of any run in which setups wait for their children. */
  lemma EveryRunExcludes(steps: seq<Step>, p: Pid, q: Pid)
    requires WaitsThroughout(Boot, steps)
    ensures var k := Run(Boot, steps);
            p in k.procs && q in k.procs ==> Excludes(k, p, q)
  {
    RunsKeep(Boot, steps);
    var k := Run(Boot, steps);
    hide Run, Inv;
    if p in k.procs && q in k.procs {
      if InInterface(k.procs[p].pc) {
        InterfaceHolderIsGuarded(k, p);
        if InInterface(k.procs[q].pc) {
          InterfaceIsExclusive(k, p, q);
        }
      }
      if HoldsLease(k.procs[p].pc) {
        if PastGuard(k.procs[q].pc) {
          SetupExcludesRuntimes(k, p, q);
        }
        if HoldsLease(k.procs[q].pc) {
          LeaseIsExclusive(k, p, q);
        }
      }
    }
  }

  /** A lease is adopted exactly when it is the only lock on the guard at that moment. */
  lemma AdoptionNeedsTheLease(k: Kernel, p: Pid)
    requires Inv(k) && Enabled(k, Adopt(p))
    ensures Apply(k, Adopt(p)).procs[p].pc == Guarded <==> k.guardLocks.Keys <= {k.procs[p].lease.value}
  {
  }

  // ---------------------------------------------------------- early unlock

  lemma RunStep(k: Kernel, s: Step, rest: seq<Step>)
    requires Enabled(k, s)
    ensures Run(k, [s] + rest) == Run(Apply(k, s), rest)
  {
    assert ([s] + rest)[1..] == rest;
    hide Apply, Enabled;
  }

  /** A setup takes the lease and hands it to a runtime, which adopts it and enters the interface. */
  const ADOPTED: seq<Step> := [
    Launch(0, true), OpenLease(0), TakeLease(0), Fork(0, 1, {0}, Some(0)),
    OpenProbe(1), ShareProbe(1), Adopt(1), OpenLock(1), TakeLock(1)]

  /** The setup unlocks at once and another takes the lease. */
  const UNLOCKED_EARLY: seq<Step> := [Unlock(0), Launch(2, true), OpenLease(2), TakeLease(2)]

  const SETUP := Proc(Leased, {0}, None, None, Some(0), None, false)
  const CHILD := Proc(Started, {0}, None, None, Some(0), None, false)

  function WithChild(child: Proc, own: set<Ofd>, next: Ofd): Kernel {
    Kernel(map[0 := SETUP, 1 := child], map[0 := Exclusive], {}, own, next)
  }

  lemma LeaseIsForked(rest: seq<Step>)
    ensures Run(Boot, ADOPTED[..4] + rest) == Run(WithChild(CHILD, {}, 1), rest)
  {
    var k1 := Apply(Boot, Launch(0, true));
    var k2 := Apply(k1, OpenLease(0));
    assert k2.procs[0].fds == {0};
    assert k2.procs == map[0 := SETUP.(pc := LeaseOpen)];
    assert k2 == Kernel(map[0 := SETUP.(pc := LeaseOpen)], map[], {}, {}, 1);
    var k3 := Apply(k2, TakeLease(0));
    assert k3.procs == map[0 := SETUP] && k3.guardLocks == map[0 := Exclusive];
    assert k3 == Kernel(map[0 := SETUP], map[0 := Exclusive], {}, {}, 1);
    assert Apply(k3, Fork(0, 1, {0}, Some(0))) == WithChild(CHILD, {}, 1);
    var r3 := [Fork(0, 1, {0}, Some(0))] + rest;
    var r2 := [TakeLease(0)] + r3;
    var r1 := [OpenLease(0)] + r2;
    assert ADOPTED[..4] + rest == [Launch(0, true)] + r1;
    RunStep(Boot, Launch(0, true), r1);
    RunStep(k1, OpenLease(0), r2);
    RunStep(k2, TakeLease(0), r3);
    RunStep(k3, Fork(0, 1, {0}, Some(0)), rest);
    hide Run, Apply;
  }

  const PROBING_CHILD := CHILD.(pc := ProbeRefused, fds := {0, 1}, probe := Some(1))
  const ADOPTED_CHILD := PROBING_CHILD.(pc := Guarded, fds := {0}, guard := Some(0), adopted := true)
  const CRITICAL_CHILD := ADOPTED_CHILD.(pc := Critical, fds := {0, 2}, lock := Some(2))

  lemma LeaseIsAdopted(rest: seq<Step>)
    ensures Run(WithChild(CHILD, {}, 1), [OpenProbe(1), ShareProbe(1), Adopt(1)] + rest)
            == Run(WithChild(ADOPTED_CHILD, {1}, 2), rest)
  {
    var k4 := WithChild(CHILD, {}, 1);
    var k5 := Apply(k4, OpenProbe(1));
    assert k5.procs[1].fds == {0, 1} && k5.own == {1};
    assert k5.procs == map[0 := SETUP, 1 := PROBING_CHILD.(pc := ProbeOpen)];
    assert k5 == WithChild(PROBING_CHILD.(pc := ProbeOpen), {1}, 2);
    assert 0 in k5.guardLocks && k5.guardLocks[0] == Exclusive && !MayShare(k5, 1);
    var k6 := Apply(k5, ShareProbe(1));
    assert k6.procs == map[0 := SETUP, 1 := PROBING_CHILD];
    assert k6 == WithChild(PROBING_CHILD, {1}, 2);
    AdoptLeavesLease();
    var r2 := [Adopt(1)] + rest;
    var r1 := [ShareProbe(1)] + r2;
    assert [OpenProbe(1), ShareProbe(1), Adopt(1)] + rest == [OpenProbe(1)] + r1;
    RunStep(k4, OpenProbe(1), r1);
    RunStep(k5, ShareProbe(1), r2);
    RunStep(k6, Adopt(1), rest);
    hide Run, Apply;
  }

  lemma AdoptLeavesLease()
    ensures Apply(WithChild(PROBING_CHILD, {1}, 2), Adopt(1)) == WithChild(ADOPTED_CHILD, {1}, 2)
  {
    var k := WithChild(PROBING_CHILD, {1}, 2);
    var child := PROBING_CHILD.(pc := Guarded, guard := Some(0), adopted := true);
    var m := Put(k, 1, child).(guardLocks := map[0 := Exclusive]);
    assert k.guardLocks[0 := Exclusive] == map[0 := Exclusive];
    assert Apply(k, Adopt(1)) == Close(m, 1, 1);
    var n := Put(m, 1, ADOPTED_CHILD);
    assert PROBING_CHILD.fds - {1} == {0};
    assert 0 in n.procs[0].fds;
    assert Live(n.procs, 0);
    assert Reaped(n).guardLocks == map[0 := Exclusive];
    assert Reaped(n).faceLocks == {};
  }

  lemma ChildIsCritical(rest: seq<Step>)
    ensures Run(WithChild(ADOPTED_CHILD, {1}, 2), [OpenLock(1), TakeLock(1)] + rest)
            == Run(WithChild(CRITICAL_CHILD, {1}, 3).(faceLocks := {2}), rest)
  {
    var k7 := WithChild(ADOPTED_CHILD, {1}, 2);
    var k8 := Apply(k7, OpenLock(1));
    assert k8.procs[1].fds == {0, 2};
    assert k8.procs == map[0 := SETUP, 1 := CRITICAL_CHILD.(pc := LockOpen)];
    assert k8 == WithChild(CRITICAL_CHILD.(pc := LockOpen), {1}, 3);
    assert Apply(k8, TakeLock(1)) == WithChild(CRITICAL_CHILD, {1}, 3).(faceLocks := {2});
    assert [OpenLock(1), TakeLock(1)] + rest == [OpenLock(1)] + ([TakeLock(1)] + rest);
    RunStep(k7, OpenLock(1), [TakeLock(1)] + rest);
    RunStep(k8, TakeLock(1), rest);
    hide Run, Apply;
  }

  const UNLOCKED: Kernel :=
    Kernel(map[0 := SETUP.(pc := Unlocked), 1 := CRITICAL_CHILD], map[], {2}, {1}, 3)

  lemma SetupUnlocks(rest: seq<Step>)
    ensures var k := WithChild(CRITICAL_CHILD, {1}, 3).(faceLocks := {2});
            Run(k, [Unlock(0)] + rest) == Run(UNLOCKED, rest) && !Waits(k, Unlock(0))
  {
    var k := WithChild(CRITICAL_CHILD, {1}, 3).(faceLocks := {2});
    assert k.procs[1].guard == Some(0) && PastGuard(k.procs[1].pc);
    var m := Apply(k, Unlock(0));
    assert m.guardLocks == map[] && m.procs == UNLOCKED.procs;
    assert m == UNLOCKED;
    RunStep(k, Unlock(0), rest);
    hide Run, Apply;
  }

  const NEXT_SETUP := Proc(LeaseOpen, {3}, None, None, Some(3), None, false)

  lemma SecondSetupOpens(rest: seq<Step>)
    ensures var k := UNLOCKED.(procs := UNLOCKED.procs[2 := NEXT_SETUP], next := 4);
            Run(UNLOCKED, [Launch(2, true), OpenLease(2)] + rest) == Run(k, rest)
  {
    var m := Apply(UNLOCKED, Launch(2, true));
    var k := Apply(m, OpenLease(2));
    assert k.procs[2].fds == {3};
    assert k.procs == UNLOCKED.procs[2 := NEXT_SETUP];
    assert k == UNLOCKED.(procs := UNLOCKED.procs[2 := NEXT_SETUP], next := 4);
    assert [Launch(2, true), OpenLease(2)] + rest == [Launch(2, true)] + ([OpenLease(2)] + rest);
    RunStep(UNLOCKED, Launch(2, true), [OpenLease(2)] + rest);
    RunStep(m, OpenLease(2), rest);
    hide Run, Apply;
  }

  lemma SecondSetupLeases()
    ensures var m := Run(UNLOCKED, UNLOCKED_EARLY[1..]);
            1 in m.procs && 2 in m.procs && !Excludes(m, 2, 1)
  {
    hide Run;
    var k := UNLOCKED.(procs := UNLOCKED.procs[2 := NEXT_SETUP], next := 4);
    var m := Apply(k, TakeLease(2));
    assert m.procs[2].pc == Leased && m.procs[1] == CRITICAL_CHILD && m.procs[2].lease == Some(3);
    assert [Launch(2, true), OpenLease(2)] + ([TakeLease(2)] + []) == UNLOCKED_EARLY[1..];
    SecondSetupOpens([TakeLease(2)] + []);
    RunStep(k, TakeLease(2), []);
    NothingRuns(m);
    hide Apply;
  }

  lemma NothingRuns(k: Kernel)
    ensures Run(k, []) == k
  {
  }

  /** Without that, exclusion fails from boot: a setup that gives its lease up under the runtime that adopted it lets
      another setup take it while that runtime is in the interface. */
  lemma EarlyUnlockBreaksExclusion()
    ensures var k := Run(Boot, ADOPTED + UNLOCKED_EARLY);
            1 in k.procs && 2 in k.procs && !Excludes(k, 2, 1)
  {
    hide Run, Enabled, Apply;
    var rest := [OpenLock(1), TakeLock(1)] + UNLOCKED_EARLY;
    assert ADOPTED + UNLOCKED_EARLY == ADOPTED[..4] + ([OpenProbe(1), ShareProbe(1), Adopt(1)] + rest);
    LeaseIsForked([OpenProbe(1), ShareProbe(1), Adopt(1)] + rest);
    LeaseIsAdopted(rest);
    ChildIsCritical(UNLOCKED_EARLY);
    assert UNLOCKED_EARLY == [Unlock(0)] + UNLOCKED_EARLY[1..];
    SetupUnlocks(UNLOCKED_EARLY[1..]);
    SecondSetupLeases();
  }
}
