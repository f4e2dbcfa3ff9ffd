/** What every state of every run keeps, whatever failed, was cut or came late: each file has one of its
    few values, and the recorded phase tells which snapshots are in place. */
module SetupBounds {
  import opened Wrappers
  import opened SetupJournals
  import opened SetupMachine
  import opened SetupClearance
  import opened SetupInvariant

  // ------------------------------------------------------------ invariant

  /** Each file the transaction owns has its old value, its new one or, for the configuration of an
      adoption or a provision, the new settings before the source is switched. */
  ghost predicate FilesInBounds(p: Plan, d: Disk) {
    && d.config in {p.before.config, p.config, p.config.(source := if p.operation.IsStatic() then Static else Api)}
    && (d.credential == p.before.credential || (p.key.changed && d.credential == Some(p.key.key)))
    && (d.preManaged == p.before.preManaged
        || (p.operation.Adopt? && p.before.preManaged.None? && d.preManaged == p.before.profile))
    && (d.profile == p.before.profile || d.profile == ActivatedProfile(p))
    && (p.operation.StaticRestore? && p.before.config.source.Api? && d.config.source.Static? ==>
          d.profile.Some? && d.preManaged.Some?)
  }

  /** A snapshot, where there is one, has the original bytes. */
  ghost predicate SnapshotsInBounds(p: Plan, d: Disk) {
    && (d.configPrevious.Some? ==> d.configPrevious == Some(p.before.config))
    && (d.credentialPrevious.Some? ==>
          p.key.changed && p.key.had && d.credentialPrevious == p.before.credential)
  }

  /** What an unfinished record says about the snapshots. */
  ghost predicate RecordHolds(p: Plan, d: Disk, j: SetupJournal) {
    match j.phase
    case Prepared => Recoverable(p, d)
    case ConfigWritten | CredentialWritten => Recoverable(p, d) && HasSnapshots(p, d)
    case Activating => RestoreTookEffect(p, d) || (Recoverable(p, d) && HasSnapshots(p, d))
    case Activated | Verifying =>
      RestoreTookEffect(p, d) || (Recoverable(p, d) && HasSnapshots(p, d) && !p.operation.StaticRestore?)
    case Verified | RolledBack => true
  }

  ghost predicate Kept(p: Plan, d: Disk) {
    && FilesInBounds(p, d) && SnapshotsInBounds(p, d)
    && match d.journal
       case None => d.configPrevious.None? && d.credentialPrevious.None? && NoSnapshotStaging(d)
       case Some(j) => Matches(p, j) && Renderable(j) && RecordHolds(p, d, j)
  }

  /** A step that keeps the invariant and meets no unusable snapshot. */
  ghost predicate Keeps(p: Plan, m: Machine, f: Flow) {
    Kept(p, f.m.disk) && (Inspection in f.m.notes ==> Inspection in m.notes)
  }

  /** A disk the process-local record may be rolled back from. */
  ghost predicate Undoing(p: Plan, d: Disk, local: SetupJournal) {
    && WellPlanned(p) && FilesInBounds(p, d) && SnapshotsInBounds(p, d) && Recoverable(p, d)
    && d.journal.Some? && Matches(p, d.journal.value) && Renderable(d.journal.value) && Matches(p, local)
    && !IsFinal(d.journal.value.phase)
    && (!local.phase.Prepared? || !d.journal.value.phase.Prepared? ==> HasSnapshots(p, d))
    && (p.operation.StaticRestore? ==> d.journal.value.phase.Prepared? || d.journal.value.phase.Activating?)
  }

  lemma UndoingIsKept(p: Plan, d: Disk, local: SetupJournal)
    requires Undoing(p, d, local)
    ensures Kept(p, d)
  {
  }

  /** One rollback or forward step: wherever it ends, the disk may still be rolled back from. */
  ghost predicate StaysUndoing(p: Plan, m: Machine, f: Flow) {
    && f.m.notes == m.notes && f.m.local == m.local
    && Undoing(p, f.m.disk, f.m.local)
  }

  lemma UndoingKeeps(p: Plan, m: Machine, f: Flow)
    requires StaysUndoing(p, m, f)
    ensures Keeps(p, m, f)
  {
    UndoingIsKept(p, f.m.disk, f.m.local);
    hide Undoing, Kept;
  }

  /** Staging entries and the status play no part. */
  lemma UndoingAlike(p: Plan, d: Disk, e: Disk, local: SetupJournal)
    requires Undoing(p, d, local) && e == d.(staging := e.staging, status := e.status)
    ensures Undoing(p, e, local)
  {
  }

  lemma KeptAlike(p: Plan, d: Disk, e: Disk)
    requires Kept(p, d) && e == d.(staging := e.staging, status := e.status)
    requires d.journal.None? ==> SnapshotsAsIn(d, e)
    ensures Kept(p, e)
  {
  }

  /** Files that stay in bounds and recoverable keep the disk one to roll back from. */
  lemma UndoingMoves(p: Plan, d: Disk, e: Disk, local: SetupJournal)
    requires Undoing(p, d, local)
    requires e == d.(config := e.config, credential := e.credential, preManaged := e.preManaged, profile := e.profile,
                     staging := e.staging, status := e.status)
    requires FilesInBounds(p, e) && Recoverable(p, e)
    ensures Undoing(p, e, local)
  {
  }

  /** A write between two such disks. */
  lemma WriteStaysUndoing(p: Plan, m: Machine, entry: Entry, written: Disk)
    requires IsPrivate(entry) && Undoing(p, m.disk, m.local) && Undoing(p, written, m.local)
    requires written.staging == m.disk.staging && written.status == m.disk.status
    ensures StaysUndoing(p, m, AtomicWrite(m, entry, written))
  {
    AtomicWriteCases(m, entry, written);
    var f := AtomicWrite(m, entry, written);
    if Alike(m.disk, f.m.disk) {
      UndoingAlike(p, m.disk, f.m.disk, m.local);
    } else {
      UndoingAlike(p, written, f.m.disk, m.local);
    }
    hide Undoing, AtomicWrite;
  }

  /** Up to two sub-steps between such disks. */
  lemma StepsStayUndoing(p: Plan, m: Machine, first: Disk, both: Disk)
    requires Undoing(p, m.disk, m.local) && Undoing(p, first, m.local) && Undoing(p, both, m.local)
    requires first.status == both.status == m.disk.status
    ensures StaysUndoing(p, m, RemovalSteps(m, first, both))
  {
    RemovalCases(m, first, both);
    var f := RemovalSteps(m, first, both);
    if Same(m.disk, f.m.disk) {
      UndoingAlike(p, m.disk, f.m.disk, m.local);
    } else if Same(first, f.m.disk) {
      UndoingAlike(p, first, f.m.disk, m.local);
    } else {
      UndoingAlike(p, both, f.m.disk, m.local);
    }
    hide Undoing, RemovalSteps;
  }

  // ------------------------------------------------------------- rollback

  lemma UndoAdoptionStays(p: Plan, m: Machine)
    requires Undoing(p, m.disk, m.local)
    ensures StaysUndoing(p, m, UndoAdoption(m))
  {
    if m.local.operation.Adopt? && !m.local.hadPreManaged && m.disk.preManaged.Some? {
      var first := CommandHalf(m.disk, RunRestoreStatic, Pending(m));
      var both := CommandDone(m.disk, RunRestoreStatic);
      UndoingMoves(p, m.disk, first, m.local);
      UndoingMoves(p, m.disk, both, m.local);
      hide Undoing;
      StepsStayUndoing(p, m, first, both);
    }
  }

  lemma RollbackConfigStays(p: Plan, m: Machine)
    requires Undoing(p, m.disk, m.local)
    ensures StaysUndoing(p, m, RollbackConfig(m))
    ensures RollbackConfig(m).Go? ==> RollbackConfig(m).m.disk.config == p.before.config
  {
    if m.disk.configPrevious.Some? {
      var gone := m.disk.(staging := m.disk.staging - {ConfigSnapshotStaging});
      UndoingAlike(p, m.disk, gone, m.local);
      StepsStayUndoing(p, m, gone, gone);
      var f := DiscardStaging(m, ConfigSnapshotStaging);
      if f.Go? {
        var written := f.m.disk.(config := p.before.config);
        UndoingMoves(p, f.m.disk, written, m.local);
        WriteStaysUndoing(p, f.m, ConfigStaging, written);
        AtomicWriteCases(f.m, ConfigStaging, written);
      }
    }
  }

  lemma RollbackCredentialStays(p: Plan, m: Machine)
    requires Undoing(p, m.disk, m.local)
    ensures StaysUndoing(p, m, RollbackCredential(m))
    ensures RollbackCredential(m).Go? ==> RollbackCredential(m).m.disk.config == m.disk.config
  {
    if m.local.keyChanged && !m.local.hadKey {
      var gone := m.disk.(credential := None);
      UndoingMoves(p, m.disk, gone, m.local);
      StepsStayUndoing(p, m, gone, gone);
      RemovalCases(m, gone, gone);
    } else if m.local.keyChanged && m.disk.credentialPrevious.Some? {
      var gone := m.disk.(staging := m.disk.staging - {CredentialSnapshotStaging});
      UndoingAlike(p, m.disk, gone, m.local);
      StepsStayUndoing(p, m, gone, gone);
      var f := DiscardStaging(m, CredentialSnapshotStaging);
      if f.Go? {
        var written := f.m.disk.(credential := p.before.credential);
        UndoingMoves(p, f.m.disk, written, m.local);
        WriteStaysUndoing(p, f.m, CredentialStaging, written);
        AtomicWriteCases(f.m, CredentialStaging, written);
      }
    }
  }

  /** The created pre-managed profile goes once the configuration is back. */
  lemma ForgetAdoptionStays(p: Plan, m: Machine)
    requires Undoing(p, m.disk, m.local)
    ensures StaysUndoing(p, m, ForgetAdoption(m))
  {
    if m.local.operation.Adopt? && !m.local.hadPreManaged {
      var gone := m.disk.(preManaged := None);
      UndoingMoves(p, m.disk, gone, m.local);
      hide Undoing;
      StepsStayUndoing(p, m, gone, gone);
    }
  }

  lemma RolledBackRenders(p: Plan, local: SetupJournal)
    requires WellPlanned(p) && Matches(p, local)
    ensures Renderable(RolledBackOf(local)) && Matches(p, RolledBackOf(local))
  {
  }

  /** Replacing the record keeps the invariant when both records may stand. */
  lemma PersistKeepsBounds(p: Plan, m: Machine, j: SetupJournal)
    requires Kept(p, m.disk) && (Renderable(j) ==> Kept(p, m.disk.(journal := Some(j))))
    ensures Keeps(p, m, PersistJournal(m, j))
    ensures PersistJournal(m, j).Go? ==> PersistJournal(m, j).m.disk == m.disk.(journal := Some(j))
    ensures PersistJournal(m, j).m.notes == m.notes && PersistJournal(m, j).m.local == m.local
    ensures Alike(m.disk, PersistJournal(m, j).m.disk)
            || (Renderable(j) && Alike(m.disk.(journal := Some(j)), PersistJournal(m, j).m.disk))
  {
    if Renderable(j) {
      var written := m.disk.(journal := Some(j));
      AtomicWriteCases(m, JournalStaging, written);
      var f := PersistJournal(m, j);
      if Alike(m.disk, f.m.disk) {
        KeptAlike(p, m.disk, f.m.disk);
      } else {
        KeptAlike(p, written, f.m.disk);
      }
    }
    hide Kept, Renderable;
  }

  // ------------------------------------------------------------ clearance

  /** Losing snapshots and staging entries does not matter to a record that may be cleaned. */
  lemma CleaningKeepsBounds(p: Plan, d: Disk, e: Disk)
    requires Kept(p, d) && MayClean(p, d)
    requires e == d.(configPrevious := e.configPrevious, credentialPrevious := e.credentialPrevious,
                     staging := e.staging, status := e.status)
    requires e.configPrevious in {d.configPrevious, None} && e.credentialPrevious in {d.credentialPrevious, None}
    ensures Kept(p, e) && MayClean(p, e)
  {
  }

  lemma CleanupKeepsBounds(p: Plan, m: Machine)
    requires Kept(p, m.disk) && MayClean(p, m.disk)
    ensures Keeps(p, m, Cleanup(m))
    ensures Cleanup(m).m.disk.config == m.disk.config && Cleanup(m).m.disk.credential == m.disk.credential
  {
    hide Kept, MayClean;
    var f1 := UnlinkConfigPrevious(m);
    CleaningKeepsBounds(p, m.disk, f1.m.disk);
    if f1.Go? {
      var f2 := UnlinkCredentialPrevious(f1.m);
      CleaningKeepsBounds(p, f1.m.disk, f2.m.disk);
      if f2.Go? {
        var f3 := UnlinkJournal(f2.m);
        if f3.m.disk.journal.None? {
          GoneKeepsBounds(p, f2.m.disk, f3.m.disk);
        } else {
          CleaningKeepsBounds(p, f2.m.disk, f3.m.disk);
        }
      }
    }
  }

  lemma GoneKeepsBounds(p: Plan, d: Disk, e: Disk)
    requires Kept(p, d) && d.configPrevious.None? && d.credentialPrevious.None? && NoSnapshotStaging(d)
    requires e == d.(journal := None, status := e.status)
    ensures Kept(p, e)
  {
  }

  /** The record of a finished rollback or commit stands over any files in bounds. */
  lemma FinalMayStand(p: Plan, d: Disk, j: SetupJournal)
    requires Kept(p, d) && d.journal.Some? && Matches(p, j) && IsFinal(j.phase) && Renderable(j)
    ensures Kept(p, d.(journal := Some(j))) && MayClean(p, d.(journal := Some(j)))
  {
  }

  lemma SealKeepsBounds(p: Plan, m: Machine)
    requires Undoing(p, m.disk, m.local)
    ensures Keeps(p, m, SealRollback(m))
  {
    var j := RolledBackOf(m.local);
    RolledBackRenders(p, m.local);
    UndoingIsKept(p, m.disk, m.local);
    FinalMayStand(p, m.disk, j);
    hide Undoing, Kept, Renderable, MayClean, PersistJournal, Cleanup;
    PersistKeepsBounds(p, m, j);
    var f := PersistJournal(m, j);
    if f.Go? {
      CleanupKeepsBounds(p, f.m);
    }
  }

  lemma RollbackApiKeepsBounds(p: Plan, m: Machine)
    requires Undoing(p, m.disk, m.local)
    ensures Keeps(p, m, RollbackApi(m))
  {
    hide Undoing, Kept, UndoAdoption, RollbackConfig, RollbackCredential, ForgetAdoption, PersistJournal, Cleanup;
    var n := NoteRollback(m);
    UndoAdoptionStays(p, n);
    var f1 := UndoAdoption(n);
    UndoingKeeps(p, n, f1);
    if f1.Go? {
      RollbackConfigStays(p, f1.m);
      var f2 := RollbackConfig(f1.m);
      UndoingKeeps(p, f1.m, f2);
      if f2.Go? {
        RollbackCredentialStays(p, f2.m);
        var f3 := RollbackCredential(f2.m);
        UndoingKeeps(p, f2.m, f3);
        if f3.Go? {
          ForgetAdoptionStays(p, f3.m);
          var f4 := ForgetAdoption(f3.m);
          UndoingKeeps(p, f3.m, f4);
          if f4.Go? {
            SealKeepsBounds(p, f4.m);
          }
        }
      }
    }
  }

  lemma RollbackStaticKeepsBounds(p: Plan, m: Machine)
    requires Undoing(p, m.disk, m.local)
    ensures Keeps(p, m, RollbackStatic(m))
  {
    hide Undoing, Kept, RollbackConfig, PersistJournal, Cleanup;
    RollbackConfigStays(p, m);
    var f1 := RollbackConfig(m);
    UndoingKeeps(p, m, f1);
    if f1.Go? {
      SealKeepsBounds(p, f1.m);
    }
  }

  lemma RollbackKeepsBounds(p: Plan, m: Machine)
    requires Undoing(p, m.disk, m.local)
    ensures Keeps(p, m, RollbackByOperation(m))
  {
    hide Undoing, Keeps, RollbackApi, RollbackStatic;
    RollbackApiKeepsBounds(p, m);
    RollbackStaticKeepsBounds(p, m);
  }

  // --------------------------------------------------------------- commit

  lemma VerifiedRenders(p: Plan, local: SetupJournal)
    requires WellPlanned(p) && Matches(p, local) && local.phase.Verifying? && Renderable(local)
    ensures Renderable(VerifiedOf(local)) && Matches(p, VerifiedOf(local))
  {
  }

  lemma FinalizeKeepsBounds(p: Plan, m: Machine)
    requires WellPlanned(p) && Kept(p, m.disk) && m.disk.journal == Some(m.local) && m.local.phase.Verifying?
    ensures Keeps(p, m, FinalizeVerified(m))
  {
    var j := VerifiedOf(m.local);
    VerifiedRenders(p, m.local);
    FinalMayStand(p, m.disk, j);
    hide Kept, Renderable, MayClean, PersistJournal, Cleanup;
    PersistKeepsBounds(p, m, j);
    var f := PersistJournal(m, j);
    if f.Go? {
      CleanupKeepsBounds(p, f.m);
    }
  }

  lemma VerifyingMayStandInBounds(p: Plan, d: Disk, v: SetupJournal)
    requires Kept(p, d) && d.journal.Some? && d.journal.value.phase.Activated?
    requires Matches(p, v) && v.phase.Verifying? && Renderable(v)
    ensures Kept(p, d.(journal := Some(v)))
  {
  }

  lemma KeptMatches(p: Plan, d: Disk)
    requires Kept(p, d) && d.journal.Some?
    ensures Matches(p, d.journal.value) && Renderable(d.journal.value)
  {
  }

  /** Beginning the proof of an activated record. */
  lemma BeginProofKeepsBounds(p: Plan, m: Machine)
    requires WellPlanned(p) && Kept(p, m.disk) && m.disk.journal == Some(m.local) && m.local.phase.Activated?
    ensures Keeps(p, m, BeginProof(m)) && BeginProof(m).m.notes == m.notes
    ensures BeginProof(m).Go? ==>
              BeginProof(m).m.disk.journal == Some(BeginProof(m).m.local) && BeginProof(m).m.local.phase.Verifying?
    ensures BeginProof(m).Raised? ==>
              && BeginProof(m).m.local == m.local
              && BeginProof(m).m.disk.journal.Some? && !IsFinal(BeginProof(m).m.disk.journal.value.phase)
              && BeginProof(m).m.disk == m.disk.(journal := BeginProof(m).m.disk.journal,
                                                 staging := BeginProof(m).m.disk.staging,
                                                 status := BeginProof(m).m.disk.status)
  {
    hide Kept, Renderable, PersistJournal, WellPlanned, BeginProof;
    KeptMatches(p, m.disk);
    BeginProofSteps(m);
    if Pending(m).Clock? {
      var v := ProofRecord(m);
      if Renderable(v) {
        VerifyingMayStandInBounds(p, m.disk, v);
      }
      PersistKeepsBounds(p, Consume(m), v);
    } else {
      KeptAlike(p, m.disk, BeginProof(m).m.disk);
    }
  }

  /** The record a proof begun at the pending clock writes. */
  function ProofRecord(m: Machine): SetupJournal {
    var dev := if m.disk.status.Some? then m.disk.status.value.dev else 0;
    var ino := if m.disk.status.Some? then m.disk.status.value.ino else 0;
    VerifyingOf(m.local, if Pending(m).Clock? then Pending(m).now else 0, dev, ino)
  }

  lemma BeginProofSteps(m: Machine)
    ensures var f, g := BeginProof(m), PersistJournal(Consume(m), ProofRecord(m));
            if Pending(m).Clock? then
              f == (if g.Go? then Go(g.m.(local := ProofRecord(m))) else g)
            else
              && !f.Go? && f.m.notes == m.notes && f.m.local == m.local
              && f.m.disk == m.disk.(status := f.m.disk.status)
  {
    hide PersistJournal;
  }

  lemma VerifyKeepsBounds(p: Plan, m: Machine)
    requires Kept(p, m.disk) && m.disk.journal.Some?
    ensures Keeps(p, m, VerifyHealth(m))
    ensures VerifyHealth(m).m.local == m.local
    ensures VerifyHealth(m).m.disk == m.disk.(status := VerifyHealth(m).m.disk.status)
  {
    VerifyNotes(m);
    hide Kept, VerifyHealth;
    KeptAlike(p, m.disk, VerifyHealth(m).m.disk);
  }

  // ------------------------------------------------------------- recovery

  /** An unfinished record whose restore has not taken effect may be rolled back. */
  lemma UnfinishedIsUndoing(p: Plan, m: Machine)
    requires WellPlanned(p) && Kept(p, m.disk) && m.disk.journal == Some(m.local)
    requires !IsFinal(m.local.phase) && (m.local.phase.Prepared? || !RestoreTookEffect(p, m.disk))
    ensures Undoing(p, m.disk, m.local)
  {
  }

  lemma RecoverVerifyingKeepsBounds(p: Plan, m: Machine)
    requires WellPlanned(p) && Kept(p, m.disk) && m.disk.journal == Some(m.local) && m.local.phase.Verifying?
    requires !RestoreTookEffect(p, m.disk)
    ensures Keeps(p, m, RecoverVerifying(m))
  {
    hide FinalizeVerified, RollbackByOperation, Kept, Undoing, RestoreTookEffect;
    var c, n := Pending(m), Consume(m);
    if c.Fault? {
      KeptAlike(p, m.disk, RecoverVerifying(m).m.disk);
    } else if c.Clock? && IsFresh(n.local, n.disk.status, c.now) {
      FinalizeKeepsBounds(p, NoteProved(n));
    } else {
      var u := Unproved(n);
      UnfinishedIsUndoing(p, u);
      RollbackKeepsBounds(p, u);
    }
  }

  lemma RecoverActivatedKeepsBounds(p: Plan, m: Machine)
    requires WellPlanned(p) && Kept(p, m.disk) && m.disk.journal == Some(m.local) && m.local.phase.Activated?
    requires !p.operation.StaticRestore?
    ensures Keeps(p, m, RecoverActivated(m))
  {
    hide FinalizeVerified, RollbackByOperation, Kept, Undoing, BeginProof, VerifyHealth;
    BeginProofKeepsBounds(p, m);
    var f1 := BeginProof(m);
    if f1.Go? {
      VerifyKeepsBounds(p, f1.m);
      var f2 := VerifyHealth(f1.m);
      if f2.Go? {
        FinalizeKeepsBounds(p, f2.m);
      } else if f2.Raised? {
        UnfinishedIsUndoing(p, f2.m);
        RollbackKeepsBounds(p, f2.m);
      }
    }
  }

  /** A visible static restore has taken effect, and one that has is never seen as not visible. */
  lemma VisibleTookEffect(p: Plan, d: Disk)
    requires WellPlanned(p) && Kept(p, d) && p.operation.StaticRestore? && d.journal.Some?
    requires !d.journal.value.phase.Prepared? && !IsFinal(d.journal.value.phase)
    ensures StaticRestoreVisible(d) == Ok(true) ==> RestoreTookEffect(p, d)
    ensures StaticRestoreVisible(d) == Ok(false) ==> !RestoreTookEffect(p, d)
  {
  }

  lemma RecoverJournalKeepsBounds(p: Plan, m: Machine)
    requires WellPlanned(p) && Kept(p, m.disk) && m.disk.journal.Some?
    ensures Keeps(p, m, RecoverJournal(m))
  {
    var j := m.disk.journal.value;
    var n := m.(local := j);
    assert Matches(p, j);
    var restore := j.operation.StaticRestore? && !j.phase.Prepared? && !IsFinal(j.phase);
    if restore {
      VisibleTookEffect(p, m.disk);
    }
    assert !p.operation.StaticRestore? ==> !RestoreTookEffect(p, m.disk);
    hide Kept, Undoing, RestoreTookEffect, RecoverVerifying, RecoverActivated, RollbackByOperation, Cleanup,
      StaticRestoreVisible;
    if IsFinal(j.phase) {
      CleanupKeepsBounds(p, n);
    } else if restore && StaticRestoreVisible(n.disk).Err? {
    } else if restore && StaticRestoreVisible(n.disk) == Ok(true) {
      RestorePhases(p, n.disk);
      CleanupKeepsBounds(p, n);
    } else if j.phase.Verifying? && j.verifyStarted > 0 {
      RecoverVerifyingKeepsBounds(p, n);
    } else if j.phase.Activated? && CanBeProvedLater(j.operation) {
      RecoverActivatedKeepsBounds(p, n);
    } else {
      UnfinishedIsUndoing(p, n);
      RollbackKeepsBounds(p, n);
    }
  }

  lemma RestorePhases(p: Plan, d: Disk)
    requires Kept(p, d) && p.operation.StaticRestore? && d.journal.Some?
    requires !d.journal.value.phase.Prepared? && !IsFinal(d.journal.value.phase)
    ensures IsRestorePhase(d.journal.value.phase)
  {
  }

  lemma DiscardKeepsBounds(p: Plan, m: Machine, entry: Entry)
    requires Kept(p, m.disk) && IsPrivate(entry)
    ensures Keeps(p, m, DiscardStaging(m, entry))
    ensures DiscardStaging(m, entry).m.disk
            == m.disk.(staging := DiscardStaging(m, entry).m.disk.staging,
                       status := DiscardStaging(m, entry).m.disk.status)
  {
    KeptAlike(p, m.disk, DiscardStaging(m, entry).m.disk);
    hide Kept;
  }

  lemma DiscardsKeepBounds(p: Plan, m: Machine)
    requires Kept(p, m.disk)
    ensures Keeps(p, m, DiscardPrivate(m))
  {
    hide Kept, DiscardStaging;
    DiscardKeepsBounds(p, m, JournalStaging);
    var f1 := DiscardStaging(m, JournalStaging);
    if f1.Go? {
      DiscardKeepsBounds(p, f1.m, ConfigStaging);
      var f2 := DiscardStaging(f1.m, ConfigStaging);
      if f2.Go? {
        DiscardKeepsBounds(p, f2.m, CredentialStaging);
      }
    }
  }

  /** Without a record there is nothing to inspect. */
  lemma NothingIsLeft(p: Plan, d: Disk)
    requires Kept(p, d) && d.journal.None? && NoPrivateStaging(d)
    ensures ArtifactsClear(d)
  {
    NoStagingLeft(d);
  }

  /** Recovery, complete, failed or cut anywhere, keeps the bounds and meets no unusable snapshot. */
  lemma RecoverKeepsBounds(p: Plan, m: Machine)
    requires WellPlanned(p) && Kept(p, m.disk)
    ensures Keeps(p, m, Recover(m))
  {
    hide Kept, RecoverJournal, DiscardStaging;
    DiscardsKeepBounds(p, m);
    DiscardsRemove(m);
    var f := DiscardPrivate(m);
    if f.Go? {
      if f.m.disk.journal.Some? {
        RecoverJournalKeepsBounds(p, f.m);
      } else {
        NothingIsLeft(p, f.m.disk);
      }
    }
  }

  // -------------------------------------------------------------- forward

  /** A recorded forward run with the snapshots it needs. */
  ghost predicate Forwarding(p: Plan, m: Machine) {
    Undoing(p, m.disk, m.local) && HasSnapshots(p, m.disk)
  }

  /** A forward step: the disk may be rolled back from wherever it ends, and complete it leaves the snapshots in
      place. */
  ghost predicate StaysForwarding(p: Plan, m: Machine, f: Flow) {
    && f.m.notes == m.notes && Undoing(p, f.m.disk, f.m.local)
    && (f.Go? ==> HasSnapshots(p, f.m.disk))
  }

  lemma ForwardKeeps(p: Plan, m: Machine, f: Flow)
    requires StaysForwarding(p, m, f)
    ensures Keeps(p, m, f)
  {
    UndoingIsKept(p, f.m.disk, f.m.local);
    hide Undoing, Kept;
  }

  lemma FirstRecordInBounds(p: Plan, m: Machine)
    requires WellPlanned(p) && m.disk == p.before && m.local == PreparedJournal(p)
    ensures var f := PersistJournal(m, m.local);
            && f.m.notes == m.notes && f.m.local == m.local && Kept(p, f.m.disk)
            && (f.m.disk.journal.Some? ==> Undoing(p, f.m.disk, m.local))
            && (f.Go? ==> f.m.disk == m.disk.(journal := Some(m.local)))
  {
    var written := m.disk.(journal := Some(m.local));
    var f := PersistJournal(m, m.local);
    if Renderable(m.local) {
      AtomicWriteCases(m, JournalStaging, written);
      assert Undoing(p, written, m.local);
      if Alike(m.disk, f.m.disk) {
        KeptAlike(p, m.disk, f.m.disk);
      } else {
        UndoingAlike(p, written, f.m.disk, m.local);
        UndoingIsKept(p, f.m.disk, m.local);
      }
    }
    hide Undoing, AtomicWrite, Renderable;
  }

  lemma SnapshotEnds(m: Machine, entry: Entry, taken: Disk)
    requires taken.status == m.disk.status
    ensures var f := SnapshotStep(m, entry, taken);
            && f.m.notes == m.notes && f.m.local == m.local
            && (f.m.disk == m.disk.(staging := f.m.disk.staging, status := f.m.disk.status)
                || f.m.disk == taken.(staging := f.m.disk.staging, status := f.m.disk.status))
            && (f.Go? ==> f.m.disk == taken.(staging := f.m.disk.staging))
  {
  }

  lemma SnapshotConfigStays(p: Plan, m: Machine)
    requires Undoing(p, m.disk, m.local)
    ensures StaysUndoing(p, m, SnapshotConfig(m))
    ensures SnapshotConfig(m).Go? ==>
              SnapshotConfig(m).m.disk
              == m.disk.(configPrevious := Some(p.before.config), staging := SnapshotConfig(m).m.disk.staging)
  {
    if m.disk.configPrevious.None? {
      var taken := m.disk.(configPrevious := Some(m.disk.config));
      assert Undoing(p, taken, m.local);
      SnapshotEnds(m, ConfigSnapshotStaging, taken);
      var f := SnapshotConfig(m);
      if f.m.disk == m.disk.(staging := f.m.disk.staging, status := f.m.disk.status) {
        UndoingAlike(p, m.disk, f.m.disk, m.local);
      } else {
        UndoingAlike(p, taken, f.m.disk, m.local);
      }
    }
    hide Undoing, SnapshotStep;
  }

  lemma SnapshotCredentialStays(p: Plan, m: Machine)
    requires Undoing(p, m.disk, m.local) && p.key.changed && p.key.had
    ensures StaysUndoing(p, m, SnapshotCredential(m))
    ensures SnapshotCredential(m).Go? ==>
              SnapshotCredential(m).m.disk
              == m.disk.(credentialPrevious := p.before.credential, staging := SnapshotCredential(m).m.disk.staging)
  {
    if m.disk.credentialPrevious.None? && m.disk.credential.Some? {
      var taken := m.disk.(credentialPrevious := m.disk.credential);
      assert Undoing(p, taken, m.local);
      SnapshotEnds(m, CredentialSnapshotStaging, taken);
      var f := SnapshotCredential(m);
      if f.m.disk == m.disk.(staging := f.m.disk.staging, status := f.m.disk.status) {
        UndoingAlike(p, m.disk, f.m.disk, m.local);
      } else {
        UndoingAlike(p, taken, f.m.disk, m.local);
      }
    }
    hide Undoing, SnapshotStep;
  }

  lemma WriteConfigStays(p: Plan, m: Machine)
    requires Forwarding(p, m) && (p.operation.StaticRestore? ==> p.before.config.source.Static?)
    ensures StaysForwarding(p, m, WriteConfig(m, p.config)) && WriteConfig(m, p.config).m.local == m.local
    ensures WriteConfig(m, p.config).Go? ==> WriteConfig(m, p.config).m.disk.config == p.config
  {
    var written := m.disk.(config := p.config);
    UndoingMoves(p, m.disk, written, m.local);
    WriteStaysUndoing(p, m, ConfigStaging, written);
    AtomicWriteCases(m, ConfigStaging, written);
    hide Undoing, AtomicWrite;
  }

  lemma WriteCredentialStays(p: Plan, m: Machine)
    requires Forwarding(p, m) && p.key.changed
    ensures StaysForwarding(p, m, WriteCredential(m, p.key.key)) && WriteCredential(m, p.key.key).m.local == m.local
    ensures WriteCredential(m, p.key.key).Go? ==> WriteCredential(m, p.key.key).m.disk.config == m.disk.config
  {
    var written := m.disk.(credential := Some(p.key.key));
    UndoingMoves(p, m.disk, written, m.local);
    WriteStaysUndoing(p, m, CredentialStaging, written);
    AtomicWriteCases(m, CredentialStaging, written);
    hide Undoing, AtomicWrite;
  }

  /** A phase the forward run may record on its way. */
  predicate MayAdvance(operation: Operation, phase: Phase) {
    && phase in OperationPhases(operation) && !IsFinal(phase) && !phase.Verifying?
    && (operation.StaticRestore? ==> phase.Prepared? || phase.Activating?)
  }

  lemma AdvanceStays(p: Plan, m: Machine, phase: Phase)
    requires Forwarding(p, m) && MayAdvance(p.operation, phase)
    ensures StaysForwarding(p, m, Advance(m, phase)) && Advance(m, phase).m.local == m.local.(phase := phase)
    ensures Advance(m, phase).Go? ==> Advance(m, phase).m.disk == m.disk.(journal := Some(Advance(m, phase).m.local))
  {
    var j := m.local.(phase := phase);
    var n := m.(local := j);
    assert Undoing(p, n.disk, j);
    var written := n.disk.(journal := Some(j));
    if Renderable(j) {
      assert Undoing(p, written, j);
      WriteStaysUndoing(p, n, JournalStaging, written);
      AtomicWriteCases(n, JournalStaging, written);
    }
    hide Undoing, AtomicWrite, Renderable;
  }

  lemma AttemptStays(p: Plan, m: Machine)
    requires Forwarding(p, m)
    ensures StaysForwarding(p, m, Attempt(m)) && Attempt(m).m.local == m.local
    ensures Attempt(m).Go? ==> Attempt(m).m.disk == m.disk
  {
    StepsStayUndoing(p, m, m.disk, m.disk);
    RemovalCases(m, m.disk, m.disk);
    hide Undoing, RemovalSteps;
  }

  lemma ActivationStays(p: Plan, m: Machine)
    requires Forwarding(p, m) && m.disk.config == p.config && (p.operation.Adopt? || p.operation.Provision?)
    ensures var command := if p.operation.Adopt? then RunAdopt else RunProvision(p.generated);
            StaysForwarding(p, m, RunCommand(m, command)) && RunCommand(m, command).m.local == m.local
  {
    var command := if p.operation.Adopt? then RunAdopt else RunProvision(p.generated);
    var first, both := CommandStarted(m.disk, command), CommandDone(m.disk, command);
    UndoingMoves(p, m.disk, first, m.local);
    UndoingMoves(p, m.disk, both, m.local);
    StepsStayUndoing(p, m, first, both);
    RemovalCases(m, first, both);
    hide Undoing, RemovalSteps;
  }

  lemma StageInBounds(p: Plan, m: Machine)
    requires WellPlanned(p) && p.operation.IsApi() && m.disk == p.before && m.local == PreparedJournal(p)
    ensures var f := StageSettings(m, p);
            && Keeps(p, m, f) && f.m.notes == m.notes
            && (f.m.disk.journal.Some? ==> Undoing(p, f.m.disk, f.m.local))
            && (f.Go? ==> Forwarding(p, f.m) && f.m.disk.config == p.config)
  {
    hide Undoing, Kept, SnapshotConfig, SnapshotCredential, WriteConfig, Advance, PersistJournal;
    FirstRecordInBounds(p, m);
    var f1 := PersistJournal(m, m.local);
    if f1.Go? {
      SnapshotConfigStays(p, f1.m);
      var f2 := SnapshotConfig(f1.m);
      UndoingKeeps(p, f1.m, f2);
      if f2.Go? {
        assert f2.m.disk.credentialPrevious.None?;
        if p.key.changed && p.key.had {
          SnapshotCredentialStays(p, f2.m);
        }
        var f3 := if p.key.changed && p.key.had then SnapshotCredential(f2.m) else Go(f2.m);
        UndoingKeeps(p, f2.m, f3);
        if f3.Go? {
          assert HasSnapshots(p, f3.m.disk);
          WriteConfigStays(p, f3.m);
          var f4 := WriteConfig(f3.m, p.config);
          ForwardKeeps(p, f3.m, f4);
          if f4.Go? {
            AdvanceStays(p, f4.m, ConfigWritten);
            ForwardKeeps(p, f4.m, Advance(f4.m, ConfigWritten));
          }
        }
      }
    }
  }

  lemma InstallInBounds(p: Plan, m: Machine)
    requires Forwarding(p, m) && p.operation.IsApi()
    ensures StaysForwarding(p, m, InstallCredential(m, p))
    ensures InstallCredential(m, p).Go? ==> InstallCredential(m, p).m.disk.config == m.disk.config
  {
    hide Undoing, WriteCredential, Advance, Attempt;
    if p.key.changed {
      WriteCredentialStays(p, m);
      var f1 := WriteCredential(m, p.key.key);
      if f1.Go? {
        AdvanceStays(p, f1.m, CredentialWritten);
        var f2 := Advance(f1.m, CredentialWritten);
        if f2.Go? {
          AttemptStays(p, f2.m);
        }
      }
    }
  }

  lemma ActivateInBounds(p: Plan, m: Machine)
    requires Forwarding(p, m) && m.disk.config == p.config && p.operation.IsApi()
    ensures var f := Activate(m, p);
            StaysForwarding(p, m, f)
            && (f.Go? ==> f.m.disk.journal == Some(f.m.local) && f.m.local.phase.Activated?)
  {
    hide Undoing, RunCommand, Advance;
    if !p.operation.ApiUpdate? {
      ActivationStays(p, m);
    }
    var command := if p.operation.Adopt? then RunAdopt else RunProvision(p.generated);
    var f1 := if p.operation.ApiUpdate? then Go(m) else RunCommand(m, command);
    if f1.Go? {
      AdvanceStays(p, f1.m, Activated);
    }
  }

  /** Past activation a record that is not a restore's may be rolled back under any process-local record. */
  lemma ProvenIsUndoing(p: Plan, d: Disk, local: SetupJournal)
    requires WellPlanned(p) && Kept(p, d) && Matches(p, local) && !p.operation.StaticRestore?
    requires d.journal.Some? && (d.journal.value.phase.Activated? || d.journal.value.phase.Verifying?)
    ensures Undoing(p, d, local)
  {
  }

  /** The outcome of the forward part: what it leaves may be rolled back from, or committed. */
  ghost predicate ForwardEnds(p: Plan, m: Machine, f: Flow) {
    && Keeps(p, m, f)
    && (f.Raised? && f.m.disk.journal.Some? ==> Undoing(p, f.m.disk, f.m.local))
    && (f.Go? ==> f.m.disk.journal == Some(f.m.local) && f.m.local.phase.Verifying?)
  }

  lemma ProveInBounds(p: Plan, m: Machine)
    requires WellPlanned(p) && Kept(p, m.disk) && m.disk.journal == Some(m.local) && m.local.phase.Activated?
    requires !p.operation.StaticRestore?
    ensures ForwardEnds(p, m, Prove(m))
  {
    assert Matches(p, m.local);
    BeginProofKeepsBounds(p, m);
    BeginProofPhases(m);
    var f1 := BeginProof(m);
    if f1.Go? {
      VerifyKeepsBounds(p, f1.m);
      VerifyPhases(f1.m);
      var f2 := VerifyHealth(f1.m);
      if f2.Raised? {
        assert Matches(p, f1.m.local) by {
          assert Kept(p, f1.m.disk);
        }
        ProvenIsUndoing(p, f2.m.disk, f2.m.local);
      }
    } else if f1.Raised? {
      ProvenIsUndoing(p, f1.m.disk, f1.m.local);
    }
    hide Kept, Undoing, BeginProof, VerifyHealth;
  }

  lemma BeginProofPhases(m: Machine)
    requires m.disk.journal == Some(m.local) && m.local.phase.Activated?
    ensures var d := BeginProof(m).m.disk;
            d.journal.Some? && (d.journal.value.phase.Activated? || d.journal.value.phase.Verifying?)
  {
    hide Renderable;
  }

  lemma VerifyPhases(m: Machine)
    ensures VerifyHealth(m).m.disk.journal == m.disk.journal && VerifyHealth(m).m.local == m.local
  {
  }

  lemma ApiForwardInBounds(p: Plan, m: Machine)
    requires WellPlanned(p) && p.operation.IsApi() && m.disk == p.before && m.local == PreparedJournal(p)
    ensures ForwardEnds(p, m, ApiForward(m, p))
  {
    hide Undoing, Kept, StageSettings, InstallCredential, Activate, Prove;
    StageInBounds(p, m);
    var f1 := StageSettings(m, p);
    if f1.Go? {
      InstallInBounds(p, f1.m);
      var f2 := InstallCredential(f1.m, p);
      ForwardKeeps(p, f1.m, f2);
      if f2.Go? {
        ActivateInBounds(p, f2.m);
        var f3 := Activate(f2.m, p);
        ForwardKeeps(p, f2.m, f3);
        if f3.Go? {
          UndoingIsPlanned(p, f3.m.disk, f3.m.local);
          ProveInBounds(p, f3.m);
        }
      }
    }
  }

  lemma UndoingIsPlanned(p: Plan, d: Disk, local: SetupJournal)
    requires Undoing(p, d, local)
    ensures WellPlanned(p) && Kept(p, d)
  {
  }

  /** Applying an API request, complete, failed or cut anywhere, keeps the bounds and meets no unusable snapshot. */
  lemma ApplyApiKeepsBounds(p: Plan, m: Machine, req: ApiRequest)
    requires WellPlanned(p) && p.operation.IsApi() && m.disk == p.before && PlanApi(req, m.disk) == Ok(p)
    ensures Keeps(p, m, ApplyApi(m, req))
  {
    BeforeIsKept(p);
    RemovalCases(m, m.disk, m.disk);
    var f1 := Attempt(m);
    KeptAlike(p, m.disk, f1.m.disk);
    hide Undoing, Kept, ApiForward, FinalizeVerified, RollbackApi, PlanApi, RemovalSteps;
    if f1.Go? {
      var n := f1.m.(local := PreparedJournal(p));
      ApiForwardInBounds(p, n);
      var f2 := ApiForward(n, p);
      if f2.Go? {
        FinalizeKeepsBounds(p, f2.m);
      } else if f2.Raised? && f2.m.disk.journal.Some? {
        RollbackApiKeepsBounds(p, f2.m);
      }
    }
  }

  lemma BeforeIsKept(p: Plan)
    requires WellPlanned(p)
    ensures Kept(p, p.before)
  {
  }

  // --------------------------------------------------------------- static

  /** The restore is in effect under an unfinished record. */
  ghost predicate Restored(p: Plan, m: Machine) {
    && WellPlanned(p) && Kept(p, m.disk) && RestoreTookEffect(p, m.disk) && Matches(p, m.local)
    && m.disk.journal.Some? && IsRestorePhase(m.disk.journal.value.phase)
  }

  lemma RestoreStays(p: Plan, m: Machine)
    requires Forwarding(p, m) && p.operation.StaticRestore? && m.disk.journal.value.phase.Activating?
    ensures var f := RunCommand(m, RunRestoreStatic);
            && StaysForwarding(p, m, f) && f.m.local == m.local
            && (f.Go? ==> Restored(p, f.m) && f.m.disk.journal == m.disk.journal)
  {
    var first, both := CommandHalf(m.disk, RunRestoreStatic, Pending(m)), CommandDone(m.disk, RunRestoreStatic);
    if !CommandRefused(m.disk, RunRestoreStatic) {
      RestoringMoves(p, m);
      StepsStayUndoing(p, m, first, both);
      RemovalCases(m, first, both);
      UndoingIsKept(p, both, m.local);
      assert RestoreTookEffect(p, both);
    }
    hide Kept, Undoing, RemovalSteps, RestoreTookEffect;
  }

  lemma RestoringMoves(p: Plan, m: Machine)
    requires Undoing(p, m.disk, m.local) && HasSnapshots(p, m.disk) && p.operation.StaticRestore?
    requires !CommandRefused(m.disk, RunRestoreStatic)
    ensures Undoing(p, CommandHalf(m.disk, RunRestoreStatic, Pending(m)), m.local)
    ensures Undoing(p, CommandDone(m.disk, RunRestoreStatic), m.local)
  {
    UndoingMoves(p, m.disk, CommandHalf(m.disk, RunRestoreStatic, Pending(m)), m.local);
    UndoingMoves(p, m.disk, CommandDone(m.disk, RunRestoreStatic), m.local);
  }

  lemma StaticBodyInBounds(p: Plan, m: Machine)
    requires WellPlanned(p) && p.operation.IsStatic() && m.disk == p.before && m.local == PreparedJournal(p)
    ensures var f := StaticBody(m, p);
            && Keeps(p, m, f) && f.m.notes == m.notes
            && (f.Raised? && f.m.disk.journal.Some? ==> Undoing(p, f.m.disk, f.m.local))
            && (f.Go? ==> if p.operation.StaticRestore? then Restored(p, f.m) else Forwarding(p, f.m))
  {
    hide Undoing, Kept, SnapshotConfig, WriteConfig, Advance, PersistJournal, RunCommand, Restored;
    FirstRecordInBounds(p, m);
    var f1 := PersistJournal(m, m.local);
    if f1.Go? {
      SnapshotConfigStays(p, f1.m);
      var f2 := SnapshotConfig(f1.m);
      UndoingKeeps(p, f1.m, f2);
      if f2.Go? {
        assert HasSnapshots(p, f2.m.disk);
        if p.operation.StaticRestore? {
          AdvanceStays(p, f2.m, Activating);
          var f3 := Advance(f2.m, Activating);
          ForwardKeeps(p, f2.m, f3);
          if f3.Go? {
            RestoreStays(p, f3.m);
            ForwardKeeps(p, f3.m, RunCommand(f3.m, RunRestoreStatic));
          }
        } else {
          WriteConfigStays(p, f2.m);
          ForwardKeeps(p, f2.m, WriteConfig(f2.m, p.config));
        }
      }
    }
  }

  lemma RestoredMayRecord(p: Plan, m: Machine, j: SetupJournal)
    requires Restored(p, m) && Matches(p, j) && Renderable(j) && (j.phase.Activated? || j.phase.Verifying?)
    ensures Kept(p, m.disk.(journal := Some(j)))
    ensures RestoreTookEffect(p, m.disk.(journal := Some(j)))
  {
  }

  lemma RestoredAlike(p: Plan, m: Machine, n: Machine)
    requires Restored(p, m) && Matches(p, n.local)
    requires n.disk == m.disk.(staging := n.disk.staging, status := n.disk.status)
    ensures Restored(p, n)
  {
  }

  lemma RestoredPersist(p: Plan, m: Machine, j: SetupJournal)
    requires Restored(p, m) && Matches(p, j) && (j.phase.Activated? || j.phase.Verifying?)
    ensures var f := PersistJournal(m, j);
            && Restored(p, f.m) && f.m.notes == m.notes && f.m.local == m.local
            && (f.Go? ==> f.m.disk.journal == Some(j))
  {
    var f := PersistJournal(m, j);
    if Renderable(j) {
      var written := m.disk.(journal := Some(j));
      RestoredMayRecord(p, m, j);
      AtomicWriteCases(m, JournalStaging, written);
      if Alike(m.disk, f.m.disk) {
        RestoredAlike(p, m, f.m);
      } else {
        RestoredAlike(p, m.(disk := written), f.m);
      }
    }
    hide Restored, AtomicWrite, Renderable, Kept, RestoreTookEffect;
  }

  lemma RestoredProof(p: Plan, m: Machine)
    requires Restored(p, m) && p.operation.StaticRestore?
    ensures var f := StaticProof(m);
            && Restored(p, f.m) && (Inspection in f.m.notes ==> Inspection in m.notes)
            && (f.Go? ==> f.m.disk.journal == Some(f.m.local) && f.m.local.phase.Verifying?)
  {
    hide Restored, Advance, BeginProof, VerifyHealth;
    RestoredAdvance(p, m);
    var f1 := Advance(m, Activated);
    if f1.Go? {
      RestoredBegin(p, f1.m);
      var f2 := BeginProof(f1.m);
      if f2.Go? {
        RestoredVerify(p, f2.m);
      }
    }
  }

  lemma RestoredAdvance(p: Plan, m: Machine)
    requires Restored(p, m) && p.operation.StaticRestore?
    ensures var f := Advance(m, Activated);
            Restored(p, f.m) && f.m.notes == m.notes
  {
    var j := m.local.(phase := Activated);
    assert Matches(p, j);
    RestoredAlike(p, m, m.(local := j));
    hide Restored, PersistJournal, Renderable;
    RestoredPersist(p, m.(local := j), j);
  }

  lemma RestoredVerify(p: Plan, m: Machine)
    requires Restored(p, m)
    ensures var f := VerifyHealth(m);
            && Restored(p, f.m) && (Inspection in f.m.notes ==> Inspection in m.notes)
            && f.m.disk.journal == m.disk.journal && f.m.local == m.local
  {
    VerifyNotes(m);
    RestoredMatches(p, m);
    hide Restored, VerifyHealth;
    RestoredAlike(p, m, VerifyHealth(m).m);
  }

  lemma RestoredMatches(p: Plan, m: Machine)
    requires Restored(p, m)
    ensures Matches(p, m.local)
  {
  }

  lemma RestoredBegin(p: Plan, m: Machine)
    requires Restored(p, m) && p.operation.StaticRestore?
    ensures var f := BeginProof(m);
            && Restored(p, f.m) && f.m.notes == m.notes
            && (f.Go? ==> f.m.disk.journal == Some(f.m.local) && f.m.local.phase.Verifying?)
  {
    var c, n := Pending(m), Consume(m);
    var dev := if m.disk.status.Some? then m.disk.status.value.dev else 0;
    var ino := if m.disk.status.Some? then m.disk.status.value.ino else 0;
    var v := VerifyingOf(m.local, if c.Clock? then c.now else 0, dev, ino);
    assert Matches(p, v);
    RestoredAlike(p, m, n);
    RestoredPersist(p, n, v);
    var f := BeginProof(m);
    if !c.Clock? {
      RestoredAlike(p, m, f.m);
    } else if f.Go? {
      RestoredAlike(p, PersistJournal(n, v).m, f.m);
    }
    hide Restored, PersistJournal, Renderable;
  }

  lemma RestoredMayClean(p: Plan, m: Machine)
    requires Restored(p, m)
    ensures Kept(p, m.disk) && MayClean(p, m.disk) && WellPlanned(p)
  {
  }

  /** The same for a static request. */
  lemma ApplyStaticKeepsBounds(p: Plan, m: Machine, restore: bool)
    requires WellPlanned(p) && m.disk == p.before && PlanStatic(restore, m.disk) == p
    ensures Keeps(p, m, ApplyStatic(m, restore))
  {
    assert p.operation.IsStatic() && (p.operation.StaticRestore? <==> restore);
    hide Undoing, Kept, Restored, StaticBody, StaticProof, FinalizeVerified, RollbackStatic, Cleanup, PlanStatic;
    var n := m.(local := PreparedJournal(p));
    StaticBodyInBounds(p, n);
    var f1 := StaticBody(n, p);
    if f1.Raised? {
      if f1.m.disk.journal.Some? {
        RollbackStaticKeepsBounds(p, f1.m);
      }
    } else if f1.Go? {
      if restore {
        RestoredProof(p, f1.m);
        var f2 := StaticProof(f1.m);
        RestoredMayClean(p, f2.m);
        CleanupKeepsBounds(p, f2.m);
        if f2.Go? {
          FinalizeKeepsBounds(p, f2.m);
        }
      } else {
        StaticProofInBounds(p, f1.m);
        var f2 := StaticProof(f1.m);
        if f2.Go? {
          FinalizeKeepsBounds(p, f2.m);
        } else if f2.Raised? && f2.m.disk.journal.Some? {
          RollbackStaticKeepsBounds(p, f2.m);
        }
      }
    }
  }

  lemma StaticProofInBounds(p: Plan, m: Machine)
    requires Forwarding(p, m) && p.operation.StaticSwitch?
    ensures ForwardEnds(p, m, StaticProof(m))
  {
    hide Undoing, Kept, Advance, Prove;
    AdvanceStays(p, m, Activated);
    var f1 := Advance(m, Activated);
    ForwardKeeps(p, m, f1);
    if f1.Go? {
      UndoingIsPlanned(p, f1.m.disk, f1.m.local);
      ProveInBounds(p, f1.m);
    }
  }
}
