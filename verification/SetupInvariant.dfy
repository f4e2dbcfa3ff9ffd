/** What every crash of a setup transaction leaves behind, and why recovery can always settle it. */
module SetupInvariant {
  import opened Wrappers
  import opened SetupJournals
  import opened SetupMachine
  import opened SetupClearance

  // -------------------------------------------------------- vocabulary

  /** What planning guarantees about a transaction before its first durable step. */
  ghost predicate WellPlanned(p: Plan) {
    && ArtifactsClear(p.before)
    && (p.key.had <==> p.before.credential.Some?)
    && (p.operation.ApiUpdate? ==> p.before.config.source.Api? && p.before.profile.Some?)
    && (p.operation.Adopt? ==> p.before.config.source.Static? && p.before.profile.Some?)
    && (p.operation.Provision? ==> p.before.config.source.Static? && p.before.profile.None?)
    && (p.operation.IsStatic() ==> !p.key.changed && p.config == p.before.config.(source := Static))
    && (p.operation.IsApi() ==> p.config.source == p.before.config.source && (p.key.had || p.key.changed))
    && p.config.rest == p.before.config.rest
  }

  ghost predicate Matches(p: Plan, j: SetupJournal) {
    && j.operation == p.operation
    && j.hadKey == p.key.had
    && j.hadPreManaged == p.before.preManaged.Some?
    && j.keyChanged == p.key.changed
    && j.phase in OperationPhases(p.operation)
  }

  /** Every file the transaction owns is as it was. A failed provision or static restore may leave
      its profile behind. */
  ghost predicate IsRestored(p: Plan, d: Disk) {
    && d.config == p.before.config
    && d.credential == p.before.credential
    && d.preManaged == p.before.preManaged
    && (!p.operation.Provision? && !p.operation.StaticRestore? ==> d.profile == p.before.profile)
  }

  /** Every file the transaction owns has its new value. */
  ghost predicate IsActivated(p: Plan, d: Disk) {
    && d.config == p.config.(source := if p.operation.IsStatic() then Static else Api)
    && d.credential == (if p.key.changed then Some(p.key.key) else p.before.credential)
    && d.preManaged == (if p.operation.Adopt? && p.before.preManaged.None?
                        then p.before.profile else p.before.preManaged)
    && d.profile == ActivatedProfile(p)
  }

  ghost function ActivatedProfile(p: Plan): Option<Profile> {
    if p.operation.Provision? then Some(p.generated)
    else if p.operation.StaticRestore? then p.before.preManaged
    else p.before.profile
  }

  ghost predicate IsSettled(p: Plan, d: Disk) {
    IsRestored(p, d) || IsActivated(p, d)
  }

  /** Settled, and on the new side only after a proof or as an exact static restore. */
  ghost predicate IsJustified(p: Plan, d: Disk, notes: set<Note>) {
    IsRestored(p, d) || (IsActivated(p, d) && (Proved in notes || p.operation.StaticRestore?))
  }

  /** Both snapshots the transaction needs are in place with the original bytes. */
  ghost predicate HasSnapshots(p: Plan, d: Disk) {
    && d.configPrevious == Some(p.before.config)
    && d.credentialPrevious == (if p.key.changed && p.key.had then p.before.credential else None)
  }

  /** Whatever a snapshot does not yet protect is unchanged. */
  ghost predicate Recoverable(p: Plan, d: Disk) {
    && (d.configPrevious == Some(p.before.config)
        || (d.configPrevious.None? && d.config == p.before.config
            && d.preManaged == p.before.preManaged && d.profile == p.before.profile))
    && (if p.key.changed && p.key.had then
          d.credentialPrevious == p.before.credential
          || (d.credentialPrevious.None? && d.credential == p.before.credential)
        else
          d.credentialPrevious.None? && (!p.key.changed ==> d.credential == p.before.credential))
    && (d.preManaged == p.before.preManaged
        || (p.operation.Adopt? && p.before.preManaged.None? && d.preManaged == p.before.profile))
    && (!p.operation.Provision? && !p.operation.StaticRestore? ==> d.profile == p.before.profile)
    && (p.operation.StaticRestore? ==> d.config == p.before.config || d.config == p.config)
  }

  /** Operations whose interrupted activation recovery may still prove. */
  predicate CanBeProvedLater(operation: Operation) {
    operation.ApiUpdate? || operation.StaticSwitch?
  }

  /** A static restore that has taken effect stays in effect. */
  ghost predicate RestoreTookEffect(p: Plan, d: Disk) {
    && p.operation.StaticRestore? && IsActivated(p, d)
    && (d.configPrevious.Some? ==> d.configPrevious == Some(p.before.config))
  }

  /** What a recorded phase promises about the disk. */
  ghost predicate PhaseHolds(p: Plan, d: Disk, notes: set<Note>, j: SetupJournal) {
    match j.phase
    case Prepared => Recoverable(p, d)
    case ConfigWritten => Recoverable(p, d) && HasSnapshots(p, d)
    case CredentialWritten => Recoverable(p, d) && HasSnapshots(p, d)
    case Activating => RestoreTookEffect(p, d) || (Recoverable(p, d) && HasSnapshots(p, d))
    case Activated =>
      RestoreTookEffect(p, d)
      || (Recoverable(p, d) && HasSnapshots(p, d) && !p.operation.StaticRestore?
          && (CanBeProvedLater(p.operation) ==> IsSettled(p, d)))
    case Verifying =>
      RestoreTookEffect(p, d)
      || (Recoverable(p, d) && HasSnapshots(p, d) && !p.operation.StaticRestore?
          && j.verifyStarted > 0 && (CouldBeFresh(j, d.status) ==> IsSettled(p, d)))
    case Verified => IsJustified(p, d, notes)
    case RolledBack => IsRestored(p, d)
  }

  /** The invariant of every disk state a transaction can leave, whatever cut it. */
  ghost predicate Inv(p: Plan, d: Disk, notes: set<Note>) {
    match d.journal
    case None =>
      && d.configPrevious.None? && d.credentialPrevious.None? && NoSnapshotStaging(d)
      && IsJustified(p, d, notes)
    case Some(j) =>
      && Matches(p, j)
      && PhaseHolds(p, d, notes, j)
  }

  predicate Excused(notes: set<Note>) {
    LateHealth in notes || ExposedRollback in notes
  }

  /** The invariant, or one of the two recorded events under which it is not claimed. */
  ghost predicate Safe(p: Plan, m: Machine) {
    Excused(m.notes) || Inv(p, m.disk, m.notes)
  }

  // ------------------------------------------- effects of one operation

  /** Equal but for staging entries and a status that may have been lost. */
  predicate Alike(d: Disk, e: Disk) {
    e == d.(staging := e.staging, status := e.status) && (e.status == d.status || e.status.None?)
  }

  /** A directory free of snapshot staging entries stays free of them. */
  predicate SnapshotsAsIn(d: Disk, e: Disk) {
    (NoSnapshotStaging(d) ==> NoSnapshotStaging(e))
  }

  lemma AlikeKeepsInv(p: Plan, d: Disk, e: Disk, notes: set<Note>)
    requires Inv(p, d, notes) && Alike(d, e)
    requires d.journal.None? ==> SnapshotsAsIn(d, e)
    ensures Inv(p, e, notes)
  {
  }

  predicate IsPrivate(entry: Entry) {
    entry.JournalStaging? || entry.ConfigStaging? || entry.CredentialStaging?
  }

  lemma AtomicWriteCases(m: Machine, entry: Entry, written: Disk)
    requires IsPrivate(entry)
    requires written.staging == m.disk.staging && written.status == m.disk.status
    ensures var f := AtomicWrite(m, entry, written);
            && f.m == m.(disk := f.m.disk, choices := f.m.choices)
            && (f.Go? ==> f.m.disk == written)
            && (f.Raised? ==> f.m.disk.status == m.disk.status)
            && (Alike(m.disk, f.m.disk) || Alike(written, f.m.disk))
            && SnapshotsAsIn(m.disk, f.m.disk)
  {
  }

  lemma RemovalCases(m: Machine, first: Disk, both: Disk)
    requires first.status == both.status == m.disk.status
    ensures var f := RemovalSteps(m, first, both);
            && f.m == m.(disk := f.m.disk, choices := f.m.choices)
            && (f.Go? ==> f.m.disk == both)
            && (f.Raised? ==> f.m.disk.status == m.disk.status)
            && (Same(m.disk, f.m.disk) || Same(first, f.m.disk) || Same(both, f.m.disk))
  {
  }

  /** Equal but for a status that may have been lost. */
  predicate Same(d: Disk, e: Disk) {
    e == d.(status := e.status) && (e.status == d.status || e.status.None?)
  }

  // ------------------------------------------------------------ cleanup

  predicate IsFinal(phase: Phase) {
    phase.Verified? || phase.RolledBack?
  }

  /** Records whose snapshots are no longer needed. */
  ghost predicate MayClean(p: Plan, d: Disk) {
    d.journal.Some? && (IsFinal(d.journal.value.phase)
                        || (RestoreTookEffect(p, d) && IsRestorePhase(d.journal.value.phase)))
  }

  predicate IsRestorePhase(phase: Phase) {
    phase.Activating? || phase.Activated? || phase.Verifying?
  }

  /** Losing snapshots and staging entries does not matter to a record that may be cleaned. */
  lemma CleaningKeeps(p: Plan, d: Disk, e: Disk, notes: set<Note>)
    requires Inv(p, d, notes) && MayClean(p, d)
    requires e == d.(configPrevious := e.configPrevious, credentialPrevious := e.credentialPrevious,
                     staging := e.staging, status := e.status)
    requires e.configPrevious == d.configPrevious || e.configPrevious.None?
    ensures Inv(p, e, notes) && MayClean(p, e)
  {
  }

  /** Without its record, a cleaned disk is settled and clear of snapshots. */
  lemma CleanedIsSettled(p: Plan, d: Disk, e: Disk, notes: set<Note>)
    requires Inv(p, d, notes) && MayClean(p, d)
    requires d.configPrevious.None? && d.credentialPrevious.None? && NoSnapshotStaging(d)
    requires e == d.(journal := None, status := e.status)
    ensures Inv(p, e, notes)
  {
  }

  /** Cleanup removes the record last, so being cut anywhere inside it loses nothing. */
  lemma CleanupKeeps(p: Plan, m: Machine)
    requires Inv(p, m.disk, m.notes) && MayClean(p, m.disk)
    ensures var f := Cleanup(m);
            && f.m.notes == m.notes
            && Inv(p, f.m.disk, m.notes)
            && (f.Go? ==> f.m.disk == m.disk.(journal := None, configPrevious := None,
                  credentialPrevious := None,
                  staging := m.disk.staging - {ConfigSnapshotStaging} - {CredentialSnapshotStaging}))
  {
    hide Inv, MayClean;
    var f1 := UnlinkConfigPrevious(m);
    CleaningKeeps(p, m.disk, f1.m.disk, m.notes);
    if f1.Go? {
      var f2 := UnlinkCredentialPrevious(f1.m);
      CleaningKeeps(p, f1.m.disk, f2.m.disk, m.notes);
      if f2.Go? {
        var f3 := UnlinkJournal(f2.m);
        if f3.m.disk.journal.None? {
          CleanedIsSettled(p, f2.m.disk, f3.m.disk, m.notes);
        } else {
          CleaningKeeps(p, f2.m.disk, f3.m.disk, m.notes);
        }
      }
    }
  }

  // ----------------------------------------------------------- rollback

  /** A rollback is under way: nothing recorded promises the new state, and every snapshot the
      process-local record relies on exists. */
  ghost predicate RollingDisk(p: Plan, d: Disk, local: SetupJournal) {
    && WellPlanned(p)
    && d.journal.Some? && Matches(p, d.journal.value) && Matches(p, local)
    && Recoverable(p, d)
    && (!local.phase.Prepared? || !d.journal.value.phase.Prepared? ==> HasSnapshots(p, d))
    && RollingPhase(p, d, d.journal.value)
  }

  /** The plans whose rollback can be cut between two files that both changed. */
  predicate Exposable(p: Plan) {
    && p.operation.ApiUpdate? && p.key.changed
    && p.config != p.before.config && Some(p.key.key) != p.before.credential
  }

  ghost predicate RollingPhase(p: Plan, d: Disk, j: SetupJournal) {
    match j.phase
    case Activated =>
      !p.operation.StaticRestore? && !Exposable(p)
      && (CanBeProvedLater(p.operation) ==> IsSettled(p, d))
    case Verifying =>
      !p.operation.StaticRestore? && j.verifyStarted > 0 && !CouldBeFresh(j, d.status)
    case Verified => false
    case RolledBack => false
    case _ => true
  }

  ghost predicate Rolling(p: Plan, m: Machine) {
    RollingDisk(p, m.disk, m.local)
  }

  /** The only thing one rollback step may do. */
  ghost predicate StepsBack(p: Plan, m: Machine, f: Flow) {
    && f.m.notes == m.notes && f.m.local == m.local
    && Inv(p, f.m.disk, m.notes)
    && (f.Go? ==> Rolling(p, f.m) && f.m.disk.staging <= m.disk.staging)
  }

  lemma RollingIsSafe(p: Plan, d: Disk, local: SetupJournal, notes: set<Note>)
    requires RollingDisk(p, d, local)
    ensures Inv(p, d, notes)
  {
  }

  /** Going back on one protected file, wholly or not at all, is still rolling back. */
  lemma OneFileBack(p: Plan, d: Disk, e: Disk, local: SetupJournal)
    requires RollingDisk(p, d, local)
    requires var n := d.(staging := e.staging, status := e.status);
             || e == n
             || e == n.(config := p.before.config)
             || e == n.(credential := p.before.credential)
             || (e == n.(preManaged := p.before.preManaged)
                 && (d.preManaged == p.before.preManaged || p.operation.Adopt?))
    requires e.status == d.status || e.status.None?
    ensures RollingDisk(p, e, local)
  {
  }

  lemma UndoAdoptionKeeps(p: Plan, m: Machine)
    requires Rolling(p, m)
    ensures StepsBack(p, m, UndoAdoption(m))
  {
    RollingIsSafe(p, m.disk, m.local, m.notes);
    if m.local.operation.Adopt? && !m.local.hadPreManaged && m.disk.preManaged.Some? {
      var first := CommandHalf(m.disk, RunRestoreStatic, Pending(m));
      var both := CommandDone(m.disk, RunRestoreStatic);
      RestoringRolls(p, m);
      hide RollingDisk, Inv;
      RemovalCases(m, first, both);
      var d := UndoAdoption(m).m.disk;
      if Same(m.disk, d) {
        OneFileBack(p, m.disk, d, m.local);
      } else if Same(first, d) {
        OneFileBack(p, first, d, m.local);
      } else {
        OneFileBack(p, both, d, m.local);
      }
      RollingIsSafe(p, d, m.local, m.notes);
    }
  }

  lemma RestoringRolls(p: Plan, m: Machine)
    requires Rolling(p, m) && m.local.operation.Adopt? && !m.local.hadPreManaged && m.disk.preManaged.Some?
    ensures RollingDisk(p, CommandHalf(m.disk, RunRestoreStatic, Pending(m)), m.local)
    ensures RollingDisk(p, CommandDone(m.disk, RunRestoreStatic), m.local)
  {
  }

  lemma RestoreConfigKeeps(p: Plan, m: Machine)
    requires Rolling(p, m)
    ensures StepsBack(p, m, RollbackConfig(m))
    ensures RollbackConfig(m).Go? ==> RollbackConfig(m).m.disk.config == p.before.config
  {
    RollingIsSafe(p, m.disk, m.local, m.notes);
    if m.disk.configPrevious.Some? {
      var f1 := DiscardStaging(m, ConfigSnapshotStaging);
      OneFileBack(p, m.disk, f1.m.disk, m.local);
      RollingIsSafe(p, f1.m.disk, m.local, m.notes);
      if f1.Go? {
        AtomicWriteCases(f1.m, ConfigStaging, f1.m.disk.(config := p.before.config));
        var f2 := WriteConfig(f1.m, p.before.config);
        OneFileBack(p, f1.m.disk, f2.m.disk, m.local);
        RollingIsSafe(p, f2.m.disk, m.local, m.notes);
      }
    }
  }

  lemma RestoreCredentialKeeps(p: Plan, m: Machine)
    requires Rolling(p, m)
    ensures StepsBack(p, m, RollbackCredential(m))
    ensures RollbackCredential(m).Go? ==>
      RollbackCredential(m).m.disk.credential == p.before.credential
      && RollbackCredential(m).m.disk.config == m.disk.config
  {
    RollingIsSafe(p, m.disk, m.local, m.notes);
    if m.local.keyChanged && !m.local.hadKey {
      var f1 := UnlinkCredential(m);
      OneFileBack(p, m.disk, f1.m.disk, m.local);
      RollingIsSafe(p, f1.m.disk, m.local, m.notes);
    } else if m.local.keyChanged && m.disk.credentialPrevious.Some? {
      var f1 := DiscardStaging(m, CredentialSnapshotStaging);
      OneFileBack(p, m.disk, f1.m.disk, m.local);
      RollingIsSafe(p, f1.m.disk, m.local, m.notes);
      if f1.Go? {
        var key := p.before.credential.value;
        AtomicWriteCases(f1.m, CredentialStaging, f1.m.disk.(credential := Some(key)));
        var f2 := WriteCredential(f1.m, key);
        OneFileBack(p, f1.m.disk, f2.m.disk, m.local);
        RollingIsSafe(p, f2.m.disk, m.local, m.notes);
      }
    }
  }

  lemma ForgetAdoptionKeeps(p: Plan, m: Machine)
    requires Rolling(p, m)
    ensures StepsBack(p, m, ForgetAdoption(m))
    ensures ForgetAdoption(m).Go? ==>
      ForgetAdoption(m).m.disk.preManaged == p.before.preManaged
      && ForgetAdoption(m).m.disk.config == m.disk.config
      && ForgetAdoption(m).m.disk.credential == m.disk.credential
  {
    var f := ForgetAdoption(m);
    OneFileBack(p, m.disk, f.m.disk, m.local);
    RollingIsSafe(p, f.m.disk, m.local, m.notes);
  }

  /** Replacing the record keeps the invariant when both records may stand. */
  lemma PersistKeeps(p: Plan, m: Machine, j: SetupJournal)
    requires Inv(p, m.disk, m.notes) && Inv(p, m.disk.(journal := Some(j)), m.notes)
    ensures var f := PersistJournal(m, j);
            && f.m.notes == m.notes && f.m.local == m.local
            && Inv(p, f.m.disk, m.notes)
            && (f.Go? ==> f.m.disk == m.disk.(journal := Some(j)))
            && (f.Raised? ==> f.m.disk.status == m.disk.status)
            && (Alike(m.disk, f.m.disk) || Alike(m.disk.(journal := Some(j)), f.m.disk))
  {
    if Renderable(j) {
      var written := m.disk.(journal := Some(j));
      AtomicWriteCases(m, JournalStaging, written);
      var f := PersistJournal(m, j);
      if Alike(m.disk, f.m.disk) {
        AlikeKeepsInv(p, m.disk, f.m.disk, m.notes);
      } else {
        AlikeKeepsInv(p, written, f.m.disk, m.notes);
      }
    }
  }

  /** The last two rollback steps, shared by both families. */
  function SealRollback(m: Machine): Flow {
    var m :- PersistJournal(m, RolledBackOf(m.local));
    Cleanup(m)
  }

  lemma SealRollbackKeeps(p: Plan, m: Machine)
    requires Rolling(p, m) && IsRestored(p, m.disk)
    ensures var f := SealRollback(m);
            && f.m.notes == m.notes && Inv(p, f.m.disk, m.notes)
            && (f.Go? ==> IsRestored(p, f.m.disk))
  {
    RollingIsSafe(p, m.disk, m.local, m.notes);
    PersistKeeps(p, m, RolledBackOf(m.local));
    var f := PersistJournal(m, RolledBackOf(m.local));
    if f.Go? {
      CleanupKeeps(p, f.m);
    }
  }

  /** Undoing an API transaction: whatever cuts it, the disk stays recoverable, and when it ends
      normally everything is as before. */
  lemma RollbackApiKeeps(p: Plan, m: Machine)
    requires Rolling(p, m) && p.operation.IsApi()
    ensures var f := RollbackApi(m);
            && f.m.notes == m.notes && Inv(p, f.m.disk, m.notes)
            && (f.Go? ==> IsRestored(p, f.m.disk))
  {
    assert !IsExposed(m);
    UndoAdoptionKeeps(p, m);
    var f1 := UndoAdoption(m);
    if f1.Go? {
      RestoreConfigKeeps(p, f1.m);
      var f2 := RollbackConfig(f1.m);
      if f2.Go? {
        RestoreCredentialKeeps(p, f2.m);
        var f3 := RollbackCredential(f2.m);
        if f3.Go? {
          ForgetAdoptionKeeps(p, f3.m);
          var f4 := ForgetAdoption(f3.m);
          if f4.Go? {
            SealRollbackKeeps(p, f4.m);
          }
        }
      }
    }
    hide Inv, Rolling, IsRestored, UndoAdoption, RollbackConfig, RollbackCredential, ForgetAdoption,
      PersistJournal, Cleanup;
  }

  lemma RollbackStaticKeeps(p: Plan, m: Machine)
    requires Rolling(p, m) && p.operation.IsStatic()
    ensures var f := RollbackStatic(m);
            && f.m.notes == m.notes && Inv(p, f.m.disk, m.notes)
            && (f.Go? ==> IsRestored(p, f.m.disk))
  {
    RestoreConfigKeeps(p, m);
    var f1 := RollbackConfig(m);
    if f1.Go? {
      SealRollbackKeeps(p, f1.m);
    }
  }

  // ------------------------------------------------------------- commit

  /** Forward progress is proved and settled on the new side or back where it began. */
  ghost predicate MayCommit(p: Plan, m: Machine) {
    && WellPlanned(p)
    && m.disk.journal.Some? && Matches(p, m.disk.journal.value) && Matches(p, m.local)
    && Inv(p, m.disk, m.notes) && IsSettled(p, m.disk) && Proved in m.notes
  }

  lemma FinalizeKeeps(p: Plan, m: Machine)
    requires MayCommit(p, m)
    ensures var f := FinalizeVerified(m);
            && f.m.notes == m.notes && Inv(p, f.m.disk, m.notes)
  {
    PersistKeeps(p, m, VerifiedOf(m.local));
    var f := PersistJournal(m, VerifiedOf(m.local));
    if f.Go? {
      CleanupKeeps(p, f.m);
    }
  }

  // ----------------------------------------------------------- recovery

  /** What any piece of a session must do: keep earlier notes and stay safe. */
  ghost predicate StaysSafe(p: Plan, m: Machine, f: Flow) {
    NotesFit(p, m, f) && Safe(p, f.m)
  }

  /** Notes only accumulate, and only an exposable plan can be noted as exposed. */
  ghost predicate NotesFit(p: Plan, m: Machine, f: Flow) {
    && m.notes <= f.m.notes
    && (ExposedRollback in f.m.notes ==> ExposedRollback in m.notes || Exposable(p))
  }

  lemma CleanupNotes(m: Machine)
    ensures Cleanup(m).m.notes == m.notes
  {
  }

  lemma FinalizeNotes(m: Machine)
    ensures FinalizeVerified(m).m.notes == m.notes
  {
    hide Cleanup;
    CleanupNotes(PersistJournal(m, VerifiedOf(m.local)).m);
  }

  lemma StepNotes(m: Machine)
    ensures UndoAdoption(m).m.notes == m.notes && ForgetAdoption(m).m.notes == m.notes
    ensures m.notes <= RollbackConfig(m).m.notes <= m.notes + {Inspection}
    ensures m.notes <= RollbackCredential(m).m.notes <= m.notes + {Inspection}
    ensures PersistJournal(m, RolledBackOf(m.local)).m.notes == m.notes
  {
    hide RestoreConfig, RestoreCredential, UndoAdoption, ForgetAdoption, PersistJournal;
    RestoreNotes(m);
    AdoptionNotes(m);
    PersistNotes(m, RolledBackOf(m.local));
  }

  lemma AdoptionNotes(m: Machine)
    ensures UndoAdoption(m).m.notes == m.notes && ForgetAdoption(m).m.notes == m.notes
  {
  }

  lemma PersistNotes(m: Machine, j: SetupJournal)
    ensures PersistJournal(m, j).m.notes == m.notes
  {
    hide Renderable;
  }

  lemma RestoreNotes(m: Machine)
    ensures RestoreConfig(m).m.notes == m.notes
    ensures RestoreCredential(m).m.notes == m.notes
  {
  }

  lemma RollbackStaticNotes(m: Machine)
    ensures m.notes <= RollbackStatic(m).m.notes <= m.notes + {Inspection}
  {
    hide RollbackConfig, PersistJournal, Cleanup;
    StepNotes(m);
    var f := RollbackConfig(m);
    StepNotes(f.m);
    CleanupNotes(PersistJournal(f.m, RolledBackOf(f.m.local)).m);
  }

  lemma RollbackApiNotes(m: Machine)
    ensures NoteRollback(m).notes <= RollbackApi(m).m.notes <= NoteRollback(m).notes + {Inspection}
  {
    hide UndoAdoption, RollbackConfig, RollbackCredential, ForgetAdoption, PersistJournal, Cleanup;
    var n := NoteRollback(m);
    StepNotes(n);
    var f1 := UndoAdoption(n);
    StepNotes(f1.m);
    var f2 := RollbackConfig(f1.m);
    StepNotes(f2.m);
    var f3 := RollbackCredential(f2.m);
    StepNotes(f3.m);
    var f4 := ForgetAdoption(f3.m);
    StepNotes(f4.m);
    CleanupNotes(PersistJournal(f4.m, RolledBackOf(f4.m.local)).m);
  }

  /** A rollback that may begin: the usual case, or one of the two excused ones. */
  ghost predicate MayRollBack(p: Plan, m: Machine) {
    && WellPlanned(p)
    && m.local.operation == p.operation
    && (IsExposed(m) ==> Exposable(p))
    && (Excused(m.notes) || IsExposed(m) || Rolling(p, m))
  }

  lemma RollbackStaysSafe(p: Plan, m: Machine)
    requires MayRollBack(p, m)
    ensures StaysSafe(p, m, RollbackByOperation(m))
    ensures RollbackByOperation(m).Go? && !Excused(RollbackByOperation(m).m.notes) ==>
      IsRestored(p, RollbackByOperation(m).m.disk)
  {
    hide RollbackApi, RollbackStatic, Inv, Rolling, IsRestored;
    RollbackApiNotes(m);
    RollbackStaticNotes(m);
    if Rolling(p, m) {
      if p.operation.IsApi() {
        RollbackApiKeeps(p, m);
      } else {
        RollbackStaticKeeps(p, m);
      }
    }
  }

  /** A settled activation may be recorded as being verified. */
  lemma VerifyingMayStand(p: Plan, d: Disk, notes: set<Note>, v: SetupJournal)
    requires Inv(p, d, notes) && IsSettled(p, d)
    requires d.journal.Some? && d.journal.value.phase.Activated?
    requires Matches(p, v) && v.phase.Verifying? && v.verifyStarted > 0
    ensures Inv(p, d.(journal := Some(v)), notes)
  {
  }

  lemma BeginProofKeeps(p: Plan, m: Machine)
    requires WellPlanned(p) && Inv(p, m.disk, m.notes) && IsSettled(p, m.disk)
    requires m.disk.journal == Some(m.local) && m.local.phase.Activated?
    ensures var f := BeginProof(m);
            && f.m.notes == m.notes && Inv(p, f.m.disk, m.notes)
            && (f.Raised? ==> f.m.local == m.local)
            && (f.Go? ==> (
                  && f.m.disk.journal == Some(f.m.local) && f.m.local.phase.Verifying?
                  && f.m.disk == m.disk.(journal := Some(f.m.local))))
            && (f.Raised? ==> (
                  || Alike(m.disk, f.m.disk)
                  || (f.m.disk.journal.Some? && f.m.disk.journal.value.phase.Verifying?
                      && !CouldBeFresh(f.m.disk.journal.value, f.m.disk.status)
                      && Alike(m.disk.(journal := f.m.disk.journal), f.m.disk))))
  {
    var c := Pending(m);
    assert Matches(p, m.local);
    if c.Clock? {
      var n := Consume(m);
      var dev := if m.disk.status.Some? then m.disk.status.value.dev else 0;
      var ino := if m.disk.status.Some? then m.disk.status.value.ino else 0;
      var j := VerifyingOf(m.local, c.now, dev, ino);
      if Renderable(j) {
        VerifyingMayStand(p, m.disk, m.notes, j);
        PersistKeeps(p, n, j);
      }
    } else if c.Fault? {
      AlikeKeepsInv(p, m.disk, BeginProof(m).m.disk, m.notes);
    }
    hide Inv, PersistJournal, IsSettled, WellPlanned, Renderable;
  }

  /** Verification either proves what is on disk or leaves it as it was; what it writes is read
      against the record on disk. */
  lemma VerifyKeeps(p: Plan, m: Machine)
    requires WellPlanned(p) && Inv(p, m.disk, m.notes) && IsSettled(p, m.disk)
    requires m.disk.journal == Some(m.local) && m.local.phase.Verifying?
    ensures var f := VerifyHealth(m);
            && m.notes <= f.m.notes <= m.notes + {Proved, LateHealth} && f.m.local == m.local
            && f.m.disk == m.disk.(status := f.m.disk.status)
            && Inv(p, f.m.disk, f.m.notes)
            && (f.Go? ==> MayCommit(p, f.m))
            && (f.Raised? ==> LateHealth in f.m.notes || !CouldBeFresh(m.local, f.m.disk.status))
  {
    VerifyNotes(m);
    var f := VerifyHealth(m);
    SettledUnderAnyStatus(p, m.disk, f.m.disk, m.notes, f.m.notes);
    hide VerifyHealth, Inv, IsSettled, WellPlanned, CouldBeFresh;
  }

  /** Verification changes the status alone, and says whether it was proved or could yet be. */
  lemma VerifyNotes(m: Machine)
    ensures var f := VerifyHealth(m);
            && m.notes <= f.m.notes <= m.notes + {Proved, LateHealth} && f.m.local == m.local
            && f.m.disk == m.disk.(status := f.m.disk.status)
            && (f.Go? ==> Proved in f.m.notes)
            && (f.Raised? ==> LateHealth in f.m.notes || !CouldBeFresh(m.local, f.m.disk.status))
  {
    hide CouldBeFresh;
  }

  /** Settled files under a record being verified may meet any status. */
  lemma SettledUnderAnyStatus(p: Plan, d: Disk, e: Disk, notes: set<Note>, later: set<Note>)
    requires Inv(p, d, notes) && IsSettled(p, d) && d.journal.Some? && d.journal.value.phase.Verifying?
    requires e == d.(status := e.status)
    ensures Inv(p, e, later) && IsSettled(p, e) && Matches(p, d.journal.value)
  {
  }

  /** A recorded, unfinished transaction as recovery first reads it. */
  ghost predicate Unfinished(p: Plan, m: Machine) {
    && WellPlanned(p)
    && m.disk.journal == Some(m.local)
    && Inv(p, m.disk, m.notes)
    && !IsFinal(m.local.phase)
    && (m.local.phase.Prepared? || !RestoreTookEffect(p, m.disk))
  }

  lemma UnfinishedIsRolling(p: Plan, m: Machine)
    requires Unfinished(p, m)
    requires m.local.phase.Activated? ==> !CanBeProvedLater(p.operation)
    requires m.local.phase.Verifying? ==> !CouldBeFresh(m.local, m.disk.status)
    ensures Rolling(p, m)
  {
  }

  lemma RecoverVerifyingStaysSafe(p: Plan, m: Machine)
    requires Unfinished(p, m) && m.local.phase.Verifying?
    ensures StaysSafe(p, m, RecoverVerifying(m))
  {
    hide FinalizeVerified, RollbackByOperation, Rolling;
    var c, n := Pending(m), Consume(m);
    if c.Fault? {
      AlikeKeepsInv(p, m.disk, RecoverVerifying(m).m.disk, m.notes);
    } else if c.Clock? && IsFresh(n.local, n.disk.status, c.now) {
      FinalizeKeeps(p, NoteProved(n));
    } else {
      var u := Unproved(n);
      if !CouldBeFresh(m.local, m.disk.status) {
        UnfinishedIsRolling(p, u);
      }
      RollbackStaysSafe(p, u);
    }
  }

  lemma RecoverActivatedStaysSafe(p: Plan, m: Machine)
    requires Unfinished(p, m) && m.local.phase.Activated? && CanBeProvedLater(p.operation)
    ensures StaysSafe(p, m, RecoverActivated(m))
  {
    hide FinalizeVerified, Rolling, BeginProof, VerifyHealth;
    BeginProofKeeps(p, m);
    var f1 := BeginProof(m);
    if f1.Go? {
      VerifyKeeps(p, f1.m);
      var f2 := VerifyHealth(f1.m);
      if f2.Go? {
        FinalizeKeeps(p, f2.m);
      } else if f2.Raised? {
        if !CouldBeFresh(f1.m.local, f2.m.disk.status) {
          assert !RestoreTookEffect(p, f2.m.disk);
          UnfinishedIsRolling(p, f2.m);
        }
        RollbackStaysSafe(p, f2.m);
      }
    }
    hide RollbackByOperation, Inv, IsSettled;
  }

  lemma RecoverJournalStaysSafe(p: Plan, m: Machine)
    requires WellPlanned(p) && Inv(p, m.disk, m.notes) && m.disk.journal.Some?
    ensures StaysSafe(p, m, RecoverJournal(m))
  {
    var j := m.disk.journal.value;
    var n := m.(local := j);
    if IsFinal(j.phase) {
      CleanupKeeps(p, n);
    } else if j.operation.StaticRestore? && !j.phase.Prepared? && StaticRestoreVisible(n.disk).Err? {
    } else if j.operation.StaticRestore? && !j.phase.Prepared? && StaticRestoreVisible(n.disk) == Ok(true) {
      assert RestoreTookEffect(p, n.disk);
      CleanupKeeps(p, n);
    } else {
      assert j.phase.Prepared? || !RestoreTookEffect(p, n.disk);
      if j.phase.Verifying? && j.verifyStarted > 0 {
        RecoverVerifyingStaysSafe(p, n);
      } else if j.phase.Activated? && CanBeProvedLater(j.operation) {
        RecoverActivatedStaysSafe(p, n);
      } else {
        UnfinishedIsRolling(p, n);
        RollbackStaysSafe(p, n);
      }
    }
    hide RecoverVerifying, RecoverActivated, RollbackByOperation, Cleanup, Rolling;
  }

  lemma DiscardKeeps(p: Plan, m: Machine, entry: Entry)
    requires Inv(p, m.disk, m.notes) && IsPrivate(entry)
    ensures var f := DiscardStaging(m, entry);
            && f.m.notes == m.notes && Inv(p, f.m.disk, m.notes)
            && f.m.disk.journal == m.disk.journal
            && (f.Go? ==> f.m.disk == m.disk.(staging := m.disk.staging - {entry}))
  {
    AlikeKeepsInv(p, m.disk, DiscardStaging(m, entry).m.disk, m.notes);
  }

  lemma DiscardPrivateKeeps(p: Plan, m: Machine)
    requires Inv(p, m.disk, m.notes)
    ensures var f := DiscardPrivate(m);
            && f.m.notes == m.notes && Inv(p, f.m.disk, m.notes)
            && (f.Go? ==> NoPrivateStaging(f.m.disk) && f.m.disk.journal == m.disk.journal)
  {
    DiscardKeeps(p, m, JournalStaging);
    var f1 := DiscardStaging(m, JournalStaging);
    if f1.Go? {
      DiscardKeeps(p, f1.m, ConfigStaging);
      var f2 := DiscardStaging(f1.m, ConfigStaging);
      if f2.Go? {
        DiscardKeeps(p, f2.m, CredentialStaging);
      }
    }
    hide Inv;
  }

  /** Recovery from any disk a transaction can leave: whatever cuts it, the disk is again one a
      transaction can leave; when it ends normally, nothing of the transaction is left and every
      file is on one side. */
  lemma RecoverStaysSafe(p: Plan, m: Machine)
    requires WellPlanned(p) && Inv(p, m.disk, m.notes)
    ensures var f := Recover(m);
            StaysSafe(p, m, f)
            && (f.Go? ==> ArtifactsClear(f.m.disk))
            && (f.Go? && !Excused(f.m.notes) ==> IsJustified(p, f.m.disk, f.m.notes))
  {
    RecoverClears(m);
    DiscardPrivateKeeps(p, m);
    var f := DiscardPrivate(m);
    if f.Go? && f.m.disk.journal.Some? {
      RecoverJournalStaysSafe(p, f.m);
    }
    hide RecoverJournal, IsJustified;
  }
}
