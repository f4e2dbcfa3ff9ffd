/** The forward half of a transaction: each step leaves a disk the rollback or a later recovery can
    settle, and a run that ends normally has activated everything. */
module SetupApply {
  import opened Wrappers
  import opened SetupJournals
  import opened SetupMachine
  import opened SetupInvariant
  import opened SetupBounds

  /** An error or crash in a forward step leaves a safe disk, and an error one that may roll back. */
  ghost predicate Interrupted(p: Plan, m: Machine, f: Flow) {
    && NotesFit(p, m, f)
    && (f.Crashed? ==> Safe(p, f.m))
    && (f.Raised? ==> Safe(p, f.m) && (f.m.disk.journal.Some? ==> MayRollBack(p, f.m)))
  }

  /** A recorded point of the forward run from which rolling back is possible. */
  ghost predicate At(p: Plan, m: Machine, disk: Disk, phase: Phase) {
    && m.disk == disk && RollingDisk(p, disk, m.local)
    && m.local == PreparedJournal(p).(phase := phase) && disk.journal == Some(m.local)
  }

  lemma RollingAlike(p: Plan, d: Disk, e: Disk, local: SetupJournal)
    requires RollingDisk(p, d, local) && Alike(d, e)
    ensures RollingDisk(p, e, local)
  {
    OneFileBack(p, d, e, local);
  }

  /** A step between two rollable disks is interrupted safely. */
  lemma StepIsInterrupted(p: Plan, m: Machine, d: Disk, e: Disk, f: Flow)
    requires WellPlanned(p) && Matches(p, f.m.local)
    requires RollingDisk(p, d, f.m.local) && RollingDisk(p, e, f.m.local)
    requires Alike(d, f.m.disk) || Alike(e, f.m.disk)
    requires f.m.notes == m.notes
    ensures Interrupted(p, m, f)
  {
    if Alike(d, f.m.disk) {
      RollingAlike(p, d, f.m.disk, f.m.local);
    } else {
      RollingAlike(p, e, f.m.disk, f.m.local);
    }
    RollingIsSafe(p, f.m.disk, f.m.local, f.m.notes);
  }

  // ------------------------------------------------- staging the settings

  /** The disks the first steps pass through. */
  function Recorded(p: Plan): Disk {
    p.before.(journal := Some(PreparedJournal(p)))
  }

  function Protected(p: Plan): Disk {
    Recorded(p).(configPrevious := Some(p.before.config))
  }

  function BothProtected(p: Plan): Disk {
    if p.key.changed && p.key.had
    then Protected(p).(credentialPrevious := p.before.credential)
    else Protected(p)
  }

  function Staged(p: Plan, phase: Phase): Disk {
    BothProtected(p).(config := p.config, journal := Some(PreparedJournal(p).(phase := phase)))
  }

  lemma EarlyDisksRoll(p: Plan)
    requires WellPlanned(p)
    ensures RollingDisk(p, Recorded(p), PreparedJournal(p))
    ensures RollingDisk(p, Protected(p), PreparedJournal(p))
    ensures RollingDisk(p, BothProtected(p), PreparedJournal(p))
    ensures RollingDisk(p, Staged(p, Prepared), PreparedJournal(p))
    ensures p.operation.IsApi() ==>
      RollingDisk(p, Staged(p, Prepared), PreparedJournal(p).(phase := ConfigWritten))
      && RollingDisk(p, Staged(p, ConfigWritten), PreparedJournal(p).(phase := ConfigWritten))
  {
  }

  lemma FirstRecordKeeps(p: Plan, m: Machine)
    requires WellPlanned(p) && m.disk == p.before && m.local == PreparedJournal(p)
    ensures var f := PersistJournal(m, m.local);
            Interrupted(p, m, f) && f.m.notes == m.notes && f.m.local == m.local
            && (f.Go? ==> f.m.disk == Recorded(p))
  {
    EarlyDisksRoll(p);
    RollingIsSafe(p, Recorded(p), m.local, m.notes);
    PersistKeeps(p, m, m.local);
    var f := PersistJournal(m, m.local);
    if f.m.disk.journal.Some? {
      RollingAlike(p, Recorded(p), f.m.disk, m.local);
    }
  }

  lemma SnapshotConfigKeeps(p: Plan, m: Machine)
    requires WellPlanned(p) && m.disk == Recorded(p) && m.local == PreparedJournal(p)
    ensures var f := SnapshotConfig(m);
            Interrupted(p, m, f) && f.m.notes == m.notes && f.m.local == m.local
            && (f.Go? ==> f.m.disk == Protected(p))
  {
    EarlyDisksRoll(p);
    StepIsInterrupted(p, m, Recorded(p), Protected(p), SnapshotConfig(m));
  }

  lemma SnapshotCredentialKeeps(p: Plan, m: Machine)
    requires WellPlanned(p) && m.disk == Protected(p) && m.local == PreparedJournal(p)
    requires p.key.changed && p.key.had
    ensures var f := SnapshotCredential(m);
            Interrupted(p, m, f) && f.m.notes == m.notes && f.m.local == m.local
            && (f.Go? ==> f.m.disk == BothProtected(p))
  {
    EarlyDisksRoll(p);
    StepIsInterrupted(p, m, Protected(p), BothProtected(p), SnapshotCredential(m));
  }

  lemma WriteConfigKeeps(p: Plan, m: Machine)
    requires WellPlanned(p) && m.disk == BothProtected(p) && m.local == PreparedJournal(p)
    ensures var f := WriteConfig(m, p.config);
            Interrupted(p, m, f) && f.m.notes == m.notes && f.m.local == m.local
            && (f.Go? ==> f.m.disk == Staged(p, Prepared))
  {
    EarlyDisksRoll(p);
    AtomicWriteCases(m, ConfigStaging, m.disk.(config := p.config));
    StepIsInterrupted(p, m, BothProtected(p), Staged(p, Prepared), WriteConfig(m, p.config));
  }

  /** Recording the next phase between two rollable disks. */
  lemma AdvanceKeeps(p: Plan, m: Machine, phase: Phase)
    requires WellPlanned(p) && m.disk.journal.Some?
    requires RollingDisk(p, m.disk, m.local.(phase := phase))
    requires RollingDisk(p, m.disk.(journal := Some(m.local.(phase := phase))), m.local.(phase := phase))
    ensures var f := Advance(m, phase);
            Interrupted(p, m, f) && f.m.notes == m.notes && f.m.local == m.local.(phase := phase)
            && (f.Go? ==> f.m.disk == m.disk.(journal := Some(f.m.local)))
  {
    var j := m.local.(phase := phase);
    var n := m.(local := j);
    RollingIsSafe(p, m.disk, j, m.notes);
    RollingIsSafe(p, m.disk.(journal := Some(j)), j, m.notes);
    PersistKeeps(p, n, j);
    StepIsInterrupted(p, m, m.disk, m.disk.(journal := Some(j)), PersistJournal(n, j));
  }

  lemma StageSettingsKeeps(p: Plan, m: Machine)
    requires WellPlanned(p) && p.operation.IsApi() && m.disk == p.before && m.local == PreparedJournal(p)
    ensures var f := StageSettings(m, p);
            Interrupted(p, m, f) && f.m.notes == m.notes
            && (f.Go? ==> At(p, f.m, Staged(p, ConfigWritten), ConfigWritten))
  {
    EarlyDisksRoll(p);
    FirstRecordKeeps(p, m);
    var f1 := PersistJournal(m, m.local);
    if f1.Go? {
      SnapshotConfigKeeps(p, f1.m);
      var f2 := SnapshotConfig(f1.m);
      if f2.Go? {
        var f3 := if p.key.changed && p.key.had then SnapshotCredential(f2.m) else Go(f2.m);
        if p.key.changed && p.key.had {
          SnapshotCredentialKeeps(p, f2.m);
        }
        if f3.Go? {
          WriteConfigKeeps(p, f3.m);
          var f4 := WriteConfig(f3.m, p.config);
          if f4.Go? {
            AdvanceKeeps(p, f4.m, ConfigWritten);
          }
        }
      }
    }
    hide PersistJournal, SnapshotConfig, SnapshotCredential, WriteConfig, Advance, RollingDisk,
      Interrupted, WellPlanned;
  }

  // ------------------------------------------- credential and activation

  /** The credential is as planned; nothing has been activated. */
  function Keyed(p: Plan): Disk {
    if p.key.changed
    then Staged(p, CredentialWritten).(credential := Some(p.key.key))
    else Staged(p, ConfigWritten)
  }

  function KeyedPhase(p: Plan): Phase {
    if p.key.changed then CredentialWritten else ConfigWritten
  }

  lemma KeyedDisksRoll(p: Plan)
    requires WellPlanned(p) && p.operation.IsApi()
    ensures var c := PreparedJournal(p).(phase := CredentialWritten);
            p.key.changed ==>
              RollingDisk(p, Staged(p, ConfigWritten).(credential := Some(p.key.key)),
                          PreparedJournal(p).(phase := ConfigWritten))
              && RollingDisk(p, Staged(p, ConfigWritten).(credential := Some(p.key.key)), c)
              && RollingDisk(p, Keyed(p), c)
  {
  }

  lemma WriteCredentialKeeps(p: Plan, m: Machine, written: Disk)
    requires RollingDisk(p, m.disk, m.local) && RollingDisk(p, written, m.local)
    requires written == m.disk.(credential := Some(p.key.key))
    ensures var f := WriteCredential(m, p.key.key);
            Interrupted(p, m, f) && f.m.notes == m.notes && f.m.local == m.local && (f.Go? ==> f.m.disk == written)
  {
    AtomicWriteCases(m, CredentialStaging, written);
    StepIsInterrupted(p, m, m.disk, written, WriteCredential(m, p.key.key));
    hide RollingDisk, Interrupted, AtomicWrite;
  }

  lemma AttemptKeeps(p: Plan, m: Machine)
    requires RollingDisk(p, m.disk, m.local)
    ensures var f := Attempt(m);
            Interrupted(p, m, f) && f.m.notes == m.notes && f.m.local == m.local && (f.Go? ==> f.m.disk == m.disk)
  {
    RemovalCases(m, m.disk, m.disk);
    StepIsInterrupted(p, m, m.disk, m.disk, Attempt(m));
    hide RollingDisk, Interrupted, RemovalSteps;
  }

  lemma InstallCredentialKeeps(p: Plan, m: Machine)
    requires WellPlanned(p) && p.operation.IsApi()
    requires At(p, m, Staged(p, ConfigWritten), ConfigWritten)
    ensures var f := InstallCredential(m, p);
            Interrupted(p, m, f) && f.m.notes == m.notes
            && (f.Go? ==> At(p, f.m, Keyed(p), KeyedPhase(p)))
  {
    hide WriteCredential, Advance, RollingDisk, Safe, MayRollBack, Exposable, WellPlanned, BothProtected, Attempt;
    KeyedDisksRoll(p);
    if p.key.changed {
      var written := m.disk.(credential := Some(p.key.key));
      WriteCredentialKeeps(p, m, written);
      var f1 := WriteCredential(m, p.key.key);
      if f1.Go? {
        AdvanceKeeps(p, f1.m, CredentialWritten);
        var f2 := Advance(f1.m, CredentialWritten);
        if f2.Go? {
          AttemptKeeps(p, f2.m);
        }
      }
    }
  }

  function ActivationCommand(p: Plan): Command {
    if p.operation.Adopt? then RunAdopt else RunProvision(p.generated)
  }

  function Switched(p: Plan): Disk {
    if p.operation.ApiUpdate? then Keyed(p) else CommandDone(Keyed(p), ActivationCommand(p))
  }

  lemma SwitchedDisksRoll(p: Plan)
    requires WellPlanned(p) && p.operation.IsApi()
    requires RollingDisk(p, Keyed(p), PreparedJournal(p).(phase := KeyedPhase(p)))
    ensures !p.operation.ApiUpdate? ==>
      RollingDisk(p, CommandStarted(Keyed(p), ActivationCommand(p)),
                  PreparedJournal(p).(phase := KeyedPhase(p)))
    ensures RollingDisk(p, Switched(p), PreparedJournal(p).(phase := KeyedPhase(p)))
    ensures RollingDisk(p, Switched(p), PreparedJournal(p).(phase := Activated))
    ensures IsActivated(p, Switched(p))
    ensures HasSnapshots(p, Switched(p))
  {
  }

  lemma RunActivationKeeps(p: Plan, m: Machine)
    requires WellPlanned(p) && p.operation.IsApi() && !p.operation.ApiUpdate?
    requires At(p, m, Keyed(p), KeyedPhase(p))
    ensures var f := RunCommand(m, ActivationCommand(p));
            Interrupted(p, m, f) && f.m.notes == m.notes && f.m.local == m.local
            && (f.Go? ==> f.m.disk == Switched(p))
  {
    SwitchedDisksRoll(p);
    var started := CommandStarted(m.disk, ActivationCommand(p));
    RemovalCases(m, started, Switched(p));
    var f := RunCommand(m, ActivationCommand(p));
    if Same(m.disk, f.m.disk) {
      StepIsInterrupted(p, m, m.disk, Switched(p), f);
    } else {
      StepIsInterrupted(p, m, started, Switched(p), f);
    }
    hide RunCommand, RollingDisk, Interrupted, CommandStarted, WellPlanned, Keyed, Switched;
  }

  /** Recording `activated`: from here an api-update that changes the key is exposed. */
  lemma RecordActivatedKeeps(p: Plan, m: Machine)
    requires WellPlanned(p) && p.operation.IsApi()
    requires m.disk == Switched(p) && m.local == PreparedJournal(p).(phase := KeyedPhase(p))
    requires RollingDisk(p, Switched(p), PreparedJournal(p).(phase := Activated))
    requires IsActivated(p, Switched(p)) && HasSnapshots(p, Switched(p))
    ensures var f := Advance(m, Activated);
            Interrupted(p, m, f) && f.m.notes == m.notes
            && f.m.local == PreparedJournal(p).(phase := Activated)
            && (f.Go? ==> f.m.disk == m.disk.(journal := Some(f.m.local)))
            && Inv(p, m.disk.(journal := Some(PreparedJournal(p).(phase := Activated))), m.notes)
  {
    var j := PreparedJournal(p).(phase := Activated);
    var recorded := m.disk.(journal := Some(j));
    assert Matches(p, j) && m.disk.journal.Some? by {
      assert RollingDisk(p, Switched(p), j);
    }
    hide RollingDisk, Inv, IsActivated, HasSnapshots, Recoverable, Switched, PersistJournal, WellPlanned, Exposable,
      IsExposed, Interrupted;
    ActivationMayBeRecorded(p, m.disk, j, m.notes);
    RollingIsSafe(p, m.disk, j, m.notes);
    PersistKeeps(p, m.(local := j), j);
    var f := Advance(m, Activated);
    if Alike(m.disk, f.m.disk) {
      RollingAlike(p, m.disk, f.m.disk, j);
      RollingIsUnexposed(p, f.m);
    } else if !IsExposed(f.m) {
      ActivatedUnexposedRolls(p, recorded, f.m, j);
      RollingAlike(p, recorded, f.m.disk, j);
    } else {
      ExposedIsExposable(p, recorded, f.m);
    }
    RecordedIsInterrupted(p, m, f);
  }

  lemma RollingIsUnexposed(p: Plan, m: Machine)
    requires Rolling(p, m) && p.operation.IsApi()
    ensures IsExposed(m) ==> Exposable(p)
  {
  }

  lemma RecordedIsInterrupted(p: Plan, m: Machine, f: Flow)
    requires WellPlanned(p) && f.m.notes == m.notes && Inv(p, f.m.disk, f.m.notes)
    requires f.m.local.operation == p.operation && (IsExposed(f.m) ==> Exposable(p))
    requires IsExposed(f.m) || Rolling(p, f.m)
    ensures Interrupted(p, m, f)
  {
    hide Inv, Rolling, WellPlanned, Exposable, IsExposed;
  }

  lemma ActivationMayBeRecorded(p: Plan, d: Disk, j: SetupJournal, notes: set<Note>)
    requires RollingDisk(p, d, j) && IsActivated(p, d) && HasSnapshots(p, d)
    requires p.operation.IsApi() && j.phase.Activated?
    ensures Inv(p, d.(journal := Some(j)), notes)
    ensures IsActivated(p, d.(journal := Some(j))) && HasSnapshots(p, d.(journal := Some(j)))
    ensures Recoverable(p, d.(journal := Some(j)))
  {
  }

  /** The record of an activation that is not exposed may be rolled back under. */
  lemma ActivatedUnexposedRolls(p: Plan, d: Disk, m: Machine, j: SetupJournal)
    requires WellPlanned(p) && p.operation.IsApi() && Matches(p, j) && j.phase.Activated? && m.local == j
    requires d.journal == Some(j) && IsActivated(p, d) && HasSnapshots(p, d) && Recoverable(p, d)
    requires Alike(d, m.disk) && !IsExposed(m)
    ensures RollingDisk(p, d, j)
  {
  }

  lemma ExposedIsExposable(p: Plan, d: Disk, m: Machine)
    requires WellPlanned(p) && IsExposed(m) && Matches(p, m.local)
    requires IsActivated(p, d) && HasSnapshots(p, d) && Alike(d, m.disk)
    ensures Exposable(p)
  {
  }

  /** Beginning the proof from a recorded activation, and what an error there may roll back. */
  lemma BeginProofIsInterrupted(p: Plan, m: Machine)
    requires WellPlanned(p) && Inv(p, m.disk, m.notes) && IsActivated(p, m.disk)
    requires m.disk.journal == Some(m.local) && m.local.phase.Activated? && !p.operation.StaticRestore?
    requires Recoverable(p, m.disk) && HasSnapshots(p, m.disk)
    ensures Interrupted(p, m, BeginProof(m))
  {
    BeginProofKeeps(p, m);
    var f := BeginProof(m);
    if f.Raised? {
      if Alike(m.disk, f.m.disk) {
        if !IsExposed(f.m) {
          assert RollingDisk(p, m.disk, f.m.local);
          RollingAlike(p, m.disk, f.m.disk, f.m.local);
        }
      } else {
        assert RollingDisk(p, f.m.disk, f.m.local);
      }
    }
    hide BeginProof, Inv, IsSettled;
  }

  lemma ProveKeeps(p: Plan, m: Machine)
    requires WellPlanned(p) && Inv(p, m.disk, m.notes) && IsActivated(p, m.disk)
    requires m.disk.journal == Some(m.local) && m.local.phase.Activated? && !p.operation.StaticRestore?
    requires Recoverable(p, m.disk) && HasSnapshots(p, m.disk)
    ensures var f := Prove(m);
            Interrupted(p, m, f)
            && (f.Go? ==> (
                  && MayCommit(p, f.m)
                  && f.m.disk == m.disk.(journal := Some(f.m.local), status := f.m.disk.status)))
  {
    BeginProofIsInterrupted(p, m);
    BeginProofKeeps(p, m);
    var f1 := BeginProof(m);
    if f1.Go? {
      VerifyKeeps(p, f1.m);
      var f2 := VerifyHealth(f1.m);
      if f2.Raised? && !Excused(f2.m.notes) {
        FailedProofRolls(p, f2.m);
      }
    }
    hide BeginProof, VerifyHealth, Inv, IsSettled, Recoverable, HasSnapshots, Rolling;
  }

  lemma FailedProofRolls(p: Plan, m: Machine)
    requires WellPlanned(p) && Inv(p, m.disk, m.notes) && !p.operation.StaticRestore?
    requires m.disk.journal == Some(m.local) && m.local.phase.Verifying?
    requires !CouldBeFresh(m.local, m.disk.status)
    ensures Rolling(p, m)
  {
  }

  lemma ActivateKeeps(p: Plan, m: Machine)
    requires WellPlanned(p) && p.operation.IsApi()
    requires At(p, m, Keyed(p), KeyedPhase(p))
    ensures var f := Activate(m, p);
            Interrupted(p, m, f) && f.m.notes == m.notes
            && (f.Go? ==> (
                  && f.m.local == PreparedJournal(p).(phase := Activated)
                  && f.m.disk == Switched(p).(journal := Some(f.m.local))
                  && Inv(p, f.m.disk, f.m.notes) && IsActivated(p, f.m.disk)
                  && Recoverable(p, f.m.disk) && HasSnapshots(p, f.m.disk)))
  {
    SwitchedDisksRoll(p);
    var f1 := if p.operation.ApiUpdate? then Go(m) else RunCommand(m, ActivationCommand(p));
    if !p.operation.ApiUpdate? {
      RunActivationKeeps(p, m);
    }
    if f1.Go? {
      RecordActivatedKeeps(p, f1.m);
      var f2 := Advance(f1.m, Activated);
    }
  }

  lemma ApiForwardKeeps(p: Plan, m: Machine)
    requires WellPlanned(p) && p.operation.IsApi() && m.disk == p.before && m.local == PreparedJournal(p)
    ensures var f := ApiForward(m, p);
            Interrupted(p, m, f)
            && (f.Go? ==> MayCommit(p, f.m) && IsActivated(p, f.m.disk) && f.m.disk.staging == {})
  {
    hide StageSettings, InstallCredential, Activate, Prove, RollingDisk, Inv, Recoverable, HasSnapshots;
    StageSettingsKeeps(p, m);
    var f1 := StageSettings(m, p);
    if f1.Go? {
      InstallCredentialKeeps(p, f1.m);
      var f2 := InstallCredential(f1.m, p);
      if f2.Go? {
        ActivateKeeps(p, f2.m);
        var f3 := Activate(f2.m, p);
        if f3.Go? {
          ProveKeeps(p, f3.m);
          assert f3.m.disk.staging == {};
        }
      }
    }
  }

  // ------------------------------------------------- the API transaction

  lemma PlansAreWellFormed(req: ApiRequest, restore: bool, disk: Disk)
    requires ArtifactsClear(disk)
    ensures PlanApi(req, disk).Ok? ==> WellPlanned(PlanApi(req, disk).value)
                                       && PlanApi(req, disk).value.operation.IsApi()
    ensures WellPlanned(PlanStatic(restore, disk)) && PlanStatic(restore, disk).operation.IsStatic()
  {
  }

  /** A whole session's promise about one transaction: wherever it stops the bounds hold, and complete it has
      activated everything under a fresh proof. */
  ghost predicate Concluded(p: Plan, m: Machine, f: Flow) {
    Keeps(p, m, f) && ConcludesProof(p, m, f)
  }

  ghost predicate ConcludesProof(p: Plan, m: Machine, f: Flow) {
    && StaysSafe(p, m, f)
    && (f.Go? ==> ArtifactsClear(f.m.disk) && IsActivated(p, f.m.disk) && Proved in f.m.notes)
  }

  lemma FinalizeConcludes(p: Plan, m: Machine)
    requires MayCommit(p, m) && IsActivated(p, m.disk) && m.disk.staging == {}
    ensures var f := FinalizeVerified(m);
            f.m.notes == m.notes && Inv(p, f.m.disk, m.notes)
            && (f.Go? ==> ArtifactsClear(f.m.disk) && IsActivated(p, f.m.disk))
  {
    FinalizeKeeps(p, m);
    var f := PersistJournal(m, VerifiedOf(m.local));
    if f.Go? {
      PersistKeeps(p, m, VerifiedOf(m.local));
      CleanupKeeps(p, f.m);
    }
    hide Cleanup, Inv;
  }

  lemma UndoApiStaysSafe(p: Plan, m: Machine)
    requires WellPlanned(p) && p.operation.IsApi() && Safe(p, m)
    requires m.disk.journal.Some? ==> MayRollBack(p, m)
    ensures StaysSafe(p, m, UndoApi(m)) && !UndoApi(m).Go?
  {
    if m.disk.journal.Some? {
      RollbackStaysSafe(p, m);
    }
    hide RollbackApi, Safe;
  }

  /** Applying an API request from a clear disk: any cut or failure leaves a disk recovery can
      settle, and an apply that ends normally has activated everything under a fresh proof. */
  lemma ApplyApiStaysSafe(m: Machine, req: ApiRequest, p: Plan)
    requires ArtifactsClear(m.disk) && PlanApi(req, m.disk) == Ok(p)
    ensures Concluded(p, m, ApplyApi(m, req))
  {
    hide ApiForward, FinalizeVerified, UndoApi, MayRollBack, IsActivated, Keeps;
    PlansAreWellFormed(req, false, m.disk);
    assert p.before == m.disk;
    ApplyApiKeepsBounds(p, m, req);
    var f1 := Attempt(m);
    assert Inv(p, m.disk, m.notes);
    AlikeKeepsInv(p, m.disk, f1.m.disk, m.notes);
    if f1.Go? {
      var n := f1.m.(local := PreparedJournal(p));
      ApiForwardKeeps(p, n);
      var f2 := ApiForward(n, p);
      if f2.Go? {
        FinalizeConcludes(p, f2.m);
      } else if f2.Raised? {
        UndoApiStaysSafe(p, f2.m);
      }
    }
    hide Inv, MayCommit, PlanApi;
  }

  // ---------------------------------------------- the static transactions

  lemma StaticDisksRoll(p: Plan)
    requires WellPlanned(p) && p.operation.IsStatic()
    ensures p.operation.StaticSwitch? ==>
      RollingDisk(p, Staged(p, Prepared), PreparedJournal(p).(phase := Activated))
    ensures p.operation.StaticRestore? ==>
      var a := PreparedJournal(p).(phase := Activating);
      RollingDisk(p, Protected(p), a)
      && RollingDisk(p, Protected(p).(journal := Some(a)), a)
      && (forall c :: RollingDisk(p, CommandHalf(Protected(p).(journal := Some(a)), RunRestoreStatic, c), a))
      && RollingDisk(p, CommandDone(Protected(p).(journal := Some(a)), RunRestoreStatic), a)
  {
  }

  /** The disk once the static configuration, or the restored profile, is in force. */
  function StaticDone(p: Plan): Disk {
    if p.operation.StaticRestore?
    then CommandDone(Protected(p).(journal := Some(PreparedJournal(p).(phase := Activating))), RunRestoreStatic)
    else Staged(p, Prepared)
  }

  function StaticPhase(p: Plan): Phase {
    if p.operation.StaticRestore? then Activating else Prepared
  }

  lemma RestoreProfileKeeps(p: Plan, m: Machine)
    requires WellPlanned(p) && p.operation.StaticRestore?
    requires m.local == PreparedJournal(p).(phase := Activating)
    requires m.disk == Protected(p).(journal := Some(m.local))
    ensures var f := RunCommand(m, RunRestoreStatic);
            Interrupted(p, m, f) && f.m.notes == m.notes && f.m.local == m.local
            && (f.Go? ==> f.m.disk == StaticDone(p))
  {
    StaticDisksRoll(p);
    var started := CommandHalf(m.disk, RunRestoreStatic, Pending(m));
    RemovalCases(m, started, StaticDone(p));
    var f := RunCommand(m, RunRestoreStatic);
    if Same(m.disk, f.m.disk) {
      StepIsInterrupted(p, m, m.disk, StaticDone(p), f);
    } else {
      StepIsInterrupted(p, m, started, StaticDone(p), f);
    }
    hide RunCommand, RollingDisk, Interrupted, CommandHalf, WellPlanned, StaticDone;
  }

  lemma StaticBodyKeeps(p: Plan, m: Machine)
    requires WellPlanned(p) && p.operation.IsStatic() && m.disk == p.before && m.local == PreparedJournal(p)
    ensures var f := StaticBody(m, p);
            Interrupted(p, m, f) && f.m.notes == m.notes
            && (f.Go? ==> f.m.disk == StaticDone(p)
                          && f.m.local == PreparedJournal(p).(phase := StaticPhase(p)))
  {
    StaticDisksRoll(p);
    EarlyDisksRoll(p);
    FirstRecordKeeps(p, m);
    var f1 := PersistJournal(m, m.local);
    if f1.Go? {
      SnapshotConfigKeeps(p, f1.m);
      var f2 := SnapshotConfig(f1.m);
      if f2.Go? {
        if p.operation.StaticRestore? {
          AdvanceKeeps(p, f2.m, Activating);
          var f3 := Advance(f2.m, Activating);
          if f3.Go? {
            RestoreProfileKeeps(p, f3.m);
          }
        } else {
          WriteConfigKeeps(p, f2.m);
        }
      }
    }
    hide PersistJournal, SnapshotConfig, WriteConfig, Advance, RunCommand, RollingDisk, Interrupted,
      WellPlanned;
  }

  lemma StaticDoneIsActivated(p: Plan)
    requires WellPlanned(p) && p.operation.IsStatic()
    ensures IsActivated(p, StaticDone(p)) && StaticDone(p).journal.Some? && StaticDone(p).staging == {}
    ensures p.operation.StaticSwitch? ==>
      Recoverable(p, StaticDone(p)) && HasSnapshots(p, StaticDone(p))
      && RollingDisk(p, StaticDone(p), PreparedJournal(p).(phase := Activated))
  {
  }

  /** A restored profile is never rolled back, only cleaned up after. */
  lemma RestoreRecordKeeps(p: Plan, m: Machine, j: SetupJournal)
    requires WellPlanned(p) && RestoreTookEffect(p, m.disk) && m.disk.journal.Some?
    requires Inv(p, m.disk, m.notes) && MayClean(p, m.disk)
    requires Matches(p, j) && IsRestorePhase(j.phase)
    ensures var f := PersistJournal(m, j);
            && f.m.notes == m.notes && f.m.local == m.local
            && Inv(p, f.m.disk, f.m.notes) && MayClean(p, f.m.disk)
            && RestoreTookEffect(p, f.m.disk)
            && (f.Go? ==> f.m.disk == m.disk.(journal := Some(j)))
  {
    PersistKeeps(p, m, j);
  }

  lemma RestoreProofKeeps(p: Plan, m: Machine)
    requires WellPlanned(p) && RestoreTookEffect(p, m.disk) && m.disk.journal.Some?
    requires Inv(p, m.disk, m.notes) && MayClean(p, m.disk) && m.disk.staging == {}
    requires Matches(p, m.local)
    ensures var f := StaticProof(m);
            && m.notes <= f.m.notes <= m.notes + {Proved, LateHealth}
            && Inv(p, f.m.disk, f.m.notes) && MayClean(p, f.m.disk)
            && (f.Go? ==> MayCommit(p, f.m) && IsActivated(p, f.m.disk) && f.m.disk.staging == {})
  {
    hide PersistJournal;
    var a := m.local.(phase := Activated);
    RestoreRecordKeeps(p, m.(local := a), a);
    var f1 := Advance(m, Activated);
    if f1.Go? {
      var c := Pending(f1.m);
      var n := Consume(f1.m);
      var f2 := BeginProof(f1.m);
      if c.Clock? {
        var dev := if n.disk.status.Some? then n.disk.status.value.dev else 0;
        var ino := if n.disk.status.Some? then n.disk.status.value.ino else 0;
        RestoreRecordKeeps(p, n, VerifyingOf(a, c.now, dev, ino));
      }
      if f2.Go? {
        VerifyKeeps(p, f2.m);
      }
    }
  }

  lemma SwitchProofKeeps(p: Plan, m: Machine)
    requires WellPlanned(p) && p.operation.StaticSwitch?
    requires m.disk == StaticDone(p) && m.local == PreparedJournal(p)
    ensures var f := StaticProof(m);
            Interrupted(p, m, f)
            && (f.Go? ==> MayCommit(p, f.m) && IsActivated(p, f.m.disk) && f.m.disk.staging == {})
  {
    StaticDoneIsActivated(p);
    var a := PreparedJournal(p).(phase := Activated);
    var recorded := m.disk.(journal := Some(a));
    assert RollingDisk(p, recorded, a);
    AdvanceKeeps(p, m, Activated);
    var f1 := Advance(m, Activated);
    if f1.Go? {
      RollingIsSafe(p, recorded, a, f1.m.notes);
      ProveKeeps(p, f1.m);
    }
    hide Advance, Prove, Inv, MayCommit, WellPlanned;
  }

  lemma UndoStaticStaysSafe(p: Plan, m: Machine)
    requires WellPlanned(p) && p.operation.IsStatic() && Safe(p, m)
    requires m.disk.journal.Some? ==> MayRollBack(p, m)
    ensures StaysSafe(p, m, UndoStatic(m)) && !UndoStatic(m).Go?
  {
    if m.disk.journal.Some? {
      RollbackStaysSafe(p, m);
    }
    hide RollbackStatic, Safe;
  }

  lemma RestoredDiskMayClean(p: Plan, notes: set<Note>)
    requires WellPlanned(p) && p.operation.StaticRestore?
    ensures Inv(p, StaticDone(p), notes) && MayClean(p, StaticDone(p)) && RestoreTookEffect(p, StaticDone(p))
  {
    StaticDoneIsActivated(p);
  }

  lemma RestoredProfileConcludes(p: Plan, m: Machine)
    requires WellPlanned(p) && p.operation.StaticRestore?
    requires m.disk == StaticDone(p) && m.local == PreparedJournal(p).(phase := Activating)
    ensures var f := StaticProof(m);
            && (f.Crashed? ==> StaysSafe(p, m, f))
            && (f.Go? ==> ConcludesProof(p, m, FinalizeVerified(f.m)))
            && (f.Raised? ==> StaysSafe(p, m, Undone(Cleanup(f.m))) && !Undone(Cleanup(f.m)).Go?)
  {
    hide StaticProof, FinalizeVerified, Cleanup, Inv, MayClean, IsActivated, StaticDone, RestoreTookEffect,
      WellPlanned;
    StaticDoneIsActivated(p);
    RestoredDiskMayClean(p, m.notes);
    RestoreProofKeeps(p, m);
    var f := StaticProof(m);
    if f.Go? {
      FinalizeConcludes(p, f.m);
    } else if f.Raised? {
      CleanupKeeps(p, f.m);
    }
  }

  /** Applying a static request from a clear disk, with or without restoring the pre-managed
      profile. */
  lemma ApplyStaticStaysSafe(m: Machine, restore: bool, p: Plan)
    requires ArtifactsClear(m.disk) && PlanStatic(restore, m.disk) == p
    ensures Concluded(p, m, ApplyStatic(m, restore))
  {
    hide StaticBody, StaticProof, FinalizeVerified, UndoStatic, Cleanup, Inv, MayRollBack, IsActivated, WellPlanned,
      Keeps;
    PlansAreWellFormed(ApiRequest("", "", None, false, false, ""), restore, m.disk);
    ApplyStaticKeepsBounds(p, m, restore);
    var n := m.(local := PreparedJournal(p));
    StaticBodyKeeps(p, n);
    var f1 := StaticBody(n, p);
    if f1.Raised? {
      UndoStaticStaysSafe(p, f1.m);
    } else if f1.Go? {
      if restore {
        RestoredProfileConcludes(p, f1.m);
      } else {
        SwitchProofKeeps(p, f1.m);
        var f2 := StaticProof(f1.m);
        if f2.Go? {
          FinalizeConcludes(p, f2.m);
        } else if f2.Raised? {
          UndoStaticStaysSafe(p, f2.m);
        }
      }
    }
    hide MayCommit;
  }
}
