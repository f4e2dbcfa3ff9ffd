/** Whatever ran before and whatever state it left, a recovery or an apply that completes leaves no
    record, no snapshot and no staging entry. */
module SetupClearance {
  import opened Wrappers
  import opened SetupJournals
  import opened SetupMachine

  predicate NoSnapshotStaging(d: Disk) {
    ConfigSnapshotStaging !in d.staging && CredentialSnapshotStaging !in d.staging
  }

  predicate NoPrivateStaging(d: Disk) {
    JournalStaging !in d.staging && ConfigStaging !in d.staging && CredentialStaging !in d.staging
  }

  lemma NoStagingLeft(d: Disk)
    requires NoPrivateStaging(d) && NoSnapshotStaging(d)
    ensures d.staging == {}
  {
    forall e | e in d.staging
      ensures false
    {
      match e
      case JournalStaging => case ConfigStaging => case CredentialStaging =>
      case ConfigSnapshotStaging => case CredentialSnapshotStaging =>
    }
  }

  /** The three discards recovery starts with. */
  function DiscardPrivate(m: Machine): Flow {
    var m :- DiscardStaging(m, JournalStaging);
    var m :- DiscardStaging(m, ConfigStaging);
    DiscardStaging(m, CredentialStaging)
  }

  /** A step that, going through, leaves no staging entry of its own. */
  predicate Tidy(m: Machine, f: Flow) {
    f.Go? ==> f.m.disk.staging <= m.disk.staging
  }

  /** A settlement that, going through, leaves nothing but the staging entries of other writes. */
  predicate Finishes(m: Machine, f: Flow) {
    f.Go? ==>
      && f.m.disk.journal.None? && f.m.disk.configPrevious.None? && f.m.disk.credentialPrevious.None?
      && f.m.disk.staging <= m.disk.staging - {ConfigSnapshotStaging} - {CredentialSnapshotStaging}
  }

  // ---------------------------------------------------------- settlements

  lemma CleanupFinishes(m: Machine)
    ensures Finishes(m, Cleanup(m))
  {
  }

  lemma PersistIsTidy(m: Machine, j: SetupJournal)
    ensures Tidy(m, PersistJournal(m, j))
  {
    hide Renderable;
  }

  lemma FinalizeFinishes(m: Machine)
    ensures Finishes(m, FinalizeVerified(m))
  {
    hide PersistJournal, Cleanup;
    PersistIsTidy(m, VerifiedOf(m.local));
    CleanupFinishes(PersistJournal(m, VerifiedOf(m.local)).m);
  }

  lemma RollbackStepsAreTidy(m: Machine)
    ensures Tidy(m, UndoAdoption(m)) && Tidy(m, ForgetAdoption(m))
    ensures Tidy(m, RollbackConfig(m)) && Tidy(m, RollbackCredential(m))
  {
  }

  lemma RollbackApiFinishes(m: Machine)
    ensures Finishes(m, RollbackApi(m))
  {
    hide UndoAdoption, RollbackConfig, RollbackCredential, ForgetAdoption, PersistJournal, Cleanup;
    var n := NoteRollback(m);
    RollbackStepsAreTidy(n);
    var f1 := UndoAdoption(n);
    RollbackStepsAreTidy(f1.m);
    var f2 := RollbackConfig(f1.m);
    RollbackStepsAreTidy(f2.m);
    var f3 := RollbackCredential(f2.m);
    RollbackStepsAreTidy(f3.m);
    var f4 := ForgetAdoption(f3.m);
    PersistIsTidy(f4.m, RolledBackOf(f4.m.local));
    CleanupFinishes(PersistJournal(f4.m, RolledBackOf(f4.m.local)).m);
  }

  lemma RollbackStaticFinishes(m: Machine)
    ensures Finishes(m, RollbackStatic(m))
  {
    hide RollbackConfig, PersistJournal, Cleanup;
    RollbackStepsAreTidy(m);
    var f1 := RollbackConfig(m);
    PersistIsTidy(f1.m, RolledBackOf(f1.m.local));
    CleanupFinishes(PersistJournal(f1.m, RolledBackOf(f1.m.local)).m);
  }

  lemma RollbackFinishes(m: Machine)
    ensures Finishes(m, RollbackByOperation(m))
  {
    hide RollbackApi, RollbackStatic;
    RollbackApiFinishes(m);
    RollbackStaticFinishes(m);
  }

  // ------------------------------------------------------------- recovery

  /** Reading the clock or the check leaves staging alone unless the process stops there. */
  lemma ProofIsTidy(m: Machine)
    ensures Tidy(m, BeginProof(m))
    ensures VerifyHealth(m).m.disk.staging == m.disk.staging
  {
    hide Renderable;
  }

  lemma RecoverActivatedFinishes(m: Machine)
    ensures Finishes(m, RecoverActivated(m))
  {
    hide BeginProof, VerifyHealth, FinalizeVerified, RollbackByOperation;
    ProofIsTidy(m);
    var f1 := BeginProof(m);
    ProofIsTidy(f1.m);
    var f2 := VerifyHealth(f1.m);
    FinalizeFinishes(f2.m);
    RollbackFinishes(f2.m);
  }

  lemma RecoverVerifyingFinishes(m: Machine)
    ensures Finishes(m, RecoverVerifying(m))
  {
    hide FinalizeVerified, RollbackByOperation;
    var n := Consume(m);
    FinalizeFinishes(NoteProved(n));
    RollbackFinishes(Unproved(n));
  }

  lemma RecoverJournalFinishes(m: Machine)
    requires m.disk.journal.Some?
    ensures Finishes(m, RecoverJournal(m))
  {
    hide Cleanup, RecoverVerifying, RecoverActivated, RollbackByOperation;
    var n := m.(local := m.disk.journal.value);
    CleanupFinishes(n);
    RecoverVerifyingFinishes(n);
    RecoverActivatedFinishes(n);
    RollbackFinishes(n);
  }

  lemma DiscardsRemove(m: Machine)
    ensures var f := DiscardPrivate(m);
            f.Go? ==> NoPrivateStaging(f.m.disk) && f.m.disk == m.disk.(staging := f.m.disk.staging)
  {
  }

  /** A recovery that completes, from any state at all, has cleared every artifact. */
  lemma RecoverClears(m: Machine)
    ensures Recover(m).Go? ==> ArtifactsClear(Recover(m).m.disk)
  {
    hide DiscardStaging, RecoverJournal;
    DiscardsRemove(m);
    var f := DiscardPrivate(m);
    if f.Go? && f.m.disk.journal.Some? {
      RecoverJournalFinishes(f.m);
      var g := RecoverJournal(f.m);
      if g.Go? {
        NoStagingLeft(g.m.disk);
      }
    }
  }

  // ---------------------------------------------------------------- apply

  lemma ForwardStepsAreTidy(m: Machine, config: Config, key: Key, command: Command)
    ensures Tidy(m, SnapshotConfig(m)) && Tidy(m, SnapshotCredential(m))
    ensures Tidy(m, WriteConfig(m, config)) && Tidy(m, WriteCredential(m, key))
    ensures Tidy(m, Attempt(m)) && Tidy(m, RunCommand(m, command))
  {
  }

  lemma AdvanceIsTidy(m: Machine, phase: Phase)
    ensures Tidy(m, Advance(m, phase))
  {
    hide PersistJournal;
    var local := m.local.(phase := phase);
    PersistIsTidy(m.(local := local), local);
  }

  lemma StageIsTidy(m: Machine, p: Plan)
    ensures Tidy(m, StageSettings(m, p))
  {
    hide PersistJournal, SnapshotConfig, SnapshotCredential, WriteConfig, Advance;
    PersistIsTidy(m, m.local);
    var f1 := PersistJournal(m, m.local);
    ForwardStepsAreTidy(f1.m, p.config, "", RunAdopt);
    var f2 := SnapshotConfig(f1.m);
    ForwardStepsAreTidy(f2.m, p.config, "", RunAdopt);
    var f3 := if p.key.changed && p.key.had then SnapshotCredential(f2.m) else Go(f2.m);
    ForwardStepsAreTidy(f3.m, p.config, "", RunAdopt);
    AdvanceIsTidy(WriteConfig(f3.m, p.config).m, ConfigWritten);
  }

  lemma InstallIsTidy(m: Machine, p: Plan)
    ensures Tidy(m, InstallCredential(m, p))
  {
    hide WriteCredential, Advance, Attempt;
    ForwardStepsAreTidy(m, p.config, p.key.key, RunAdopt);
    var f1 := WriteCredential(m, p.key.key);
    AdvanceIsTidy(f1.m, CredentialWritten);
    ForwardStepsAreTidy(Advance(f1.m, CredentialWritten).m, p.config, "", RunAdopt);
  }

  lemma ActivateIsTidy(m: Machine, p: Plan)
    ensures Tidy(m, Activate(m, p))
  {
    hide RunCommand, Advance;
    var command := if p.operation.Adopt? then RunAdopt else RunProvision(p.generated);
    ForwardStepsAreTidy(m, p.config, "", command);
    AdvanceIsTidy(m, Activated);
    AdvanceIsTidy(RunCommand(m, command).m, Activated);
  }

  lemma ProveIsTidy(m: Machine)
    ensures Tidy(m, Prove(m))
  {
    hide BeginProof, VerifyHealth;
    ProofIsTidy(m);
    ProofIsTidy(BeginProof(m).m);
  }

  lemma ApiForwardIsTidy(m: Machine, p: Plan)
    ensures Tidy(m, ApiForward(m, p))
  {
    hide StageSettings, InstallCredential, Activate, Prove;
    StageIsTidy(m, p);
    var f1 := StageSettings(m, p);
    InstallIsTidy(f1.m, p);
    var f2 := InstallCredential(f1.m, p);
    ActivateIsTidy(f2.m, p);
    ProveIsTidy(Activate(f2.m, p).m);
  }

  lemma StaticForwardIsTidy(m: Machine, p: Plan)
    ensures Tidy(m, StaticBody(m, p)) && Tidy(m, StaticProof(m))
  {
    hide PersistJournal, SnapshotConfig, WriteConfig, Advance, RunCommand, Prove;
    PersistIsTidy(m, m.local);
    var f1 := PersistJournal(m, m.local);
    ForwardStepsAreTidy(f1.m, p.config, "", RunAdopt);
    var f2 := SnapshotConfig(f1.m);
    ForwardStepsAreTidy(f2.m, p.config, "", RunAdopt);
    AdvanceIsTidy(f2.m, Activating);
    ForwardStepsAreTidy(Advance(f2.m, Activating).m, p.config, "", RunRestoreStatic);
    AdvanceIsTidy(m, Activated);
    ProveIsTidy(Advance(m, Activated).m);
  }

  /** An apply that completes from a clear directory leaves it clear. */
  lemma ApplyClears(m: Machine, req: ApiRequest, restore: bool)
    requires m.disk.staging == {}
    ensures ApplyApi(m, req).Go? ==> ArtifactsClear(ApplyApi(m, req).m.disk)
    ensures ApplyStatic(m, restore).Go? ==> ArtifactsClear(ApplyStatic(m, restore).m.disk)
  {
    ApplyApiClears(m, req);
    ApplyStaticClears(m, restore);
    hide ApplyApi, ApplyStatic;
  }

  lemma ApplyApiClears(m: Machine, req: ApiRequest)
    requires m.disk.staging == {}
    ensures ApplyApi(m, req).Go? ==> ArtifactsClear(ApplyApi(m, req).m.disk)
  {
    hide Attempt, ApiForward, FinalizeVerified, UndoApi, RollbackApi;
    match PlanApi(req, m.disk)
    case Err =>
    case Ok(p) =>
      ForwardStepsAreTidy(m, p.config, "", RunAdopt);
      var f1 := Attempt(m);
      ApiForwardIsTidy(f1.m.(local := PreparedJournal(p)), p);
      FinalizeFinishes(ApiForward(f1.m.(local := PreparedJournal(p)), p).m);
      UndoNeverGoes(ApiForward(f1.m.(local := PreparedJournal(p)), p).m);
  }

  lemma ApplyStaticClears(m: Machine, restore: bool)
    requires m.disk.staging == {}
    ensures ApplyStatic(m, restore).Go? ==> ArtifactsClear(ApplyStatic(m, restore).m.disk)
  {
    hide StaticBody, StaticProof, FinalizeVerified, UndoStatic, Cleanup;
    var p := PlanStatic(restore, m.disk);
    var n := m.(local := PreparedJournal(p));
    StaticForwardIsTidy(n, p);
    var f1 := StaticBody(n, p);
    UndoNeverGoes(f1.m);
    StaticForwardIsTidy(f1.m, p);
    var f2 := StaticProof(f1.m);
    FinalizeFinishes(f2.m);
    UndoNeverGoes(f2.m);
  }

  lemma UndoNeverGoes(m: Machine)
    ensures !UndoApi(m).Go? && !UndoStatic(m).Go?
  {
    hide RollbackApi, RollbackStatic;
  }
}
