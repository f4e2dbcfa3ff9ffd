/** The phases a completed apply has recorded, one after another, none skipped. */
module SetupTrail {
  import opened SetupJournals
  import opened SetupMachine

  /** A step that goes through without recording a phase. */
  predicate Silent(m: Machine, f: Flow) {
    f.Go? ==> f.m.recorded == m.recorded && f.m.local == m.local
  }

  lemma PersistRecords(m: Machine, j: SetupJournal)
    ensures PersistJournal(m, j).Go? ==>
              PersistJournal(m, j).m.recorded == m.recorded + [j.phase] && PersistJournal(m, j).m.local == m.local
  {
    hide Renderable;
  }

  lemma AdvanceRecords(m: Machine, phase: Phase)
    ensures Advance(m, phase).Go? ==> Advance(m, phase).m.recorded == m.recorded + [phase]
  {
    hide PersistJournal;
    var local := m.local.(phase := phase);
    PersistRecords(m.(local := local), local);
  }

  lemma StepsAreSilent(m: Machine, config: Config, key: Key, command: Command)
    ensures Silent(m, SnapshotConfig(m)) && Silent(m, SnapshotCredential(m))
    ensures Silent(m, WriteConfig(m, config)) && Silent(m, WriteCredential(m, key))
    ensures Silent(m, Attempt(m)) && Silent(m, RunCommand(m, command))
  {
  }

  lemma CleanupIsSilent(m: Machine)
    ensures Silent(m, Cleanup(m))
  {
    hide RemovalSteps;
    RemovalIsSilent(m);
  }

  lemma RemovalIsSilent(m: Machine)
    ensures forall n: Machine, first, both :: Silent(n, RemovalSteps(n, first, both))
  {
  }

  lemma StageRecords(m: Machine, p: Plan)
    requires m.local.phase == Prepared
    ensures StageSettings(m, p).Go? ==> StageSettings(m, p).m.recorded == m.recorded + [Prepared, ConfigWritten]
  {
    hide PersistJournal, SnapshotConfig, SnapshotCredential, WriteConfig, Advance;
    PersistRecords(m, m.local);
    var a := PersistJournal(m, m.local);
    if a.Go? {
      StepsAreSilent(a.m, p.config, "", RunAdopt);
      var b := SnapshotConfig(a.m);
      if b.Go? {
        StepsAreSilent(b.m, p.config, "", RunAdopt);
        var c := if p.key.changed && p.key.had then SnapshotCredential(b.m) else Go(b.m);
        if c.Go? {
          StepsAreSilent(c.m, p.config, "", RunAdopt);
          var d := WriteConfig(c.m, p.config);
          if d.Go? {
            AdvanceRecords(d.m, ConfigWritten);
          }
        }
      }
    }
  }

  lemma InstallRecords(m: Machine, p: Plan)
    ensures InstallCredential(m, p).Go? ==>
              InstallCredential(m, p).m.recorded == m.recorded + if p.key.changed then [CredentialWritten] else []
  {
    hide WriteCredential, Advance, Attempt;
    if p.key.changed {
      StepsAreSilent(m, m.disk.config, p.key.key, RunAdopt);
      var a := WriteCredential(m, p.key.key);
      if a.Go? {
        AdvanceRecords(a.m, CredentialWritten);
        var b := Advance(a.m, CredentialWritten);
        if b.Go? {
          StepsAreSilent(b.m, m.disk.config, "", RunAdopt);
        }
      }
    }
  }

  lemma ActivateRecords(m: Machine, p: Plan)
    ensures Activate(m, p).Go? ==> Activate(m, p).m.recorded == m.recorded + [Activated]
  {
    hide RunCommand, Advance;
    var command := if p.operation.Adopt? then RunAdopt else RunProvision(p.generated);
    StepsAreSilent(m, m.disk.config, "", command);
    var a := if p.operation.ApiUpdate? then Go(m) else RunCommand(m, command);
    if a.Go? {
      AdvanceRecords(a.m, Activated);
    }
  }

  lemma ProveRecords(m: Machine)
    ensures Prove(m).Go? ==> Prove(m).m.recorded == m.recorded + [Verifying]
  {
    var c := Pending(m);
    if c.Clock? {
      var n := Consume(m);
      var dev := if n.disk.status.Some? then n.disk.status.value.dev else 0;
      var ino := if n.disk.status.Some? then n.disk.status.value.ino else 0;
      PersistRecords(n, VerifyingOf(n.local, c.now, dev, ino));
    }
    hide PersistJournal, IsFresh;
  }

  lemma FinalizeRecords(m: Machine)
    ensures FinalizeVerified(m).Go? ==> FinalizeVerified(m).m.recorded == m.recorded + [Verified]
  {
    hide PersistJournal, Cleanup;
    PersistRecords(m, VerifiedOf(m.local));
    var a := PersistJournal(m, VerifiedOf(m.local));
    if a.Go? {
      CleanupIsSilent(a.m);
    }
  }

  lemma ForwardRecords(m: Machine, p: Plan)
    requires m.local.phase == Prepared
    ensures ApiForward(m, p).Go? ==>
              ApiForward(m, p).m.recorded
              == m.recorded + [Prepared, ConfigWritten] + (if p.key.changed then [CredentialWritten] else [])
                 + [Activated] + [Verifying]
  {
    hide StageSettings, InstallCredential, Activate, Prove;
    StageRecords(m, p);
    var a := StageSettings(m, p);
    if a.Go? {
      InstallRecords(a.m, p);
      var b := InstallCredential(a.m, p);
      if b.Go? {
        ActivateRecords(b.m, p);
        var c := Activate(b.m, p);
        if c.Go? {
          ProveRecords(c.m);
        }
      }
    }
  }

  /** An api apply that completes recorded every phase of its operation in order, the credential's exactly when the
      key changed. */
  lemma CompletedApiRecords(m: Machine, req: ApiRequest)
    requires ApplyApi(m, req).Go?
    ensures PlanApi(req, m.disk).Ok?
    ensures ApplyApi(m, req).m.recorded
            == m.recorded + [Prepared, ConfigWritten]
               + (if PlanApi(req, m.disk).value.key.changed then [CredentialWritten] else [])
               + [Activated] + [Verifying] + [Verified]
  {
    hide ApiForward, UndoApi, FinalizeVerified, PlanApi, Attempt;
    var p := PlanApi(req, m.disk).value;
    StepsAreSilent(m, m.disk.config, "", RunAdopt);
    var a := Attempt(m);
    var start := a.m.(local := PreparedJournal(p));
    ForwardRecords(start, p);
    var f := ApiForward(start, p);
    UndoneNeverGoes(f.m);
    if f.Go? {
      FinalizeRecords(f.m);
    }
  }

  lemma UndoneNeverGoes(m: Machine)
    ensures !UndoApi(m).Go? && !UndoStatic(m).Go?
  {
    hide RollbackApi, RollbackStatic;
  }

  lemma StaticBodyRecords(m: Machine, p: Plan)
    requires m.local.phase == Prepared
    ensures StaticBody(m, p).Go? ==>
              StaticBody(m, p).m.recorded
              == m.recorded + [Prepared] + if p.operation.StaticRestore? then [Activating] else []
  {
    hide PersistJournal, SnapshotConfig, WriteConfig, RunCommand, Advance;
    PersistRecords(m, m.local);
    var a := PersistJournal(m, m.local);
    if a.Go? {
      StepsAreSilent(a.m, p.config, "", RunRestoreStatic);
      var b := SnapshotConfig(a.m);
      if b.Go? {
        StepsAreSilent(b.m, p.config, "", RunRestoreStatic);
        AdvanceRecords(b.m, Activating);
        var c := Advance(b.m, Activating);
        if c.Go? {
          StepsAreSilent(c.m, p.config, "", RunRestoreStatic);
        }
      }
    }
  }

  lemma StaticProofRecords(m: Machine)
    ensures StaticProof(m).Go? ==> StaticProof(m).m.recorded == m.recorded + [Activated] + [Verifying]
  {
    hide Advance, Prove;
    AdvanceRecords(m, Activated);
    var a := Advance(m, Activated);
    if a.Go? {
      ProveRecords(a.m);
    }
  }

  /** So does a static apply; a restore records `activating` before the runtime copies the profile. */
  lemma CompletedStaticRecords(m: Machine, restore: bool)
    requires ApplyStatic(m, restore).Go?
    ensures ApplyStatic(m, restore).m.recorded
            == m.recorded + [Prepared] + (if restore then [Activating] else []) + [Activated] + [Verifying] + [Verified]
  {
    hide StaticBody, StaticProof, FinalizeVerified, UndoStatic, Cleanup;
    var p := PlanStatic(restore, m.disk);
    var s := m.(local := PreparedJournal(p));
    StaticBodyRecords(s, p);
    var body := StaticBody(s, p);
    UndoneNeverGoes(body.m);
    if body.Go? {
      StaticProofRecords(body.m);
      var proof := StaticProof(body.m);
      UndoneNeverGoes(proof.m);
      if proof.Go? {
        FinalizeRecords(proof.m);
      }
    }
  }
}
