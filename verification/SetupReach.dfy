/** What holds at every cut of every run: the bounds, the write-ahead rule and the credential prediction. */
module SetupReach {
  import opened Wrappers
  import opened SetupJournals
  import opened SetupMachine
  import opened SetupInvariant
  import opened SetupBounds
  import opened SetupRuns
  import opened SetupPrediction

  /** Wherever a run stops, the files are within bounds and no step has asked for inspection; runs that are not
      excused also satisfy the full invariant. */
  lemma InterruptedApiRun(disk: Disk, req: ApiRequest, choices: seq<Choice>, sessions: seq<seq<Choice>>)
    requires ArtifactsClear(disk) && PlanApi(req, disk).Ok?
    ensures WellPlanned(PlanApi(req, disk).value) && PlanApi(req, disk).value.operation.IsApi()
    ensures var f := ApiRun(disk, req, choices, sessions);
            && Kept(PlanApi(req, disk).value, f.m.disk) && Inspection !in f.m.notes
            && (!Excused(f.m.notes) ==> Inv(PlanApi(req, disk).value, f.m.disk, f.m.notes))
  {
    ApiRunSettles(disk, req, choices, sessions);
    hide ApiRun, Inv, Kept, WellPlanned;
  }

  lemma InterruptedStaticRun(disk: Disk, restore: bool, choices: seq<Choice>, sessions: seq<seq<Choice>>)
    requires ArtifactsClear(disk)
    ensures WellPlanned(PlanStatic(restore, disk))
    ensures var f := StaticRun(disk, restore, choices, sessions);
            && Kept(PlanStatic(restore, disk), f.m.disk) && Inspection !in f.m.notes
            && (!Excused(f.m.notes) ==> Inv(PlanStatic(restore, disk), f.m.disk, f.m.notes))
  {
    StaticRunSettles(disk, restore, choices, sessions);
    hide StaticRun, PlanStatic, Inv, Kept, WellPlanned;
  }

  /** At every cut of every API run the recorded phase tells which snapshots are in place, with the original bytes,
      and no rollback has missed a snapshot or met an unexpected one. */
  lemma ApiRunsWriteAhead(disk: Disk, req: ApiRequest, choices: seq<Choice>, sessions: seq<seq<Choice>>)
    requires ArtifactsClear(disk) && PlanApi(req, disk).Ok?
    ensures var p, m := PlanApi(req, disk).value, ApiRun(disk, req, choices, sessions).m;
            && Inspection !in m.notes
            && match m.disk.journal
               case None => m.disk.configPrevious.None? && m.disk.credentialPrevious.None?
               case Some(j) =>
                 !j.phase.Prepared? && !IsFinal(j.phase) ==>
                   && m.disk.configPrevious == Some(disk.config)
                   && (m.disk.credentialPrevious.Some? <==> p.key.changed && disk.credential.Some?)
                   && (m.disk.credentialPrevious.Some? ==> m.disk.credentialPrevious == disk.credential)
  {
    var p, m := PlanApi(req, disk).value, ApiRun(disk, req, choices, sessions).m;
    InterruptedApiRun(disk, req, choices, sessions);
    assert p.before == disk;
    if m.disk.journal.Some? && !m.disk.journal.value.phase.Prepared? && !IsFinal(m.disk.journal.value.phase) {
      SnapshotsAreWrittenAhead(p, m.disk);
    }
    hide ApiRun, RecordHolds, WellPlanned, PlanApi, FilesInBounds, Inv;
  }

  /** The same for static runs: the config snapshot is in place with the original bytes, or a restore is in force; a
      key snapshot never is. */
  lemma StaticRunsWriteAhead(disk: Disk, restore: bool, choices: seq<Choice>, sessions: seq<seq<Choice>>)
    requires ArtifactsClear(disk)
    ensures var m := StaticRun(disk, restore, choices, sessions).m;
            && Inspection !in m.notes && m.disk.credentialPrevious.None?
            && match m.disk.journal
               case None => m.disk.configPrevious.None?
               case Some(j) =>
                 !j.phase.Prepared? && !IsFinal(j.phase) ==>
                   || m.disk.configPrevious == Some(disk.config)
                   || (&& restore && m.disk.configPrevious.None?
                       && m.disk.config == disk.config.(source := Static) && m.disk.profile == disk.preManaged)
  {
    var p, m := PlanStatic(restore, disk), StaticRun(disk, restore, choices, sessions).m;
    InterruptedStaticRun(disk, restore, choices, sessions);
    assert p.before == disk && (p.operation.StaticRestore? <==> restore);
    assert !p.key.changed && p.config == disk.config.(source := Static);
    if m.disk.journal.Some? && !m.disk.journal.value.phase.Prepared? && !IsFinal(m.disk.journal.value.phase) {
      SnapshotsAreWrittenAhead(p, m.disk);
    }
    hide StaticRun, RecordHolds, WellPlanned, PlanStatic, FilesInBounds, Inv;
  }

  /** After any interrupted API run, a prediction that no credential is needed comes true in the next recovery,
      complete or cut. */
  lemma PredictionHoldsAfterApiRuns(disk: Disk, req: ApiRequest, choices: seq<Choice>, sessions: seq<seq<Choice>>,
                                    last: seq<Choice>)
    requires ArtifactsClear(disk) && PlanApi(req, disk).Ok?
    requires RequiresProposedCredential(ApiRun(disk, req, choices, sessions).m.disk, false) == Ok(false)
    ensures var f := Recover(ApiRun(disk, req, choices, sessions).m.(choices := last));
            NeedsNoCredential(f.m.disk) && PrecheckPasses(f.m.disk, None, false, true)
  {
    var p, m := PlanApi(req, disk).value, ApiRun(disk, req, choices, sessions).m;
    InterruptedApiRun(disk, req, choices, sessions);
    ApiRecordsNeverActivate(p, m.disk);
    hide ApiRun, Kept, Inv, WellPlanned, PlanApi, Recover, RequiresProposedCredential, PrecheckPasses,
      NeedsNoCredential;
    PredictionIsSound(p, m.(choices := last));
  }

  lemma ApiRecordsNeverActivate(p: Plan, d: Disk)
    requires Kept(p, d) && p.operation.IsApi()
    ensures d.journal.Some? ==> !d.journal.value.phase.Activating?
  {
  }

  /** The same after static runs and a completed recovery, except for a restore cut at `activating`, where it is right
      exactly while the restore is not visible. */
  lemma PredictionAfterStaticRuns(disk: Disk, restore: bool, choices: seq<Choice>, sessions: seq<seq<Choice>>,
                                  last: seq<Choice>)
    requires ArtifactsClear(disk)
    requires RequiresProposedCredential(StaticRun(disk, restore, choices, sessions).m.disk, false) == Ok(false)
    ensures var m := StaticRun(disk, restore, choices, sessions).m;
            var f := Recover(m.(choices := last));
            var activating := m.disk.journal.Some? && m.disk.journal.value.phase.Activating?;
            f.Go? ==> (NeedsNoCredential(f.m.disk) <==> (activating ==> StaticRestoreVisible(m.disk) != Ok(true)))
  {
    var p, m := PlanStatic(restore, disk), StaticRun(disk, restore, choices, sessions).m;
    InterruptedStaticRun(disk, restore, choices, sessions);
    hide StaticRun, Kept, Inv, WellPlanned, PlanStatic, Recover, RequiresProposedCredential, PrecheckPasses,
      NeedsNoCredential, StaticRestoreVisible;
    if m.disk.journal.Some? && m.disk.journal.value.phase.Activating? {
      ActivatingPredictionIsExact(p, m.(choices := last));
    } else {
      PredictionIsSound(p, m.(choices := last));
    }
  }
}
