/** When an interrupted setup can still be settled: an undisturbed recovery completes from every state a run can
    leave, except from a static restore whose profile files are not both there. */
module SetupCompletion {
  import opened Wrappers
  import opened SetupJournals
  import opened SetupMachine
  import opened SetupClearance
  import opened SetupInvariant
  import opened SetupBounds
  import opened SetupApply
  import opened SetupRuns
  import opened SetupReach
  import opened SetupExposure
  import opened SetupPrediction
  import opened SetupHistory
  import Text

  predicate Disturbs(c: Choice) {
    c.Fault? || (c.Checked? && c.ended.Died?)
  }

  /** No operation reports an error or is cut. */
  predicate IsQuiet(choices: seq<Choice>) {
    forall i :: 0 <= i < |choices| ==> !Disturbs(choices[i])
  }

  predicate Quiet(m: Machine) {
    IsQuiet(m.choices) && NoPrivateStaging(m.disk)
  }

  /** A step that goes through and leaves an undisturbed machine. */
  predicate GoesQuietly(m: Machine, f: Flow) {
    f.Go? && Quiet(f.m) && f.m.local == m.local
  }

  lemma NextIsQuiet(m: Machine)
    requires IsQuiet(m.choices)
    ensures !Disturbs(Pending(m)) && IsQuiet(Consume(m).choices)
  {
  }

  lemma QuietSteps(m: Machine, first: Disk, both: Disk)
    requires Quiet(m) && NoPrivateStaging(both)
    ensures GoesQuietly(m, RemovalSteps(m, first, both)) && RemovalSteps(m, first, both).m.disk == both
  {
    NextIsQuiet(m);
  }

  lemma QuietWrite(m: Machine, entry: Entry, written: Disk)
    requires Quiet(m) && IsPrivate(entry) && written.staging == m.disk.staging
    ensures GoesQuietly(m, AtomicWrite(m, entry, written)) && AtomicWrite(m, entry, written).m.disk == written
  {
    NextIsQuiet(m);
  }

  lemma QuietPersist(m: Machine, j: SetupJournal)
    requires Quiet(m) && Renderable(j)
    ensures GoesQuietly(m, PersistJournal(m, j))
    ensures PersistJournal(m, j).m.disk == m.disk.(journal := Some(j))
  {
    hide AtomicWrite, Renderable;
    QuietWrite(m, JournalStaging, m.disk.(journal := Some(j)));
  }

  lemma QuietCleanup(m: Machine)
    requires Quiet(m)
    ensures Cleanup(m).Go?
  {
    hide RemovalSteps;
    var d1 := m.disk.(staging := m.disk.staging - {ConfigSnapshotStaging});
    QuietSteps(m, d1, d1.(configPrevious := None));
    var n := UnlinkConfigPrevious(m).m;
    var d2 := n.disk.(staging := n.disk.staging - {CredentialSnapshotStaging});
    QuietSteps(n, d2, d2.(credentialPrevious := None));
    var k := UnlinkCredentialPrevious(n).m;
    QuietSteps(k, k.disk.(journal := None), k.disk.(journal := None));
  }

  // ------------------------------------------------------------- rollback

  lemma QuietUndoAdoption(p: Plan, m: Machine)
    requires Quiet(m) && Undoing(p, m.disk, m.local)
    ensures GoesQuietly(m, UndoAdoption(m)) && Undoing(p, UndoAdoption(m).m.disk, m.local)
  {
    UndoAdoptionStays(p, m);
    AdoptedProfileIsThere(p, m.disk, m.local);
    hide Undoing, RemovalSteps;
    if m.local.operation.Adopt? && !m.local.hadPreManaged && m.disk.preManaged.Some? {
      QuietSteps(m, CommandHalf(m.disk, RunRestoreStatic, Pending(m)), CommandDone(m.disk, RunRestoreStatic));
    }
  }

  lemma AdoptedProfileIsThere(p: Plan, d: Disk, local: SetupJournal)
    requires Undoing(p, d, local)
    ensures local.operation.Adopt? ==> d.profile.Some?
  {
  }

  lemma QuietRollbackConfig(p: Plan, m: Machine)
    requires Quiet(m) && Undoing(p, m.disk, m.local)
    ensures GoesQuietly(m, RollbackConfig(m)) && Undoing(p, RollbackConfig(m).m.disk, m.local)
  {
    RollbackConfigStays(p, m);
    SnapshotsAreUsable(p, m.disk, m.local);
    hide Undoing, RemovalSteps, AtomicWrite;
    if m.disk.configPrevious.Some? {
      var gone := m.disk.(staging := m.disk.staging - {ConfigSnapshotStaging});
      QuietSteps(m, gone, gone);
      var n := DiscardStaging(m, ConfigSnapshotStaging).m;
      QuietWrite(n, ConfigStaging, n.disk.(config := n.disk.configPrevious.value));
    }
  }

  lemma SnapshotsAreUsable(p: Plan, d: Disk, local: SetupJournal)
    requires Undoing(p, d, local)
    ensures !local.phase.Prepared? ==> d.configPrevious.Some?
    ensures !local.phase.Prepared? && local.keyChanged && local.hadKey ==> d.credentialPrevious.Some?
    ensures !local.keyChanged ==> d.credentialPrevious.None?
  {
  }

  lemma QuietRollbackCredential(p: Plan, m: Machine)
    requires Quiet(m) && Undoing(p, m.disk, m.local)
    ensures GoesQuietly(m, RollbackCredential(m)) && Undoing(p, RollbackCredential(m).m.disk, m.local)
  {
    RollbackCredentialStays(p, m);
    SnapshotsAreUsable(p, m.disk, m.local);
    hide Undoing, RemovalSteps, AtomicWrite;
    if m.local.keyChanged && !m.local.hadKey {
      QuietSteps(m, m.disk.(credential := None), m.disk.(credential := None));
    } else if m.local.keyChanged && m.disk.credentialPrevious.Some? {
      var gone := m.disk.(staging := m.disk.staging - {CredentialSnapshotStaging});
      QuietSteps(m, gone, gone);
      var n := DiscardStaging(m, CredentialSnapshotStaging).m;
      QuietWrite(n, CredentialStaging, n.disk.(credential := Some(n.disk.credentialPrevious.value)));
    }
  }

  lemma QuietForgetAdoption(p: Plan, m: Machine)
    requires Quiet(m) && Undoing(p, m.disk, m.local)
    ensures GoesQuietly(m, ForgetAdoption(m)) && Undoing(p, ForgetAdoption(m).m.disk, m.local)
  {
    ForgetAdoptionStays(p, m);
    hide Undoing, RemovalSteps;
    QuietSteps(m, m.disk.(preManaged := None), m.disk.(preManaged := None));
  }

  lemma QuietSeal(p: Plan, m: Machine)
    requires Quiet(m) && Undoing(p, m.disk, m.local)
    ensures SealRollback(m).Go?
  {
    UndoingIsPlanned(p, m.disk, m.local);
    RolledBackRenders(p, m.local) by {
      assert Undoing(p, m.disk, m.local);
    }
    hide Undoing, PersistJournal, Cleanup, Renderable;
    QuietPersist(m, RolledBackOf(m.local));
    QuietCleanup(PersistJournal(m, RolledBackOf(m.local)).m);
  }

  lemma QuietRollback(p: Plan, m: Machine)
    requires Quiet(m) && Undoing(p, m.disk, m.local)
    ensures RollbackByOperation(m).Go?
  {
    hide Undoing, Quiet, UndoAdoption, RollbackConfig, RollbackCredential, ForgetAdoption, PersistJournal, Cleanup;
    if m.local.operation.IsApi() {
      var n := NoteRollback(m);
      NotingIsQuiet(m);
      QuietUndoAdoption(p, n);
      var m1 := UndoAdoption(n).m;
      QuietRollbackConfig(p, m1);
      var m2 := RollbackConfig(m1).m;
      QuietRollbackCredential(p, m2);
      var m3 := RollbackCredential(m2).m;
      QuietForgetAdoption(p, m3);
      QuietSeal(p, ForgetAdoption(m3).m);
    } else {
      QuietRollbackConfig(p, m);
      QuietSeal(p, RollbackConfig(m).m);
    }
  }

  lemma NotingIsQuiet(m: Machine)
    requires Quiet(m)
    ensures Quiet(NoteRollback(m)) && NoteRollback(m).local == m.local && NoteRollback(m).disk == m.disk
  {
  }

  lemma QuietFinalize(p: Plan, m: Machine)
    requires Quiet(m) && WellPlanned(p) && Matches(p, m.local) && m.local.phase.Verifying? && Renderable(m.local)
    ensures FinalizeVerified(m).Go?
  {
    VerifiedRenders(p, m.local);
    hide PersistJournal, Cleanup, Renderable;
    QuietPersist(m, VerifiedOf(m.local));
    QuietCleanup(PersistJournal(m, VerifiedOf(m.local)).m);
  }

  // ------------------------------------------------------------- recovery

  /** An activation recovery has to prove before it may keep it. */
  predicate NeedsProof(d: Disk) {
    d.journal.Some? && d.journal.value.phase.Activated? && CanBeProvedLater(d.journal.value.operation)
  }

  /** The clock gives a time the record can hold, and so does the identity of the status file. */
  predicate ProofCanBegin(status: Option<Status>, clock: Choice) {
    && clock.Clock? && 0 < clock.now && InUintRange(clock.now)
    && (status.Some? ==> 0 < status.value.dev && InUintRange(status.value.dev) && InUintRange(status.value.ino))
  }

  /** A static restore past `prepared`, the source already static, without both profiles. */
  predicate IsStuck(d: Disk) {
    && d.journal.Some? && d.journal.value.operation.StaticRestore? && IsRestorePhase(d.journal.value.phase)
    && d.config.source.Static? && (d.profile.None? || d.preManaged.None?)
  }

  /** The answer the fourth operation gets: the first after the discards. */
  function Fourth(choices: seq<Choice>): Choice {
    if |choices| > 3 then choices[3] else Proceed
  }

  lemma QuietDiscards(m: Machine)
    requires IsQuiet(m.choices)
    ensures var f := DiscardPrivate(m);
            && f.Go? && Quiet(f.m) && Pending(f.m) == Fourth(m.choices)
            && f.m.disk == m.disk.(staging := f.m.disk.staging)
  {
    DiscardsRemove(m);
    QuietDiscard(m, JournalStaging);
    var m1 := DiscardStaging(m, JournalStaging).m;
    QuietDiscard(m1, ConfigStaging);
    var m2 := DiscardStaging(m1, ConfigStaging).m;
    QuietDiscard(m2, CredentialStaging);
    hide RemovalSteps;
  }

  lemma QuietDiscard(m: Machine, entry: Entry)
    requires IsQuiet(m.choices)
    ensures DiscardStaging(m, entry).Go? && DiscardStaging(m, entry).m.choices == Consume(m).choices
    ensures IsQuiet(Consume(m).choices)
  {
  }

  lemma QuietVerifying(p: Plan, m: Machine)
    requires Quiet(m) && WellPlanned(p) && Kept(p, m.disk) && m.disk.journal == Some(m.local)
             && m.local.phase.Verifying?
    requires !RestoreTookEffect(p, m.disk)
    ensures RecoverVerifying(m).Go?
  {
    var c, n := Pending(m), Consume(m);
    NextIsQuiet(m);
    KeptMatches(p, m.disk);
    if c.Clock? && IsFresh(n.local, n.disk.status, c.now) {
      QuietFinalize(p, NoteProved(n));
    } else {
      UnfinishedIsUndoing(p, Unproved(n));
      QuietRollback(p, Unproved(n));
    }
    hide FinalizeVerified, RollbackByOperation, Kept, Undoing, RestoreTookEffect, Renderable;
  }

  lemma QuietBeginProof(p: Plan, m: Machine)
    requires Quiet(m) && Kept(p, m.disk) && m.disk.journal == Some(m.local) && m.local.phase.Activated?
    ensures BeginProof(m).Go? <==> ProofCanBegin(m.disk.status, Pending(m))
    ensures BeginProof(m).Go? ==> Quiet(BeginProof(m).m) && Renderable(BeginProof(m).m.local)
  {
    NextIsQuiet(m);
    KeptMatches(p, m.disk);
    var c := Pending(m);
    if c.Clock? {
      var dev := if m.disk.status.Some? then m.disk.status.value.dev else 0;
      var ino := if m.disk.status.Some? then m.disk.status.value.ino else 0;
      var v := VerifyingOf(m.local, c.now, dev, ino);
      VerifyingRendersExactly(m.local, c.now, m.disk.status);
      if Renderable(v) {
        QuietPersist(Consume(m), v);
      }
    }
    hide PersistJournal, Renderable, Kept;
  }

  lemma VerifyingRendersExactly(local: SetupJournal, now: nat, status: Option<Status>)
    requires Renderable(local) && local.phase.Activated?
    ensures var dev := if status.Some? then status.value.dev else 0;
            var ino := if status.Some? then status.value.ino else 0;
            Renderable(VerifyingOf(local, now, dev, ino)) <==> ProofCanBegin(status, Clock(now))
  {
    Text.Pow10Monotone(0, PROOF_DIGITS);
  }

  lemma QuietVerify(m: Machine)
    requires Quiet(m)
    ensures !VerifyHealth(m).Crashed? && Quiet(VerifyHealth(m).m)
  {
    NextIsQuiet(m);
  }

  lemma QuietActivated(p: Plan, m: Machine)
    requires Quiet(m) && WellPlanned(p) && Kept(p, m.disk) && m.disk.journal == Some(m.local)
             && m.local.phase.Activated?
    requires !p.operation.StaticRestore?
    ensures RecoverActivated(m).Go? <==> ProofCanBegin(m.disk.status, Pending(m))
  {
    hide FinalizeVerified, RollbackByOperation, Kept, Undoing, BeginProof, VerifyHealth, Quiet, Renderable;
    BeginProofKeepsBounds(p, m);
    QuietBeginProof(p, m);
    var f1 := BeginProof(m);
    if f1.Go? {
      VerifyKeepsBounds(p, f1.m);
      QuietVerify(f1.m);
      KeptMatches(p, f1.m.disk);
      var f2 := VerifyHealth(f1.m);
      if f2.Go? {
        QuietFinalize(p, f2.m);
      } else {
        UnfinishedIsUndoing(p, f2.m);
        QuietRollback(p, f2.m);
      }
    }
  }

  lemma QuietJournal(p: Plan, m: Machine)
    requires Quiet(m) && WellPlanned(p) && Kept(p, m.disk) && m.disk.journal.Some?
    ensures RecoverJournal(m).Go? <==>
              !IsStuck(m.disk) && (NeedsProof(m.disk) ==> ProofCanBegin(m.disk.status, Pending(m)))
  {
    var j := m.disk.journal.value;
    var n := m.(local := j);
    KeptMatches(p, m.disk);
    var restore := j.operation.StaticRestore? && !j.phase.Prepared? && !IsFinal(j.phase);
    if restore {
      RestorePhases(p, m.disk);
      VisibleTookEffect(p, m.disk);
    }
    StuckIsUnreadable(m.disk);
    assert !p.operation.StaticRestore? ==> !RestoreTookEffect(p, m.disk);
    hide Kept, Undoing, RestoreTookEffect, RecoverVerifying, RecoverActivated, RollbackByOperation, Cleanup,
      StaticRestoreVisible, Quiet, IsStuck;
    if IsFinal(j.phase) {
      QuietCleanup(n) by {
        assert Quiet(m);
      }
    } else if restore && StaticRestoreVisible(n.disk).Err? {
    } else if restore && StaticRestoreVisible(n.disk) == Ok(true) {
      LocalIsQuiet(m, j);
      QuietCleanup(n);
    } else {
      LocalIsQuiet(m, j);
      if j.phase.Verifying? && j.verifyStarted > 0 {
        QuietVerifying(p, n);
      } else if j.phase.Activated? && CanBeProvedLater(j.operation) {
        QuietActivated(p, n);
      } else {
        UnfinishedIsUndoing(p, n);
        QuietRollback(p, n);
      }
    }
  }

  lemma LocalIsQuiet(m: Machine, j: SetupJournal)
    requires Quiet(m)
    ensures Quiet(m.(local := j))
  {
  }

  lemma StuckIsUnreadable(d: Disk)
    ensures IsStuck(d) <==>
              && d.journal.Some? && d.journal.value.operation.StaticRestore? && IsRestorePhase(d.journal.value.phase)
              && StaticRestoreVisible(d).Err?
  {
  }

  /** From every state a run can leave, an undisturbed recovery completes if and only if the state is not a stuck
      static restore and, where an activation has yet to be proved, the proof can begin. */
  lemma RecoveryCompletesExactly(p: Plan, m: Machine)
    requires WellPlanned(p) && Kept(p, m.disk) && IsQuiet(m.choices)
    ensures Recover(m).Go? <==>
              !IsStuck(m.disk) && (NeedsProof(m.disk) ==> ProofCanBegin(m.disk.status, Fourth(m.choices)))
  {
    QuietDiscards(m);
    DiscardsKeepBounds(p, m);
    var f := DiscardPrivate(m);
    if m.disk.journal.Some? {
      QuietJournal(p, f.m);
    } else {
      NothingIsLeft(p, f.m.disk) by {
        assert Quiet(f.m);
      }
    }
    hide RecoverJournal, Kept, DiscardStaging;
  }

  /** Wherever an API run was interrupted, the next undisturbed recovery completes, given a working clock where a
      proof is due. */
  lemma ApiRunsComplete(disk: Disk, req: ApiRequest, choices: seq<Choice>, sessions: seq<seq<Choice>>,
                        last: seq<Choice>)
    requires ArtifactsClear(disk) && PlanApi(req, disk).Ok? && IsQuiet(last)
    ensures var m := ApiRun(disk, req, choices, sessions).m;
            Recover(m.(choices := last)).Go? <==> (NeedsProof(m.disk) ==> ProofCanBegin(m.disk.status, Fourth(last)))
  {
    var p, m := PlanApi(req, disk).value, ApiRun(disk, req, choices, sessions).m;
    InterruptedApiRun(disk, req, choices, sessions);
    RecoveryCompletesExactly(p, m.(choices := last));
    hide ApiRun, PlanApi, Recover, Inv, WellPlanned, FilesInBounds, RecordHolds;
  }

  /** Of the static runs only a restore can get stuck, and only one that found the source static and a profile file
      missing. */
  lemma StaticRunsComplete(disk: Disk, restore: bool, choices: seq<Choice>, sessions: seq<seq<Choice>>,
                           last: seq<Choice>)
    requires ArtifactsClear(disk) && IsQuiet(last)
    ensures var m := StaticRun(disk, restore, choices, sessions).m;
            && (Recover(m.(choices := last)).Go? <==>
                  !IsStuck(m.disk) && (NeedsProof(m.disk) ==> ProofCanBegin(m.disk.status, Fourth(last))))
            && (IsStuck(m.disk) ==> restore && MayGetStuck(disk))
  {
    hide StaticRun, PlanStatic, Recover, Inv, WellPlanned, Kept, IsStuck, NeedsProof, MayGetStuck, IsQuiet;
    var p, m := PlanStatic(restore, disk), StaticRun(disk, restore, choices, sessions).m;
    InterruptedStaticRun(disk, restore, choices, sessions);
    RecoveryCompletesExactly(p, m.(choices := last));
    StaticPlanStarts(restore, disk);
    if IsStuck(m.disk) {
      OnlyThoseGetStuck(p, m.disk);
    }
  }

  lemma StaticPlanStarts(restore: bool, disk: Disk)
    ensures PlanStatic(restore, disk).before == disk
            && (PlanStatic(restore, disk).operation.StaticRestore? <==> restore)
  {
  }

  // ---------------------------------------------------------------- stuck

  /** The files a static restore can get stuck over. */
  predicate MayGetStuck(disk: Disk) {
    disk.config.source.Static? && (disk.profile.None? || disk.preManaged.None?)
  }

  lemma OnlyThoseGetStuck(p: Plan, d: Disk)
    requires WellPlanned(p) && Kept(p, d) && IsStuck(d)
    ensures p.operation.StaticRestore? && MayGetStuck(p.before)
  {
  }

  /** No recovery gets out of a stuck state, disturbed or not. */
  lemma StuckStaysStuck(m: Machine)
    requires IsStuck(m.disk)
    ensures !Recover(m).Go? && IsStuck(Recover(m).m.disk)
  {
    hide DiscardStaging;
    DiscardsTouchNoFile(m);
  }

  lemma {:induction false} StuckForever(m: Machine, sessions: seq<seq<Choice>>)
    decreases |sessions|
    requires IsStuck(m.disk)
    ensures !Recoveries(m, sessions).Go? && IsStuck(Recoveries(m, sessions).m.disk)
  {
    hide IsStuck, Recover;
    if sessions != [] {
      var n := m.(choices := sessions[0]);
      StuckStaysStuck(n);
      StuckForever(Recover(n).m, sessions[1..]);
    }
  }

  /** So no later setup of any kind completes either. */
  lemma {:induction false} StuckBlocksSetups(m: Machine, invocations: seq<Invocation>, next: Invocation)
    decreases |invocations|
    requires IsStuck(m.disk)
    ensures !ApplySetup(History(m, invocations).(choices := next.choices), next.request).Go?
  {
    hide IsStuck, Recover, MayApply, ApplyApi, ApplyStatic;
    if invocations == [] {
      StuckBlocks(m.(choices := next.choices), next.request);
    } else {
      var n := m.(choices := invocations[0].choices);
      StuckBlocks(n, invocations[0].request);
      StuckBlocksSetups(ApplySetup(n, invocations[0].request).m, invocations[1..], next);
    }
  }

  lemma StuckBlocks(m: Machine, request: Request)
    requires IsStuck(m.disk)
    ensures !ApplySetup(m, request).Go? && IsStuck(ApplySetup(m, request).m.disk)
  {
    hide Recover, MayApply, ApplyApi, ApplyStatic;
    var f := Attempt(m);
    assert IsStuck(f.m.disk);
    StuckStaysStuck(f.m);
  }

  /** The process ends as soon as `activating` is recorded. */
  const CUT_AT_ACTIVATING: seq<Choice> := [Proceed, Proceed, Fault(1, false, true, false)]

  lemma RestoreGetsStuck(disk: Disk)
    requires ArtifactsClear(disk) && MayGetStuck(disk)
    ensures var f := ApplyStatic(Fresh(disk, CUT_AT_ACTIVATING, PlanStatic(true, disk)), true);
            f.Crashed? && IsStuck(f.m.disk)
  {
    hide PersistJournal, SnapshotConfig, Advance, Renderable, CalmThen, WellPlanned;
    var p := PlanStatic(true, disk);
    PlansAreWellFormed(ApiRequest("", "", None, false, false, ""), true, disk);
    PlannedRecordsRender(p, Prepared);
    PlannedRecordsRender(p, Activating);
    var m := Fresh(disk, CUT_AT_ACTIVATING, p);
    var cut := [Fault(1, false, true, false)];
    assert m.choices == CalmThen(2, cut) by {
      CutIsCalmThen(cut);
    }
    CalmPersist(m, m.local, 2, cut);
    var m1 := PersistJournal(m, m.local).m;
    CalmSnapshot(m1, cut);
    CutAdvance(SnapshotConfig(m1).m, cut);
  }

  lemma CutIsCalmThen(cut: seq<Choice>)
    ensures CalmThen(2, cut) == [Proceed, Proceed] + cut
  {
    assert CalmThen(1, cut) == [Proceed] + cut;
  }

  lemma CalmSnapshot(m: Machine, rest: seq<Choice>)
    requires m.choices == CalmThen(1, rest) && m.disk.staging == {} && m.disk.configPrevious.None?
    ensures SnapshotConfig(m) == Go(m.(disk := m.disk.(configPrevious := Some(m.disk.config)), choices := rest))
  {
    NextIsCalm(m, 1, rest);
  }

  lemma CutAdvance(m: Machine, cut: seq<Choice>)
    requires m.choices == cut == [Fault(1, false, true, false)] && m.disk.staging == {}
    requires Renderable(m.local.(phase := Activating))
    ensures var j := m.local.(phase := Activating);
            Advance(m, Activating) == Crashed(Consume(m).(disk := m.disk.(journal := Some(j)), local := j))
  {
    hide Renderable;
  }

  /** After a run answered by these choices no recoveries ever complete. */
  ghost predicate Blocks(disk: Disk, choices: seq<Choice>) {
    forall sessions :: !StaticRun(disk, true, choices, sessions).Go?
  }

  /** A static restore has a run no recovery ever completes if and only if it starts with the source static and one
      of its two profiles missing. */
  lemma RestoreBlocksExactly(disk: Disk)
    requires ArtifactsClear(disk)
    ensures (exists choices :: Blocks(disk, choices)) <==> MayGetStuck(disk)
  {
    if MayGetStuck(disk) {
      RestoreGetsStuck(disk);
      forall sessions
        ensures !StaticRun(disk, true, CUT_AT_ACTIVATING, sessions).Go?
      {
        StuckForever(ApplyStatic(Fresh(disk, CUT_AT_ACTIVATING, PlanStatic(true, disk)), true).m, sessions);
      }
      assert Blocks(disk, CUT_AT_ACTIVATING);
    } else {
      forall choices
        ensures !Blocks(disk, choices)
      {
        UnblockedRestoreCompletes(disk, choices);
      }
    }
    hide ApplyStatic, IsStuck, MayGetStuck, Recoveries, PlanStatic;
  }

  lemma UnblockedRestoreCompletes(disk: Disk, choices: seq<Choice>)
    requires ArtifactsClear(disk) && !MayGetStuck(disk)
    ensures StaticRun(disk, true, choices, [[]]).Go?
  {
    var p := PlanStatic(true, disk);
    var f := ApplyStatic(Fresh(disk, choices, p), true);
    if !f.Go? {
      var m := StaticRun(disk, true, choices, []).m;
      assert m == f.m;
      StaticRunsComplete(disk, true, choices, [], []);
      InterruptedStaticRun(disk, true, choices, []);
      assert !NeedsProof(m.disk) by {
        RestoresNeedNoProof(p, m.disk);
      }
      var n := m.(choices := []);
      assert Recoveries(m, [[]]) == (match Recover(n) case Go(k) => Go(k) case halted => Recoveries(halted.m, []));
    }
    hide ApplyStatic, IsStuck, MayGetStuck, Recover, PlanStatic, Kept, Inv, WellPlanned, NeedsProof;
  }

  lemma RestoresNeedNoProof(p: Plan, d: Disk)
    requires Kept(p, d) && p.operation.StaticRestore?
    ensures !NeedsProof(d)
  {
  }
}
