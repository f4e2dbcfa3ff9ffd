/** The one rollback that is not atomic, and exactly which plans can meet it. */
module SetupExposure {
  import opened Wrappers
  import opened SetupJournals
  import opened SetupMachine
  import opened SetupClearance
  import opened SetupInvariant
  import opened SetupApply
  import opened SetupRuns
  import Text

  /** Every honest run of this request that completes settles every file: no run in which a failed
      verification left a status that could still read as fresh is considered. */
  ghost predicate SettlesEveryRun(disk: Disk, req: ApiRequest)
    requires ArtifactsClear(disk) && PlanApi(req, disk).Ok?
  {
    forall choices, sessions ::
      var f := ApiRun(disk, req, choices, sessions);
      f.Go? && LateHealth !in f.m.notes ==>
        IsSettled(PlanApi(req, disk).value, f.m.disk)
  }

  // ------------------------------------------------ runs nothing disturbs

  /** `n` undisturbed operations, then `rest`. */
  function CalmThen(n: nat, rest: seq<Choice>): seq<Choice> {
    if n == 0 then rest else [Proceed] + CalmThen(n - 1, rest)
  }

  lemma NextIsCalm(m: Machine, n: nat, rest: seq<Choice>)
    requires m.choices == CalmThen(n, rest) && n > 0
    ensures Pending(m) == Proceed && Consume(m) == m.(choices := CalmThen(n - 1, rest))
  {
    assert m.choices[1..] == CalmThen(n - 1, rest);
  }

  lemma CalmWrite(m: Machine, entry: Entry, written: Disk, n: nat, rest: seq<Choice>)
    requires m.choices == CalmThen(n, rest) && n > 0 && entry !in m.disk.staging
    ensures AtomicWrite(m, entry, written) == Go(m.(disk := written, choices := CalmThen(n - 1, rest)))
  {
    NextIsCalm(m, n, rest);
  }

  lemma CalmRemoval(m: Machine, first: Disk, both: Disk, n: nat, rest: seq<Choice>)
    requires m.choices == CalmThen(n, rest) && n > 0
    ensures RemovalSteps(m, first, both) == Go(m.(disk := both, choices := CalmThen(n - 1, rest)))
  {
    NextIsCalm(m, n, rest);
  }

  lemma CalmPersist(m: Machine, j: SetupJournal, n: nat, rest: seq<Choice>)
    requires m.choices == CalmThen(n, rest) && n > 0 && m.disk.staging == {} && Renderable(j)
    ensures PersistJournal(m, j) ==
            Go(m.(disk := m.disk.(journal := Some(j)), choices := CalmThen(n - 1, rest),
                  recorded := m.recorded + [j.phase]))
  {
    CalmWrite(m, JournalStaging, m.disk.(journal := Some(j)), n, rest);
  }

  lemma PlannedRecordsRender(p: Plan, phase: Phase)
    requires WellPlanned(p) && phase in OperationPhases(p.operation)
    requires !phase.Verifying? && !phase.Verified?
    ensures Renderable(PreparedJournal(p).(phase := phase))
  {
  }

  /** How many durable operations stage the settings. */
  function StagingCount(p: Plan): nat {
    if p.key.changed && p.key.had then 5 else 4
  }

  lemma CalmStaging(p: Plan, m: Machine, rest: seq<Choice>)
    requires WellPlanned(p) && p.operation.IsApi() && m.disk == p.before && m.local == PreparedJournal(p)
    requires m.choices == CalmThen(StagingCount(p), rest)
    ensures StageSettings(m, p) ==
            Go(m.(disk := Staged(p, ConfigWritten), choices := rest,
                  local := PreparedJournal(p).(phase := ConfigWritten),
                  recorded := m.recorded + [Prepared] + [ConfigWritten]))
  {
    hide PersistJournal;
    var n := StagingCount(p);
    PlannedRecordsRender(p, Prepared);
    PlannedRecordsRender(p, ConfigWritten);
    CalmPersist(m, m.local, n, rest);
    var m1 := PersistJournal(m, m.local).m;
    NextIsCalm(m1, n - 1, rest);
    var m2 := SnapshotConfig(m1).m;
    assert m2.disk == Protected(p);
    if n == 5 {
      NextIsCalm(m2, 3, rest);
    }
    var m3 := if n == 5 then SnapshotCredential(m2).m else m2;
    assert m3.disk == BothProtected(p) && m3.choices == CalmThen(2, rest);
    CalmWrite(m3, ConfigStaging, m3.disk.(config := p.config), 2, rest);
    var m4 := WriteConfig(m3, p.config).m;
    assert m4.disk == Staged(p, Prepared);
    var j := PreparedJournal(p).(phase := ConfigWritten);
    CalmPersist(m4.(local := j), j, 1, rest);
    hide Renderable, WellPlanned, AtomicWrite, CalmThen;
  }

  lemma CalmInstall(p: Plan, m: Machine, rest: seq<Choice>)
    requires WellPlanned(p) && p.operation.IsApi() && p.key.changed
    requires m.disk == Staged(p, ConfigWritten) && m.local == PreparedJournal(p).(phase := ConfigWritten)
    requires m.choices == CalmThen(3, rest)
    ensures InstallCredential(m, p) ==
            Go(m.(disk := Keyed(p), choices := rest,
                  local := PreparedJournal(p).(phase := CredentialWritten),
                  recorded := m.recorded + [CredentialWritten]))
  {
    PlannedRecordsRender(p, CredentialWritten);
    CalmWrite(m, CredentialStaging, m.disk.(credential := Some(p.key.key)), 3, rest);
    var m1 := WriteCredential(m, p.key.key).m;
    var j := PreparedJournal(p).(phase := CredentialWritten);
    CalmPersist(m1.(local := j), j, 2, rest);
    var m2 := Advance(m1, CredentialWritten).m;
    CalmRemoval(m2, m2.disk, m2.disk, 1, rest);
    hide Renderable, WellPlanned, PersistJournal, AtomicWrite, CalmThen, RemovalSteps;
  }

  // -------------------------------------------------------- the mixed run

  /** The error before the proof is recorded, and the crash halfway through undoing it. */
  const ERROR_THEN_CUT: seq<Choice> := [
    Fault(0, false, false, false), Proceed, Proceed, Fault(0, false, true, true)]

  function ExposingChoices(p: Plan): seq<Choice> {
    CalmThen(1, CalmThen(StagingCount(p), CalmThen(3, CalmThen(1, ERROR_THEN_CUT))))
  }

  const HEALTHY_CHECK: Choice := Checked(true, Some(Status(1, 1, true, 1)), 1, Returned)

  function AfterVerifying(): seq<Choice> {
    [HEALTHY_CHECK] + CalmThen(4, [])
  }

  function AfterDiscards(): seq<Choice> {
    [Clock(1)] + CalmThen(1, AfterVerifying())
  }

  /** A recovery in which everything works and the check is healthy. */
  function HealthyRecovery(): seq<Choice> {
    CalmThen(3, AfterDiscards())
  }

  /** The old settings with the new key, recorded as activated. */
  function HalfUndone(p: Plan): Disk {
    Keyed(p).(config := p.before.config, status := None,
              journal := Some(PreparedJournal(p).(phase := Activated)))
  }

  lemma CutRollback(p: Plan, m: Machine)
    requires WellPlanned(p) && Exposable(p)
    requires m.local == PreparedJournal(p).(phase := Activated)
    requires m.disk == Keyed(p).(journal := Some(m.local))
    requires m.choices == ERROR_THEN_CUT[1..] && m.notes == {}
    ensures var f := RollbackApi(m);
            f.Crashed? && f.m.disk == HalfUndone(p) && f.m.notes == {ExposedRollback}
  {
    assert IsExposed(m);
    var m1 := NoteRollback(m);
    assert m1.choices == [Proceed, Proceed, Fault(0, false, true, true)];
    assert m1.choices[1..] == [Proceed, Fault(0, false, true, true)];
    assert m1.choices[1..][1..] == [Fault(0, false, true, true)];
    var f2 := RollbackConfig(m1);
    assert f2 == Go(m1.(disk := m1.disk.(config := p.before.config), choices := [Fault(0, false, true, true)]));
  }

  lemma ExposedApply(p: Plan, m: Machine, req: ApiRequest)
    requires ArtifactsClear(m.disk) && PlanApi(req, m.disk) == Ok(p) && Exposable(p)
    requires m == Fresh(m.disk, ExposingChoices(p), p)
    ensures var f := ApplyApi(m, req);
            f.Crashed? && f.m.disk == HalfUndone(p) && f.m.notes == {ExposedRollback}
  {
    hide StageSettings, InstallCredential, PersistJournal, RollbackApi, HalfUndone;
    PlansAreWellFormed(req, false, m.disk);
    var afterProof := CalmThen(1, ERROR_THEN_CUT);
    var afterStaging := CalmThen(3, afterProof);
    var afterAttempt := CalmThen(StagingCount(p), afterStaging);
    CalmRemoval(m, m.disk, m.disk, 1, afterAttempt);
    var m1 := Attempt(m).m;
    CalmStaging(p, m1, afterStaging);
    var m2 := StageSettings(m1, p).m;
    CalmInstall(p, m2, afterProof);
    var m3 := InstallCredential(m2, p).m;
    var j := PreparedJournal(p).(phase := Activated);
    PlannedRecordsRender(p, Activated);
    CalmPersist(m3.(local := j), j, 1, ERROR_THEN_CUT);
    var m4 := Activate(m3, p).m;
    assert Prove(m4) == Raised(Consume(m4));
    CutRollback(p, Consume(m4));
    hide Attempt, Keyed, Exposable, WellPlanned, CalmThen, PlanApi;
  }

  lemma CalmDiscards(m: Machine, rest: seq<Choice>)
    requires m.choices == CalmThen(3, rest) && m.disk.staging == {}
    ensures DiscardPrivate(m) == Go(m.(choices := rest))
  {
    CalmRemoval(m, m.disk, m.disk, 3, rest);
    CalmRemoval(m.(choices := CalmThen(2, rest)), m.disk, m.disk, 2, rest);
    CalmRemoval(m.(choices := CalmThen(1, rest)), m.disk, m.disk, 1, rest);
    assert forall e: Entry :: m.disk.staging - {e} == m.disk.staging;
    hide RemovalSteps, CalmThen;
  }

  lemma CalmFinalize(m: Machine)
    requires m.choices == CalmThen(4, []) && m.disk.staging == {} && Renderable(VerifiedOf(m.local))
    ensures var f := FinalizeVerified(m);
            f.Go? && f.m.notes == m.notes
            && f.m.disk.config == m.disk.config && f.m.disk.credential == m.disk.credential
  {
    CalmPersist(m, VerifiedOf(m.local), 4, []);
    var m1 := PersistJournal(m, VerifiedOf(m.local)).m;
    var d1 := m1.disk.(configPrevious := None, staging := m1.disk.staging - {ConfigSnapshotStaging});
    CalmRemoval(m1, m1.disk.(staging := d1.staging), d1, 3, []);
    var m2 := UnlinkConfigPrevious(m1).m;
    var d2 := m2.disk.(credentialPrevious := None, staging := m2.disk.staging - {CredentialSnapshotStaging});
    CalmRemoval(m2, m2.disk.(staging := d2.staging), d2, 2, []);
    var m3 := UnlinkCredentialPrevious(m2).m;
    CalmRemoval(m3, m3.disk.(journal := None), m3.disk.(journal := None), 1, []);
    hide PersistJournal, RemovalSteps, CalmThen, Renderable;
  }

  lemma HealthyProof(p: Plan, m: Machine)
    requires WellPlanned(p) && p.operation.ApiUpdate?
    requires m.disk == HalfUndone(p) && m.disk.journal == Some(m.local)
    requires m.choices == AfterDiscards()
    ensures var f := BeginProof(m);
            var v := VerifyingOf(m.local, 1, 0, 0);
            f == Go(m.(disk := m.disk.(journal := Some(v)), choices := AfterVerifying(),
                       local := v, recorded := m.recorded + [Verifying]))
            && Renderable(v) && Renderable(VerifiedOf(v))
  {
    hide PersistJournal, AfterVerifying;
    var n := Consume(m);
    assert n.choices == CalmThen(1, AfterVerifying());
    var v := VerifyingOf(m.local, 1, 0, 0);
    Text.Pow10Monotone(1, PROOF_DIGITS);
    CalmPersist(n, v, 1, AfterVerifying());
    hide CalmThen;
  }

  lemma HealthyVerification(m: Machine)
    requires m.choices == AfterVerifying() && m.local.verifyStarted == 1 && m.local.statusBeforeDev == 0
    ensures VerifyHealth(m) ==
            Go(m.(disk := m.disk.(status := Some(Status(1, 1, true, 1))), choices := CalmThen(4, []),
                  notes := m.notes + {Proved}))
  {
    assert m.choices[0] == HEALTHY_CHECK && m.choices[1..] == CalmThen(4, []);
    hide CalmThen;
  }

  lemma RecoverWhenActivated(m: Machine, rest: seq<Choice>)
    requires m.choices == CalmThen(3, rest) && m.disk.staging == {}
    requires m.disk.journal.Some? && m.disk.journal.value.phase.Activated?
    requires m.disk.journal.value.operation.ApiUpdate?
    ensures Recover(m) == RecoverActivated(m.(choices := rest, local := m.disk.journal.value))
  {
    hide RecoverActivated;
    CalmDiscards(m, rest);
    assert Recover(m) == RecoverJournal(m.(choices := rest)) by {
      hide DiscardStaging, RecoverJournal;
    }
  }

  lemma HealthyRecoveryCommits(p: Plan, m: Machine)
    requires WellPlanned(p) && p.operation.ApiUpdate?
    requires m.disk == HalfUndone(p) && m.choices == HealthyRecovery() && LateHealth !in m.notes
    ensures var f := Recover(m);
            f.Go? && LateHealth !in f.m.notes
            && f.m.disk.config == p.before.config && f.m.disk.credential == Keyed(p).credential
  {
    assert Keyed(p).staging == {};
    hide BeginProof, VerifyHealth, FinalizeVerified, Recover, CalmThen, Renderable, AfterDiscards,
      AfterVerifying;
    RecoverWhenActivated(m, AfterDiscards());
    var m1 := m.(choices := AfterDiscards(), local := m.disk.journal.value);
    HealthyProof(p, m1);
    var m2 := BeginProof(m1).m;
    HealthyVerification(m2);
    var m3 := VerifyHealth(m2).m;
    CalmFinalize(m3);
  }

  /** A plan mixes files in some run exactly when it is an api-update that changes both the settings
      and the key: an error between recording `activated` and recording the proof starts a rollback
      that does not change the record, a crash between its two files leaves the old settings with
      the new key, and the next recovery re-verifies and commits that. Every other API plan settles
      on one side in every run. */
  lemma ExactlyExposablePlansMix(disk: Disk, req: ApiRequest)
    requires ArtifactsClear(disk) && PlanApi(req, disk).Ok?
    ensures SettlesEveryRun(disk, req) <==> !Exposable(PlanApi(req, disk).value)
  {
    hide ApplyApi, Recover, PlanApi, ExposingChoices, WellPlanned;
    var p := PlanApi(req, disk).value;
    PlansAreWellFormed(req, false, disk);
    if Exposable(p) {
      var choices := ExposingChoices(p);
      var m := Fresh(disk, choices, p);
      ExposedApply(p, m, req);
      var cut := ApplyApi(m, req).m;
      HealthyRecoveryCommits(p, cut.(choices := HealthyRecovery()));
      var f := ApiRun(disk, req, choices, [HealthyRecovery()]);
      assert f == Recoveries(cut, [HealthyRecovery()]) == Recover(cut.(choices := HealthyRecovery()));
      assert !IsSettled(p, f.m.disk);
    } else {
      forall choices, sessions
        ensures var f := ApiRun(disk, req, choices, sessions);
                f.Go? && LateHealth !in f.m.notes ==> IsSettled(p, f.m.disk)
      {
        ApiRunIsAtomic(disk, req, choices, sessions);
      }
    }
  }
}
