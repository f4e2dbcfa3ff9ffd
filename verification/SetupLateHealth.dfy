/** Why a failed verification must not leave a status that could still read as fresh. */
module SetupLateHealth {
  import opened Wrappers
  import opened SetupJournals
  import opened SetupMachine
  import opened SetupInvariant
  import opened SetupApply
  import opened SetupRuns
  import opened SetupExposure

  const LATE_STATUS := Status(1, 1, true, 1)

  /** The check fails but its status says healthy, and the rollback is cut after the settings. */
  const LATE_THEN_CUT: seq<Choice> := [
    Clock(1), Proceed, Checked(false, Some(LATE_STATUS), 1, Returned), Proceed, Proceed, Fault(0, false, true, false)]

  function LateChoices(p: Plan): seq<Choice> {
    CalmThen(1, CalmThen(StagingCount(p), CalmThen(3, CalmThen(2, LATE_THEN_CUT))))
  }

  function AfterThreeDiscards(): seq<Choice> {
    [Clock(1)] + CalmThen(4, [])
  }

  function LateRecovery(): seq<Choice> {
    CalmThen(3, AfterThreeDiscards())
  }

  function ProvisionRecord(p: Plan, phase: Phase): SetupJournal {
    PreparedJournal(p).(phase := phase)
  }

  function ProvisionedDisk(p: Plan): Disk {
    var d := CommandDone(Keyed(p), RunProvision(p.generated));
    d.(journal := Some(ProvisionRecord(p, Activated)))
  }

  function VerifyingRecord(p: Plan): SetupJournal {
    VerifyingOf(ProvisionRecord(p, Activated), 1, 0, 0)
  }

  /** The old settings and the new key, recorded as being verified, beside a healthy status. */
  function HalfRolledBack(p: Plan): Disk {
    ProvisionedDisk(p).(config := p.before.config, status := Some(LATE_STATUS), journal := Some(VerifyingRecord(p)))
  }

  predicate IsKeyedProvision(p: Plan) {
    p.operation.Provision? && p.key.changed && Some(p.key.key) != p.before.credential && p.before.status.None?
  }

  lemma RecordsRender(p: Plan)
    requires WellPlanned(p) && p.operation.Provision?
    ensures Renderable(ProvisionRecord(p, Activated))
    ensures Renderable(VerifyingRecord(p)) && Renderable(VerifiedOf(VerifyingRecord(p)))
  {
    hide WellPlanned;
    PlannedRecordsRender(p, Activated);
    Text.Pow10Monotone(1, PROOF_DIGITS);
  }

  lemma CalmProvision(p: Plan, m: Machine, rest: seq<Choice>)
    requires WellPlanned(p) && IsKeyedProvision(p)
    requires m.disk == Keyed(p) && m.local == ProvisionRecord(p, CredentialWritten)
    requires m.choices == CalmThen(2, rest)
    ensures Activate(m, p) ==
            Go(m.(disk := ProvisionedDisk(p), choices := rest, local := ProvisionRecord(p, Activated),
                  recorded := m.recorded + [Activated]))
  {
    RecordsRender(p);
    var command := RunProvision(p.generated);
    CalmRemoval(m, CommandStarted(m.disk, command), CommandDone(m.disk, command), 2, rest);
    var m1 := RunCommand(m, command).m;
    assert m1.disk.staging == {};
    var j := ProvisionRecord(p, Activated);
    CalmPersist(m1.(local := j), j, 1, rest);
    hide Renderable, WellPlanned, PersistJournal, RemovalSteps, CalmThen;
  }

  lemma LateVerification(p: Plan, m: Machine)
    requires WellPlanned(p) && IsKeyedProvision(p)
    requires m.disk == ProvisionedDisk(p) && m.local == ProvisionRecord(p, Activated)
    requires m.choices == LATE_THEN_CUT
    ensures Prove(m) ==
            Raised(m.(disk := m.disk.(status := Some(LATE_STATUS), journal := Some(VerifyingRecord(p))),
                      choices := [Proceed, Proceed, Fault(0, false, true, false)], local := VerifyingRecord(p),
                      recorded := m.recorded + [Verifying], notes := m.notes + {LateHealth}))
  {
    RecordsRender(p);
    var c1 := m.choices[1..];
    assert c1 == [Proceed, Checked(false, Some(LATE_STATUS), 1, Returned), Proceed, Proceed,
           Fault(0, false, true, false)];
    var c2 := c1[1..];
    assert c2 == [Checked(false, Some(LATE_STATUS), 1, Returned), Proceed, Proceed, Fault(0, false, true, false)];
    assert c2[1..] == [Proceed, Proceed, Fault(0, false, true, false)];
    assert m.disk.status.None? && m.disk.staging == {};
    hide Renderable, WellPlanned;
  }

  lemma LateRollbackIsCut(p: Plan, m: Machine)
    requires WellPlanned(p) && IsKeyedProvision(p)
    requires m.disk == ProvisionedDisk(p).(status := Some(LATE_STATUS), journal := Some(VerifyingRecord(p)))
    requires m.local == VerifyingRecord(p) && m.choices == [Proceed, Proceed, Fault(0, false, true, false)]
    ensures RollbackApi(m).Crashed? && RollbackApi(m).m.disk == HalfRolledBack(p) && RollbackApi(m).m.notes == m.notes
  {
    assert m.choices[1..] == [Proceed, Fault(0, false, true, false)];
    assert m.choices[1..][1..] == [Fault(0, false, true, false)];
    assert m.disk.staging == {} && m.disk.configPrevious == Some(p.before.config);
    var f := RollbackConfig(m);
    assert f == Go(m.(disk := m.disk.(config := p.before.config), choices := [Fault(0, false, true, false)]));
    hide RollbackConfig, WellPlanned;
  }

  lemma LateApply(p: Plan, m: Machine, req: ApiRequest)
    requires ArtifactsClear(m.disk) && PlanApi(req, m.disk) == Ok(p) && IsKeyedProvision(p)
    requires m == Fresh(m.disk, LateChoices(p), p)
    ensures var f := ApplyApi(m, req);
            f.Crashed? && f.m.disk == HalfRolledBack(p) && f.m.notes == {LateHealth}
  {
    hide StageSettings, InstallCredential, Activate, Prove, RollbackApi, Keyed, WellPlanned;
    PlansAreWellFormed(req, false, m.disk);
    var afterInstall := CalmThen(2, LATE_THEN_CUT);
    var afterStaging := CalmThen(3, afterInstall);
    var afterAttempt := CalmThen(StagingCount(p), afterStaging);
    CalmRemoval(m, m.disk, m.disk, 1, afterAttempt);
    var m1 := Attempt(m).m;
    CalmStaging(p, m1, afterStaging);
    var m2 := StageSettings(m1, p).m;
    CalmInstall(p, m2, afterInstall);
    var m3 := InstallCredential(m2, p).m;
    CalmProvision(p, m3, LATE_THEN_CUT);
    var m4 := Activate(m3, p).m;
    LateVerification(p, m4);
    var m5 := Prove(m4).m;
    LateRollbackIsCut(p, m5);
    hide Attempt, HalfRolledBack, IsKeyedProvision, CalmThen, PlanApi;
  }

  /** Recovery first sees a record being verified. */
  lemma LateRecoveryVerifies(m: Machine, j: SetupJournal)
    requires m.choices == LateRecovery() && m.disk.staging == {} && m.disk.journal == Some(j)
    requires j.phase.Verifying? && j.verifyStarted > 0 && !j.operation.StaticRestore?
    ensures Recover(m) == RecoverVerifying(m.(choices := AfterThreeDiscards(), local := j))
  {
    hide RecoverVerifying, RecoverJournal, AfterThreeDiscards, DiscardStaging;
    CalmDiscards(m, AfterThreeDiscards());
    var n := m.(choices := AfterThreeDiscards());
    assert Recover(m) == RecoverJournal(n);
    VerifyingIsRecovered(n, j);
  }

  lemma VerifyingIsRecovered(m: Machine, j: SetupJournal)
    requires m.disk.journal == Some(j)
    requires j.phase.Verifying? && j.verifyStarted > 0 && !j.operation.StaticRestore?
    ensures RecoverJournal(m) == RecoverVerifying(m.(local := j))
  {
    hide RecoverVerifying;
  }

  /** The late status then reads as fresh. */
  lemma LateStatusIsTaken(m: Machine)
    requires m.choices == AfterThreeDiscards() && m.disk.status == Some(LATE_STATUS)
    requires m.local.verifyStarted == 1 && m.local.statusBeforeDev == 0
    ensures RecoverVerifying(m)
            == FinalizeVerified(m.(choices := CalmThen(4, []), notes := m.notes + {Proved}))
  {
    hide FinalizeVerified, CalmThen;
    assert m.choices[1..] == CalmThen(4, []);
  }

  lemma LateRecoveryCommits(p: Plan, m: Machine)
    requires WellPlanned(p) && IsKeyedProvision(p)
    requires m.disk == HalfRolledBack(p) && m.choices == LateRecovery()
    ensures var f := Recover(m);
            f.Go? && f.m.disk.config == p.before.config && f.m.disk.credential == Some(p.key.key)
  {
    hide Recover, RecoverVerifying, FinalizeVerified, CalmThen, LateRecovery, AfterThreeDiscards, Renderable;
    RecordsRender(p);
    assert m.disk.staging == {};
    LateRecoveryVerifies(m, VerifyingRecord(p));
    var k := m.(choices := AfterThreeDiscards(), local := VerifyingRecord(p));
    LateStatusIsTaken(k);
    CalmFinalize(k.(choices := CalmThen(4, []), notes := k.notes + {Proved}));
  }

  /** Without that assumption atomicity fails even for a plan that is not exposable: a provision with a new key whose
      check fails, writes a healthy status all the same, and is cut while it is being rolled back ends with the
      old settings and the new key. */
  lemma LateHealthMixes(disk: Disk, req: ApiRequest)
    requires ArtifactsClear(disk) && PlanApi(req, disk).Ok? && IsKeyedProvision(PlanApi(req, disk).value)
    ensures var p := PlanApi(req, disk).value;
            !Exposable(p)
            && exists choices, sessions ::
                 var f := ApiRun(disk, req, choices, sessions);
                 f.Go? && LateHealth in f.m.notes && !IsSettled(p, f.m.disk)
  {
    hide ApplyApi, Recover, LateChoices, WellPlanned;
    var p := PlanApi(req, disk).value;
    PlansAreWellFormed(req, false, disk);
    var choices, sessions := LateChoices(p), [LateRecovery()];
    var m := Fresh(disk, choices, p);
    LateApply(p, m, req);
    var cut := ApplyApi(m, req).m;
    LateRecoveryCommits(p, cut.(choices := LateRecovery()));
    RecoverNotes(cut.(choices := LateRecovery()));
    var f := ApiRun(disk, req, choices, sessions);
    assert f == Recoveries(cut, sessions) == Recover(cut.(choices := LateRecovery()));
    assert p.before == disk;
    assert f.m.disk.config.source == Static;
    assert !IsSettled(p, f.m.disk);
    hide PlanApi;
  }
}
