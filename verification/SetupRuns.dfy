/** Whole runs: an apply cut anywhere, then any number of recoveries, each cut anywhere, until one
    completes. */
module SetupRuns {
  import opened Wrappers
  import opened SetupJournals
  import opened SetupMachine
  import opened SetupClearance
  import opened SetupInvariant
  import opened SetupBounds
  import opened SetupApply

  // ------------------------------------------------------ crash atomicity

  /** Later processes, each with its own choices, until one recovery completes. */
  function Recoveries(m: Machine, sessions: seq<seq<Choice>>): Flow
    decreases |sessions|
  {
    if sessions == [] then Crashed(m)
    else
      match Recover(m.(choices := sessions[0]))
      case Go(m) => Go(m)
      case halted => Recoveries(halted.m, sessions[1..])
  }

  /** An apply and, unless it completes, the recoveries after it. */
  function ApiRun(disk: Disk, req: ApiRequest, choices: seq<Choice>, sessions: seq<seq<Choice>>): Flow
    requires ArtifactsClear(disk) && PlanApi(req, disk).Ok?
  {
    match ApplyApi(Fresh(disk, choices, PlanApi(req, disk).value), req)
    case Go(m) => Go(m)
    case halted => Recoveries(halted.m, sessions)
  }

  function StaticRun(disk: Disk, restore: bool, choices: seq<Choice>, sessions: seq<seq<Choice>>): Flow {
    match ApplyStatic(Fresh(disk, choices, PlanStatic(restore, disk)), restore)
    case Go(m) => Go(m)
    case halted => Recoveries(halted.m, sessions)
  }

  function Fresh(disk: Disk, choices: seq<Choice>, p: Plan): Machine {
    Machine(disk, choices, PreparedJournal(p), {}, [])
  }

  /** What holds wherever a run stops: the bounds, with nothing to inspect; and, when it completes, clear
      directories and, in runs that are not excused, every file on one justified side. */
  ghost predicate Settles(p: Plan, m: Machine, f: Flow) {
    && Keeps(p, m, f) && StaysSafe(p, m, f)
    && (f.Go? ==> ArtifactsClear(f.m.disk))
    && (f.Go? && !Excused(f.m.notes) ==> IsJustified(p, f.m.disk, f.m.notes))
  }

  lemma {:induction false} RecoveriesStaySafe(p: Plan, m: Machine, sessions: seq<seq<Choice>>)
    decreases |sessions|
    requires WellPlanned(p) && Kept(p, m.disk) && Safe(p, m)
    ensures Settles(p, m, Recoveries(m, sessions))
  {
    if sessions != [] {
      var n := m.(choices := sessions[0]);
      RecoverFits(p, n);
      var f := Recover(n);
      if !f.Go? {
        RecoveriesStaySafe(p, f.m, sessions[1..]);
      }
    }
    hide Recover, Inv, IsJustified, Kept;
  }

  lemma RollbackNotes(m: Machine)
    requires !IsExposed(m)
    ensures m.notes <= RollbackByOperation(m).m.notes <= m.notes + {Inspection}
  {
    RollbackApiNotes(m);
    RollbackStaticNotes(m);
    hide RollbackApi, RollbackStatic;
  }

  lemma RecoverVerifyingNotes(m: Machine)
    requires m.disk.journal.Some? && m.disk.journal.value.phase.Verifying?
    ensures m.notes <= RecoverVerifying(m).m.notes <= m.notes + {Proved, LateHealth, Inspection}
  {
    hide FinalizeVerified, RollbackByOperation;
    var u := Consume(m);
    FinalizeNotes(NoteProved(u));
    RollbackNotes(Unproved(u));
  }

  lemma ProofNotes(m: Machine)
    ensures BeginProof(m).m.notes == m.notes
    ensures var n := BeginProof(m).m;
            BeginProof(m).Go? ==> n.disk.journal == Some(n.local) && n.local.phase.Verifying?
    ensures m.notes <= VerifyHealth(m).m.notes <= m.notes + {Proved, LateHealth, Inspection}
    ensures VerifyHealth(m).m.disk.journal == m.disk.journal
  {
  }

  lemma RecoverActivatedNotes(m: Machine)
    ensures m.notes <= RecoverActivated(m).m.notes <= m.notes + {Proved, LateHealth, Inspection}
  {
    hide BeginProof, VerifyHealth, FinalizeVerified, RollbackByOperation;
    ProofNotes(m);
    var f1 := BeginProof(m);
    if f1.Go? {
      ProofNotes(f1.m);
      var f2 := VerifyHealth(f1.m);
      FinalizeNotes(f2.m);
      RollbackNotes(f2.m);
    }
  }

  /** Recovery itself never rolls an api-update back while its record says `activated`. */
  lemma RecoverJournalNotes(m: Machine)
    requires m.disk.journal.Some?
    ensures m.notes <= RecoverJournal(m).m.notes <= m.notes + {Proved, LateHealth, Inspection}
  {
    hide Cleanup, RollbackByOperation, RecoverVerifying, RecoverActivated;
    var j := m.disk.journal.value;
    var n := m.(local := j);
    CleanupNotes(n);
    if j.phase.Verifying? {
      RecoverVerifyingNotes(n);
    }
    RecoverActivatedNotes(n);
    if !IsExposed(n) {
      RollbackNotes(n);
    }
  }

  lemma RecoverNotes(m: Machine)
    ensures m.notes <= Recover(m).m.notes <= m.notes + {Proved, LateHealth, Inspection}
  {
    var f := DiscardPrivate(m);
    assert f.m.notes == m.notes;
    if f.Go? && f.m.disk.journal.Some? {
      RecoverJournalNotes(f.m);
    }
    hide RecoverJournal;
  }

  /** Recovery from any state within bounds, excused or not. */
  lemma RecoverFits(p: Plan, m: Machine)
    requires WellPlanned(p) && Kept(p, m.disk) && Safe(p, m)
    ensures Settles(p, m, Recover(m))
  {
    hide Recover, Inv, IsJustified, Kept;
    RecoverKeepsBounds(p, m);
    RecoverClears(m);
    RecoverNotes(m);
    if !Excused(m.notes) {
      RecoverStaysSafe(p, m);
    }
  }

  lemma ApiRunSettles(disk: Disk, req: ApiRequest, choices: seq<Choice>, sessions: seq<seq<Choice>>)
    requires ArtifactsClear(disk) && PlanApi(req, disk).Ok?
    ensures var p := PlanApi(req, disk).value;
            WellPlanned(p) && Settles(p, Fresh(disk, choices, p), ApiRun(disk, req, choices, sessions))
  {
    var p := PlanApi(req, disk).value;
    PlansAreWellFormed(req, false, disk);
    var m := Fresh(disk, choices, p);
    ApplyApiStaysSafe(m, req, p);
    var f := ApplyApi(m, req);
    ActivatedIsJustified(p, f.m.disk, f.m.notes);
    if !f.Go? {
      RecoveriesStaySafe(p, f.m, sessions);
    }
    hide ApplyApi, Recoveries, Inv, IsActivated, IsRestored, IsJustified, PlanApi, WellPlanned, Exposable, Kept;
  }

  lemma ActivatedIsJustified(p: Plan, d: Disk, notes: set<Note>)
    ensures IsActivated(p, d) && Proved in notes ==> IsJustified(p, d, notes)
  {
  }

  lemma StaticRunSettles(disk: Disk, restore: bool, choices: seq<Choice>, sessions: seq<seq<Choice>>)
    requires ArtifactsClear(disk)
    ensures var p := PlanStatic(restore, disk);
            WellPlanned(p) && Settles(p, Fresh(disk, choices, p), StaticRun(disk, restore, choices, sessions))
  {
    var p := PlanStatic(restore, disk);
    PlansAreWellFormed(ApiRequest("", "", None, false, false, ""), restore, disk);
    var m := Fresh(disk, choices, p);
    ApplyStaticStaysSafe(m, restore, p);
    var f := ApplyStatic(m, restore);
    ActivatedIsJustified(p, f.m.disk, f.m.notes);
    if !f.Go? {
      RecoveriesStaySafe(p, f.m, sessions);
    }
    hide ApplyStatic, Recoveries, Inv, IsActivated, IsRestored, IsJustified, PlanStatic, WellPlanned, Exposable, Kept;
  }

  /** Crash atomicity of an API apply. However the apply and the recoveries after it are cut or fail,
      each file has its old or a planned value at every moment, and the first to complete leaves no
      record, snapshot or staging entry. All files are then on one side, the new one only after a fresh
      healthy status was read, in every run but two kinds: a failed verification whose status could still
      read as fresh later, and the rollback `ExactlyExposablePlansMix` characterises; that one can only
      leave old or new settings beside the old or the new key. */
  lemma ApiRunIsAtomic(disk: Disk, req: ApiRequest, choices: seq<Choice>, sessions: seq<seq<Choice>>)
    requires ArtifactsClear(disk) && PlanApi(req, disk).Ok?
    ensures var p := PlanApi(req, disk).value;
            var f := ApiRun(disk, req, choices, sessions);
            && FilesInBounds(p, f.m.disk)
            && (f.Go? ==> ArtifactsClear(f.m.disk))
            && (f.Go? && !Excused(f.m.notes) ==> IsJustified(p, f.m.disk, f.m.notes))
            && (ExposedRollback in f.m.notes ==>
                  && Exposable(p)
                  && f.m.disk.config in {disk.config, p.config}
                  && f.m.disk.credential in {disk.credential, Some(p.key.key)}
                  && f.m.disk.preManaged == disk.preManaged && f.m.disk.profile == disk.profile)
  {
    ApiRunSettles(disk, req, choices, sessions);
    var p := PlanApi(req, disk).value;
    assert p.before == disk;
    UpdateBounds(p, ApiRun(disk, req, choices, sessions).m.disk);
    hide ApiRun, PlanApi, Inv, IsJustified, WellPlanned;
  }

  /** An api-update changes the settings and the key, each as a whole, and nothing else. */
  lemma UpdateBounds(p: Plan, d: Disk)
    requires WellPlanned(p) && Kept(p, d)
    ensures p.operation.ApiUpdate? ==>
              && d.config in {p.before.config, p.config}
              && (d.credential == p.before.credential || (p.key.changed && d.credential == Some(p.key.key)))
              && d.preManaged == p.before.preManaged && d.profile == p.before.profile
  {
  }

  /** The same for a static apply, which has no exposed rollback at all. */
  lemma StaticRunIsAtomic(disk: Disk, restore: bool, choices: seq<Choice>, sessions: seq<seq<Choice>>)
    requires ArtifactsClear(disk)
    ensures var p := PlanStatic(restore, disk);
            var f := StaticRun(disk, restore, choices, sessions);
            && FilesInBounds(p, f.m.disk) && ExposedRollback !in f.m.notes
            && (f.Go? ==> ArtifactsClear(f.m.disk))
            && (f.Go? && LateHealth !in f.m.notes ==> IsJustified(p, f.m.disk, f.m.notes))
  {
    StaticRunSettles(disk, restore, choices, sessions);
    assert !Exposable(PlanStatic(restore, disk));
    hide StaticRun, PlanStatic, Inv, IsJustified, WellPlanned;
  }
}
