/** A setup process working on its files in place, statement by statement as the program does. Each
    method is tied to the function of `SetupMachine` that says what it does to the files. */
module SetupSession {
  import opened Wrappers
  import opened SetupJournals
  import opened SetupMachine
  import Spec = SetupMachine
  import Clearance = SetupClearance
  import Invariant = SetupInvariant
  import Bounds = SetupBounds
  import Apply = SetupApply
  import Runs = SetupRuns
  import History = SetupHistory
  import opened SetupPrediction

  /** How a call came back: normally, with an error, or never, because the process was cut. */
  datatype Outcome = Completed | Failed | Cut
  {
    predicate IsFailure() { !Completed? }
    function PropagateFailure(): Outcome
      requires !Completed?
    {
      this
    }
  }

  function Report(outcome: Outcome, m: Machine): Flow {
    match outcome
    case Completed => Go(m)
    case Failed => Raised(m)
    case Cut => Crashed(m)
  }

  class SetupProcess {
    var config: Config
    var credential: Option<Key>
    var profile: Option<Profile>
    var preManaged: Option<Profile>
    var status: Option<Status>
    var journal: Option<SetupJournal>
    var configPrevious: Option<Config>
    var credentialPrevious: Option<Key>
    var staging: set<Entry>
    var local: SetupJournal
    var choices: seq<Choice>
    ghost var notes: set<Note>
    ghost var recorded: seq<Phase>

    ghost function Files(): Disk
      reads this
    {
      Disk(config, credential, profile, preManaged, status, journal, configPrevious,
           credentialPrevious, staging)
    }

    ghost function State(): Machine
      reads this
    {
      Machine(Files(), choices, local, notes, recorded)
    }

    constructor (disk: Disk, choices: seq<Choice>, local: SetupJournal)
      ensures State() == Machine(disk, choices, local, {}, [])
    {
      config, credential, profile, preManaged := disk.config, disk.credential, disk.profile, disk.preManaged;
      status, journal := disk.status, disk.journal;
      configPrevious, credentialPrevious := disk.configPrevious, disk.credentialPrevious;
      staging := disk.staging;
      this.local, this.choices := local, choices;
      notes, recorded := {}, [];
    }

    /** The environment's answer to the next operation. */
    method Next() returns (c: Choice)
      modifies this`choices
      ensures c == Pending(old(State())) && State() == Consume(old(State()))
    {
      c := Proceed;
      if choices != [] {
        c := choices[0];
        choices := choices[1..];
      }
    }

    /** An error, or a crash that may take the runtime directory with it. */
    method Stop(c: Choice) returns (r: Outcome)
      requires c.Fault?
      modifies this`status
      ensures Report(r, State()) == Halt(old(State()), old(Files()), c)
    {
      if !c.crash {
        return Failed;
      }
      if c.statusLost {
        status := None;
      }
      return Cut;
    }

    // ---------------------------------------------------- durable operations

    method WriteConfig(value: Config) returns (r: Outcome)
      modifies this
      ensures Report(r, State()) == Spec.WriteConfig(old(State()), value)
    {
      if ConfigStaging in staging {
        return Failed;
      }
      var c := Next();
      if !c.Fault? || c.progress > 0 {
        config := value;
      } else if c.litter {
        staging := staging + {ConfigStaging};
      }
      r := Completed;
      if c.Fault? {
        r := Stop(c);
      }
    }

    method WriteCredential(key: Key) returns (r: Outcome)
      modifies this
      ensures Report(r, State()) == Spec.WriteCredential(old(State()), key)
    {
      if CredentialStaging in staging {
        return Failed;
      }
      var c := Next();
      if !c.Fault? || c.progress > 0 {
        credential := Some(key);
      } else if c.litter {
        staging := staging + {CredentialStaging};
      }
      r := Completed;
      if c.Fault? {
        r := Stop(c);
      }
    }

    method PersistJournal(j: SetupJournal) returns (r: Outcome)
      modifies this
      ensures Report(r, State()) == Spec.PersistJournal(old(State()), j)
    {
      if !Renderable(j) || JournalStaging in staging {
        return Failed;
      }
      var c := Next();
      if !c.Fault? || c.progress > 0 {
        journal := Some(j);
      } else if c.litter {
        staging := staging + {JournalStaging};
      }
      r := Completed;
      if c.Fault? {
        r := Stop(c);
      } else {
        recorded := recorded + [j.phase];
      }
    }

    method SnapshotConfig() returns (r: Outcome)
      modifies this
      ensures Report(r, State()) == Spec.SnapshotConfig(old(State()))
    {
      if configPrevious.Some? {
        return Failed;
      }
      var c := Next();
      if !c.Fault? || c.progress > 0 {
        configPrevious := Some(config);
      }
      staging := if c.Fault? && c.litter then staging + {ConfigSnapshotStaging}
                 else staging - {ConfigSnapshotStaging};
      r := Completed;
      if c.Fault? {
        r := Stop(c);
      }
    }

    method SnapshotCredential() returns (r: Outcome)
      modifies this
      ensures Report(r, State()) == Spec.SnapshotCredential(old(State()))
    {
      if credentialPrevious.Some? || credential.None? {
        return Failed;
      }
      var c := Next();
      if !c.Fault? || c.progress > 0 {
        credentialPrevious := credential;
      }
      staging := if c.Fault? && c.litter then staging + {CredentialSnapshotStaging}
                 else staging - {CredentialSnapshotStaging};
      r := Completed;
      if c.Fault? {
        r := Stop(c);
      }
    }

    method UnlinkConfigPrevious() returns (r: Outcome)
      modifies this
      ensures Report(r, State()) == Spec.UnlinkConfigPrevious(old(State()))
    {
      var c := Next();
      if !c.Fault? || c.progress >= 1 {
        staging := staging - {ConfigSnapshotStaging};
      }
      if !c.Fault? || c.progress >= 2 {
        configPrevious := None;
      }
      r := Completed;
      if c.Fault? {
        r := Stop(c);
      }
    }

    method UnlinkCredentialPrevious() returns (r: Outcome)
      modifies this
      ensures Report(r, State()) == Spec.UnlinkCredentialPrevious(old(State()))
    {
      var c := Next();
      if !c.Fault? || c.progress >= 1 {
        staging := staging - {CredentialSnapshotStaging};
      }
      if !c.Fault? || c.progress >= 2 {
        credentialPrevious := None;
      }
      r := Completed;
      if c.Fault? {
        r := Stop(c);
      }
    }

    method UnlinkJournal() returns (r: Outcome)
      modifies this
      ensures Report(r, State()) == Spec.UnlinkJournal(old(State()))
    {
      var c := Next();
      if !c.Fault? || c.progress >= 1 {
        journal := None;
      }
      r := Completed;
      if c.Fault? {
        r := Stop(c);
      }
    }

    method UnlinkCredential() returns (r: Outcome)
      modifies this
      ensures Report(r, State()) == Spec.UnlinkCredential(old(State()))
    {
      var c := Next();
      if !c.Fault? || c.progress >= 1 {
        credential := None;
      }
      r := Completed;
      if c.Fault? {
        r := Stop(c);
      }
    }

    method UnlinkPreManaged() returns (r: Outcome)
      modifies this
      ensures Report(r, State()) == Spec.UnlinkPreManaged(old(State()))
    {
      var c := Next();
      if !c.Fault? || c.progress >= 1 {
        preManaged := None;
      }
      r := Completed;
      if c.Fault? {
        r := Stop(c);
      }
    }

    method DiscardStaging(entry: Entry) returns (r: Outcome)
      modifies this
      ensures Report(r, State()) == Spec.DiscardStaging(old(State()), entry)
    {
      var c := Next();
      if !c.Fault? || c.progress >= 1 {
        staging := staging - {entry};
      }
      r := Completed;
      if c.Fault? {
        r := Stop(c);
      }
    }

    method Attempt() returns (r: Outcome)
      modifies this
      ensures Report(r, State()) == Spec.Attempt(old(State()))
    {
      var c := Next();
      r := Completed;
      if c.Fault? {
        r := Stop(c);
      }
    }

    /** A runtime command: its profile half, then its configuration half, or for a restore the other way round. */
    method RunCommand(command: Command) returns (r: Outcome)
      modifies this
      ensures Report(r, State()) == Spec.RunCommand(old(State()), command)
    {
      if CommandRefused(Disk(config, credential, profile, preManaged, status, journal, configPrevious,
                             credentialPrevious, staging), command) {
        return Failed;
      }
      var c := Next();
      if SourceGoesFirst(c, command) {
        if c.progress >= 1 {
          config := config.(source := Static);
        }
        if c.progress >= 2 {
          profile := preManaged;
        }
        r := Stop(c);
        return;
      }
      if !c.Fault? || c.progress >= 1 {
        match command
        case RunProvision(generated) => profile := Some(generated);
        case RunAdopt =>
          if preManaged.None? {
            preManaged := profile;
          }
        case RunRestoreStatic =>
          profile := preManaged;
      }
      if !c.Fault? || c.progress >= 2 {
        config := config.(source := if command.RunRestoreStatic? then Static else Api);
      }
      r := Completed;
      if c.Fault? {
        r := Stop(c);
      }
    }

    method RestoreConfig() returns (r: Outcome)
      modifies this
      ensures Report(r, State()) == Spec.RestoreConfig(old(State()))
    {
      if configPrevious.None? {
        return Failed;
      }
      :- DiscardStaging(ConfigSnapshotStaging);
      r := WriteConfig(configPrevious.value);
    }

    method RestoreCredential() returns (r: Outcome)
      modifies this
      ensures Report(r, State()) == Spec.RestoreCredential(old(State()))
    {
      if credentialPrevious.None? {
        return Failed;
      }
      :- DiscardStaging(CredentialSnapshotStaging);
      r := WriteCredential(credentialPrevious.value);
    }

    // ------------------------------------------------------ health proof

    method BeginProof() returns (r: Outcome)
      modifies this
      ensures Report(r, State()) == Spec.BeginProof(old(State()))
    {
      var c := Next();
      if c.Fault? {
        r := Stop(c);
        return;
      }
      if !c.Clock? {
        return Failed;
      }
      var dev: nat, ino: nat := 0, 0;
      if status.Some? {
        dev, ino := status.value.dev, status.value.ino;
      }
      var verifying := VerifyingOf(local, c.now, dev, ino);
      :- PersistJournal(verifying);
      local := verifying;
      r := Completed;
    }

    method VerifyHealth() returns (r: Outcome)
      modifies this
      ensures Report(r, State()) == Spec.VerifyHealth(old(State()))
    {
      var c := Next();
      if c.Fault? && c.crash {
        r := Stop(c);
        return;
      }
      if c.Checked? {
        if c.written.Some? {
          status := c.written;
        }
        if c.ended.Died? {
          return Cut;
        }
        if c.rc0 && c.ended.Returned? && IsFresh(local, status, c.finished) {
          notes := notes + {Proved};
          return Completed;
        }
      }
      if CouldBeFresh(local, status) {
        notes := notes + {LateHealth};
      }
      return Failed;
    }

    // ------------------------------------------------ cleanup and rollback

    method Cleanup() returns (r: Outcome)
      modifies this
      ensures Report(r, State()) == Spec.Cleanup(old(State()))
    {
      r := UnlinkConfigPrevious();
      :- r;
      r := UnlinkCredentialPrevious();
      :- r;
      r := UnlinkJournal();
    }

    method FinalizeVerified() returns (r: Outcome)
      modifies this
      ensures Report(r, State()) == Spec.FinalizeVerified(old(State()))
    {
      var verified := VerifiedOf(local);
      :- PersistJournal(verified);
      r := Cleanup();
    }

    method RollbackConfig() returns (r: Outcome)
      modifies this
      ensures Report(r, State()) == Spec.RollbackConfig(old(State()))
    {
      r := Completed;
      if configPrevious.Some? {
        r := RestoreConfig();
      } else if !local.phase.Prepared? {
        notes := notes + {Inspection};
        return Failed;
      }
    }

    method RollbackCredential() returns (r: Outcome)
      modifies this
      ensures Report(r, State()) == Spec.RollbackCredential(old(State()))
    {
      r := Completed;
      if local.keyChanged {
        if !local.hadKey {
          r := UnlinkCredential();
        } else if credentialPrevious.Some? {
          r := RestoreCredential();
        } else if !local.phase.Prepared? {
          notes := notes + {Inspection};
          return Failed;
        }
      } else if credentialPrevious.Some? {
        notes := notes + {Inspection};
        return Failed;
      }
    }

    /** `_rollback_api`. */
    method RollbackApi() returns (r: Outcome)
      modifies this
      ensures Report(r, State()) == Spec.RollbackApi(old(State()))
    {
      hide Spec.UndoAdoption, Spec.RollbackConfig, Spec.RollbackCredential, Spec.ForgetAdoption,
        Spec.PersistJournal, Spec.Cleanup;
      if IsExposed(State()) {
        notes := notes + {ExposedRollback};
      }
      :- UndoAdoption();
      :- RollbackConfig();
      :- RollbackCredential();
      :- ForgetAdoption();
      :- PersistJournal(RolledBackOf(local));
      r := Cleanup();
    }

    method UndoAdoption() returns (r: Outcome)
      modifies this
      ensures Report(r, State()) == Spec.UndoAdoption(old(State()))
    {
      r := Completed;
      if local.operation.Adopt? && !local.hadPreManaged && preManaged.Some? {
        r := RunCommand(RunRestoreStatic);
      }
    }

    method ForgetAdoption() returns (r: Outcome)
      modifies this
      ensures Report(r, State()) == Spec.ForgetAdoption(old(State()))
    {
      r := Completed;
      if local.operation.Adopt? && !local.hadPreManaged {
        r := UnlinkPreManaged();
      }
    }

    /** `_rollback_static`. */
    method RollbackStatic() returns (r: Outcome)
      modifies this
      ensures Report(r, State()) == Spec.RollbackStatic(old(State()))
    {
      hide Spec.RollbackConfig, Spec.PersistJournal, Spec.Cleanup;
      :- RollbackConfig();
      :- PersistJournal(RolledBackOf(local));
      r := Cleanup();
    }

    method RollbackByOperation() returns (r: Outcome)
      modifies this
      ensures Report(r, State()) == Spec.RollbackByOperation(old(State()))
    {
      hide Spec.RollbackApi, Spec.RollbackStatic;
      if local.operation.IsApi() {
        r := RollbackApi();
      } else {
        r := RollbackStatic();
      }
    }

    // ----------------------------------------------------------- recovery

    /** `_recover_setup_transaction`. From any files a transaction can have left, whatever cuts this
        call leaves such files again, and a normal return leaves nothing of the transaction and
        every file on one side. */
    method Recover() returns (r: Outcome)
      modifies this
      ensures Report(r, State()) == Spec.Recover(old(State()))
      ensures r.Completed? ==> ArtifactsClear(Files())
      ensures forall p :: old(Invariant.WellPlanned(p) && Bounds.Kept(p, Files()) && Invariant.Safe(p, State())) ==>
        Bounds.Kept(p, Files()) && Invariant.Safe(p, State())
        && (r.Completed? && !Invariant.Excused(notes) ==> Invariant.IsJustified(p, Files(), notes))
    {
      ghost var entry := State();
      Clearance.RecoverClears(entry);
      hide Spec.DiscardStaging, Spec.RecoverJournal, Invariant.Safe, Invariant.IsJustified, Bounds.Kept,
        Invariant.WellPlanned;
      forall p | Invariant.WellPlanned(p) && Bounds.Kept(p, entry.disk) && Invariant.Safe(p, entry)
        ensures Runs.Settles(p, entry, Spec.Recover(entry))
      {
        Runs.RecoverFits(p, entry);
      }
      :- DiscardStaging(JournalStaging);
      :- DiscardStaging(ConfigStaging);
      :- DiscardStaging(CredentialStaging);
      if journal.Some? {
        r := RecoverJournal();
      } else if configPrevious.None? && credentialPrevious.None? && staging == {} {
        r := Completed;
      } else {
        notes := notes + {Inspection};
        r := Failed;
      }
    }

    method RecoverJournal() returns (r: Outcome)
      requires journal.Some?
      modifies this
      ensures Report(r, State()) == Spec.RecoverJournal(old(State()))
    {
      hide Spec.Cleanup, Spec.RecoverVerifying, Spec.RecoverActivated, Spec.RollbackByOperation;
      local := journal.value;
      if local.phase.Verified? || local.phase.RolledBack? {
        r := Cleanup();
        return;
      }
      if local.operation.StaticRestore? && !local.phase.Prepared? {
        if config.source == Static && (profile.None? || preManaged.None?) {
          return Failed;
        }
        if config.source == Static && profile == preManaged {
          r := Cleanup();
          return;
        }
      }
      if local.phase.Verifying? && local.verifyStarted > 0 {
        r := RecoverVerifying();
      } else if local.phase.Activated? && (local.operation.ApiUpdate? || local.operation.StaticSwitch?) {
        r := RecoverActivated();
      } else {
        r := RollbackByOperation();
      }
    }

    method RecoverVerifying() returns (r: Outcome)
      modifies this
      ensures Report(r, State()) == Spec.RecoverVerifying(old(State()))
    {
      hide Spec.FinalizeVerified, Spec.RollbackByOperation;
      var c := Next();
      if c.Fault? {
        r := Stop(c);
      } else if c.Clock? && IsFresh(local, status, c.now) {
        notes := notes + {Proved};
        r := FinalizeVerified();
      } else {
        if CouldBeFresh(local, status) {
          notes := notes + {LateHealth};
        }
        r := RollbackByOperation();
      }
    }

    method RecoverActivated() returns (r: Outcome)
      modifies this
      ensures Report(r, State()) == Spec.RecoverActivated(old(State()))
    {
      hide Spec.BeginProof, Spec.VerifyHealth, Spec.FinalizeVerified, Spec.RollbackByOperation;
      :- BeginProof();
      r := VerifyHealth();
      if r.Completed? {
        r := FinalizeVerified();
      } else if r.Failed? {
        r := RollbackByOperation();
      }
    }

    // ------------------------------------------------------ applying setup

    method Advance(phase: Phase) returns (r: Outcome)
      modifies this
      ensures Report(r, State()) == Spec.Advance(old(State()), phase)
    {
      local := local.(phase := phase);
      r := PersistJournal(local);
    }

    method Prove() returns (r: Outcome)
      modifies this
      ensures Report(r, State()) == Spec.Prove(old(State()))
    {
      hide Spec.BeginProof, Spec.VerifyHealth;
      :- BeginProof();
      r := VerifyHealth();
    }

    /** The protected part of `_apply_api`, up to a proved activation. */
    method ApiForward(p: Plan) returns (r: Outcome)
      modifies this
      ensures Report(r, State()) == Spec.ApiForward(old(State()), p)
    {
      hide Spec.StageSettings, Spec.InstallCredential, Spec.Activate, Spec.Prove;
      :- StageSettings(p);
      :- InstallCredential(p);
      :- Activate(p);
      r := Prove();
    }

    method StageSettings(p: Plan) returns (r: Outcome)
      modifies this
      ensures Report(r, State()) == Spec.StageSettings(old(State()), p)
    {
      hide Spec.PersistJournal, Spec.SnapshotConfig, Spec.SnapshotCredential, Spec.WriteConfig, Spec.Advance;
      :- PersistJournal(local);
      :- SnapshotConfig();
      if p.key.changed && p.key.had {
        :- SnapshotCredential();
      }
      :- WriteConfig(p.config);
      r := Advance(ConfigWritten);
    }

    method InstallCredential(p: Plan) returns (r: Outcome)
      modifies this
      ensures Report(r, State()) == Spec.InstallCredential(old(State()), p)
    {
      hide Spec.WriteCredential, Spec.Advance, Spec.Attempt;
      r := Completed;
      if p.key.changed {
        :- WriteCredential(p.key.key);
        :- Advance(CredentialWritten);
        r := Attempt();
      }
    }

    method Activate(p: Plan) returns (r: Outcome)
      modifies this
      ensures Report(r, State()) == Spec.Activate(old(State()), p)
    {
      hide Spec.RunCommand, Spec.Advance;
      if !p.operation.ApiUpdate? {
        :- RunCommand(if p.operation.Adopt? then RunAdopt else RunProvision(p.generated));
      }
      r := Advance(Activated);
    }

    /** `_apply_api`. From clear files, whatever cuts this call leaves files recovery can settle, and
        a normal return has activated the whole plan under a fresh proof. */
    method ApplyApi(req: ApiRequest) returns (r: Outcome)
      modifies this
      ensures Report(r, State()) == Spec.ApplyApi(old(State()), req)
      ensures old(ArtifactsClear(Files()) && PlanApi(req, Files()).Ok?) ==>
        var p := old(PlanApi(req, Files()).value);
        Bounds.Kept(p, Files()) && Invariant.Safe(p, State())
        && (r.Completed? ==> ArtifactsClear(Files()) && Invariant.IsActivated(p, Files()) && Proved in notes)
    {
      ghost var entry := State();
      if ArtifactsClear(entry.disk) && PlanApi(req, entry.disk).Ok? {
        Apply.ApplyApiStaysSafe(entry, req, PlanApi(req, entry.disk).value);
      }
      hide PlanApi, Spec.Attempt, Spec.ApiForward, Spec.FinalizeVerified, Spec.RollbackApi,
        Invariant.Safe, Invariant.IsActivated, Bounds.Kept;
      var plan := PlanApi(req, Disk(config, credential, profile, preManaged, status, journal,
                                    configPrevious, credentialPrevious, staging));
      if plan.Err? {
        return Failed;
      }
      :- Attempt();
      local := PreparedJournal(plan.value);
      r := ApiForward(plan.value);
      if r.Completed? {
        r := FinalizeVerified();
      } else if r.Failed? && journal.Some? {
        r := RollbackApi();
        r := if r.Cut? then Cut else Failed;
      }
    }

    method StaticBody(p: Plan) returns (r: Outcome)
      modifies this
      ensures Report(r, State()) == Spec.StaticBody(old(State()), p)
    {
      hide Spec.PersistJournal, Spec.SnapshotConfig, Spec.WriteConfig, Spec.Advance, Spec.RunCommand;
      :- PersistJournal(local);
      :- SnapshotConfig();
      if p.operation.StaticRestore? {
        :- Advance(Activating);
        r := RunCommand(RunRestoreStatic);
      } else {
        r := WriteConfig(p.config);
      }
    }

    method StaticProof() returns (r: Outcome)
      modifies this
      ensures Report(r, State()) == Spec.StaticProof(old(State()))
    {
      hide Spec.Advance, Spec.Prove;
      :- Advance(Activated);
      r := Prove();
    }

    /** `_apply_static`. */
    method ApplyStatic(restore: bool) returns (r: Outcome)
      modifies this
      ensures Report(r, State()) == Spec.ApplyStatic(old(State()), restore)
      ensures old(ArtifactsClear(Files())) ==>
        var p := PlanStatic(restore, old(Files()));
        Bounds.Kept(p, Files()) && Invariant.Safe(p, State())
        && (r.Completed? ==> ArtifactsClear(Files()) && Invariant.IsActivated(p, Files()) && Proved in notes)
    {
      hide PlanStatic, Spec.StaticBody, Spec.StaticProof, Spec.FinalizeVerified, Spec.RollbackStatic, Spec.Cleanup,
        Invariant.Safe, Invariant.IsActivated, Bounds.Kept;
      ghost var entry := State();
      if ArtifactsClear(entry.disk) {
        Apply.ApplyStaticStaysSafe(entry, restore, PlanStatic(restore, entry.disk));
      }
      var p := PlanStatic(restore, Disk(config, credential, profile, preManaged, status, journal,
                                        configPrevious, credentialPrevious, staging));
      local := PreparedJournal(p);
      var restoreCommitted := false;
      r := StaticBody(p);
      if r.Completed? {
        restoreCommitted := restore;
        r := StaticProof();
        if r.Completed? {
          r := FinalizeVerified();
          return;
        }
      }
      if r.Failed? && restoreCommitted {
        r := Cleanup();
        r := if r.Cut? then Cut else Failed;
      } else if r.Failed? && journal.Some? {
        r := RollbackStatic();
        r := if r.Cut? then Cut else Failed;
      }
    }

    /** `apply_setup_request`: settle what an earlier setup left, then apply the request. Nothing new
        begins before the earlier transaction is settled. */
    method ApplySetupRequest(request: History.Request) returns (r: Outcome)
      modifies this
      ensures Report(r, State()) == History.ApplySetup(old(State()), request)
      ensures old(History.LeftBySome(Files())) ==> History.Continues(old(State()), Report(r, State()))
      ensures old(History.LeftBySome(Files())) && r.Completed? ==>
        ArtifactsClear(Files()) && History.InForce(request, Files())
    {
      hide Spec.Attempt, Spec.Recover, Spec.ApplyApi, Spec.ApplyStatic, PrecheckPasses, History.InForce,
        History.Continues, History.LeftBySome;
      ghost var entry := State();
      if History.LeftBySome(entry.disk) {
        History.SetupContinues(entry, request);
      }
      var recovering := journal.Some?;
      if request.ApiMode? && !recovering {
        var passes := PrecheckCredential(request.api, false);
        if !passes {
          return Failed;
        }
      }
      r := Attempt();
      if !r.Completed? {
        return;
      }
      :- Recover();
      if request.ApiMode? {
        var passes := PrecheckCredential(request.api, recovering);
        if !passes {
          return Failed;
        }
        r := ApplyApi(request.api.(allowMatching := recovering));
      } else {
        r := ApplyStatic(request.restore);
      }
    }

    /** `precheck_api_credential`. */
    method PrecheckCredential(req: ApiRequest, allowMatching: bool) returns (passes: bool)
      ensures passes == PrecheckPasses(Files(), req.supplied, req.replace, allowMatching)
    {
      if config.source.Api? && credential.Some? {
        if req.supplied.Some? && !req.replace && (!allowMatching || req.supplied != credential) {
          return false;
        }
        return !(req.replace && req.supplied.None?);
      }
      if req.supplied.None? {
        return false;
      }
      return !(req.replace && credential.None?);
    }
  }
}
