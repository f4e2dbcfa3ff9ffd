/** The setup transaction as one durable operation after another, each of which may succeed, report
    an error or be cut by a crash. What actually happens is read from a stream of choices, so a
    statement about every stream is a statement about every run. */
module SetupMachine {
  import opened Wrappers
  import opened SetupJournals

  // ------------------------------------------------------------ the disk

  datatype Source = Static | Api

  /** The health configuration: the three settings setup owns and every other line. */
  datatype Config = Config(source: Source, device: string, countries: string, rest: string)

  type Key = string
  type Profile = string
  type Inode = n: nat | n > 0 witness 1

  datatype Status = Status(dev: nat, ino: Inode, healthy: bool, stamp: nat)

  datatype Entry =
    | JournalStaging | ConfigStaging | CredentialStaging
    | ConfigSnapshotStaging | CredentialSnapshotStaging

  datatype Disk = Disk(
    config: Config,
    credential: Option<Key>,
    profile: Option<Profile>,
    preManaged: Option<Profile>,
    status: Option<Status>,
    journal: Option<SetupJournal>,
    configPrevious: Option<Config>,
    credentialPrevious: Option<Key>,
    staging: set<Entry>)

  // ------------------------------------------------------ faults and flow

  /** How the environment answers one operation. `Fault` performs `progress` sub-steps, may leave `litter`
      behind, a staging entry or a source rewritten ahead of its profile, and then either reports an error
      or, when `crash`, ends the process; a crash that takes the machine down also empties the runtime
      directory holding the status. */
  datatype Choice =
    | Proceed
    | Fault(progress: nat, litter: bool, crash: bool, statusLost: bool)
    | Clock(now: nat)
    | Checked(rc0: bool, written: Option<Status>, finished: nat, ended: CheckEnd)

  /** How the process was after its check: reading the status, aborted before that, or gone. */
  datatype CheckEnd = Returned | Aborted | Died

  /** What a run has shown so far. */
  datatype Note =
    | Proved          // a fresh healthy status was read
    | LateHealth      // a failed verification left a status that could still read as fresh
    | ExposedRollback // an api-update of both settings and key was rolled back while recorded as activated
    | Inspection      // a snapshot was missing or unexpected, or artifacts lay about without a record

  datatype Machine = Machine(
    disk: Disk,
    choices: seq<Choice>,
    local: SetupJournal,
    notes: set<Note>,
    recorded: seq<Phase>)

  datatype Flow = Go(m: Machine) | Raised(m: Machine) | Crashed(m: Machine)
  {
    predicate IsFailure() { !Go? }
    function PropagateFailure(): Flow
      requires !Go?
    {
      this
    }
    function Extract(): Machine
      requires Go?
    {
      m
    }
  }

  function Pending(m: Machine): Choice {
    if m.choices == [] then Proceed else m.choices[0]
  }

  function Consume(m: Machine): Machine {
    if m.choices == [] then m else m.(choices := m.choices[1..])
  }

  /** An operation that ends in an error or in a crash, with `disk` as far as it got. */
  function Halt(m: Machine, disk: Disk, f: Choice): Flow
    requires f.Fault?
  {
    if f.crash then
      Crashed(m.(disk := if f.statusLost then disk.(status := None) else disk))
    else Raised(m.(disk := disk))
  }

  // --------------------------------------------------- durable operations

  /** `atomic_write`: refused while its staging entry exists, otherwise old or new as a whole. */
  function AtomicWrite(m: Machine, entry: Entry, written: Disk): Flow {
    if entry in m.disk.staging then Raised(m)
    else
      var c, m := Pending(m), Consume(m);
      if !c.Fault? then Go(m.(disk := written))
      else if c.progress > 0 then Halt(m, written, c)
      else Halt(m, if c.litter then m.disk.(staging := m.disk.staging + {entry}) else m.disk, c)
  }

  function WriteConfig(m: Machine, config: Config): Flow {
    AtomicWrite(m, ConfigStaging, m.disk.(config := config))
  }

  function WriteCredential(m: Machine, key: Key): Flow {
    AtomicWrite(m, CredentialStaging, m.disk.(credential := Some(key)))
  }

  /** `_persist_journal`: an unrenderable record is an error before anything is written. */
  function PersistJournal(m: Machine, j: SetupJournal): Flow {
    if !Renderable(j) then Raised(m)
    else
      match AtomicWrite(m, JournalStaging, m.disk.(journal := Some(j)))
      case Go(m) => Go(m.(recorded := m.recorded + [j.phase]))
      case halted => halted
  }

  function SnapshotStep(m: Machine, entry: Entry, taken: Disk): Flow {
    var clean := taken.(staging := taken.staging - {entry});
    var c, m := Pending(m), Consume(m);
    if !c.Fault? then Go(m.(disk := clean))
    else
      var reached := if c.progress > 0 then taken else m.disk;
      Halt(m, reached.(staging := if c.litter then reached.staging + {entry}
                                  else reached.staging - {entry}), c)
  }

  /** `snapshot_file`: the backup appears complete or not at all and never replaces an older one. */
  function SnapshotConfig(m: Machine): Flow {
    if m.disk.configPrevious.Some? then Raised(m)
    else SnapshotStep(m, ConfigSnapshotStaging, m.disk.(configPrevious := Some(m.disk.config)))
  }

  function SnapshotCredential(m: Machine): Flow {
    if m.disk.credentialPrevious.Some? || m.disk.credential.None? then Raised(m)
    else SnapshotStep(m, CredentialSnapshotStaging,
                      m.disk.(credentialPrevious := m.disk.credential))
  }

  /** Up to two ordered removals: `first` after one sub-step, `both` after two. */
  function RemovalSteps(m: Machine, first: Disk, both: Disk): Flow {
    var c, m := Pending(m), Consume(m);
    if !c.Fault? then Go(m.(disk := both))
    else Halt(m, if c.progress == 0 then m.disk else if c.progress == 1 then first else both, c)
  }

  /** `durable_unlink` of a snapshot removes its staging entry first. */
  function UnlinkConfigPrevious(m: Machine): Flow {
    var first := m.disk.(staging := m.disk.staging - {ConfigSnapshotStaging});
    RemovalSteps(m, first, first.(configPrevious := None))
  }

  function UnlinkCredentialPrevious(m: Machine): Flow {
    var first := m.disk.(staging := m.disk.staging - {CredentialSnapshotStaging});
    RemovalSteps(m, first, first.(credentialPrevious := None))
  }

  function UnlinkJournal(m: Machine): Flow {
    var gone := m.disk.(journal := None);
    RemovalSteps(m, gone, gone)
  }

  function UnlinkCredential(m: Machine): Flow {
    var gone := m.disk.(credential := None);
    RemovalSteps(m, gone, gone)
  }

  function UnlinkPreManaged(m: Machine): Flow {
    var gone := m.disk.(preManaged := None);
    RemovalSteps(m, gone, gone)
  }

  function DiscardStaging(m: Machine, entry: Entry): Flow {
    var gone := m.disk.(staging := m.disk.staging - {entry});
    RemovalSteps(m, gone, gone)
  }

  /** `restore_snapshot`: clean a leftover staging entry, then rewrite the target atomically. */
  function RestoreConfig(m: Machine): Flow {
    if m.disk.configPrevious.None? then Raised(m)
    else
      var m :- DiscardStaging(m, ConfigSnapshotStaging);
      WriteConfig(m, m.disk.configPrevious.value)
  }

  function RestoreCredential(m: Machine): Flow {
    if m.disk.credentialPrevious.None? then Raised(m)
    else
      var m :- DiscardStaging(m, CredentialSnapshotStaging);
      WriteCredential(m, m.disk.credentialPrevious.value)
  }

  /** A step that changes nothing durable but may fail or be cut, such as a dry-run validation. */
  function Attempt(m: Machine): Flow {
    RemovalSteps(m, m.disk, m.disk)
  }

  // --------------------------------------------------- runtime commands

  datatype Command = RunProvision(generated: Profile) | RunAdopt | RunRestoreStatic

  /** The first half of a runtime command. */
  function CommandStarted(disk: Disk, command: Command): Disk {
    match command
    case RunProvision(generated) => disk.(profile := Some(generated))
    case RunAdopt => if disk.preManaged.None? then disk.(preManaged := disk.profile) else disk
    case RunRestoreStatic => disk.(profile := disk.preManaged)
  }

  function CommandDone(disk: Disk, command: Command): Disk {
    var started := CommandStarted(disk, command);
    started.(config := started.config.(source := if command.RunRestoreStatic? then Static else Api))
  }

  /** A restore may rewrite the source before the profile as well as after it. */
  predicate SourceGoesFirst(c: Choice, command: Command) {
    command.RunRestoreStatic? && c.Fault? && c.litter
  }

  /** What a command cut between its two files leaves. */
  function CommandHalf(disk: Disk, command: Command, c: Choice): Disk {
    if SourceGoesFirst(c, command) then disk.(config := disk.config.(source := Static))
    else CommandStarted(disk, command)
  }

  /** The runtime restores a profile only where both profiles exist. */
  predicate CommandRefused(disk: Disk, command: Command) {
    command.RunRestoreStatic? && (disk.profile.None? || disk.preManaged.None?)
  }

  function RunCommand(m: Machine, command: Command): Flow {
    if CommandRefused(m.disk, command) then Raised(m)
    else RemovalSteps(m, CommandHalf(m.disk, command, Pending(m)), CommandDone(m.disk, command))
  }

  // ------------------------------------------------------- health proof

  /** The status could be read as proving the record's verification, whatever the clock says. */
  predicate CouldBeFresh(j: SetupJournal, status: Option<Status>) {
    && status.Some?
    && !(j.statusBeforeDev != 0
         && status.value.dev == j.statusBeforeDev && status.value.ino == j.statusBeforeIno)
    && status.value.healthy
    && j.verifyStarted <= status.value.stamp
  }

  /** `_status_is_fresh_success` at clock `finished`. */
  predicate IsFresh(j: SetupJournal, status: Option<Status>, finished: nat) {
    CouldBeFresh(j, status) && status.value.stamp <= finished + 5
  }

  /** `_begin_journaled_health_proof`: note the clock and the status identity, then record them. */
  function BeginProof(m: Machine): Flow {
    var c := Pending(m);
    if !c.Clock? then
      if c.Fault? then Halt(Consume(m), m.disk, c) else Raised(Consume(m))
    else
      var m := Consume(m);
      var dev := if m.disk.status.Some? then m.disk.status.value.dev else 0;
      var ino := if m.disk.status.Some? then m.disk.status.value.ino else 0;
      var verifying := VerifyingOf(m.local, c.now, dev, ino);
      var m :- PersistJournal(m, verifying);
      Go(m.(local := verifying))
  }

  function NoteProved(m: Machine): Machine {
    m.(notes := m.notes + {Proved})
  }

  /** A verification that did not count; a status that could yet read as fresh is remembered. */
  function Unproved(m: Machine): Machine {
    if CouldBeFresh(m.local, m.disk.status) then m.(notes := m.notes + {LateHealth}) else m
  }

  /** `verify_health`: run `check`, then require its success and a fresh healthy status. */
  function VerifyHealth(m: Machine): Flow {
    var c, m := Pending(m), Consume(m);
    match c
    case Checked(rc0, written, finished, ended) =>
      var m := if written.Some? then m.(disk := m.disk.(status := written)) else m;
      if ended.Died? then Crashed(m)
      else if rc0 && ended.Returned? && IsFresh(m.local, m.disk.status, finished) then Go(NoteProved(m))
      else Raised(Unproved(m))
    case Fault(_, _, crash, _) =>
      if crash then Halt(m, m.disk, c) else Raised(Unproved(m))
    case _ => Raised(Unproved(m))
  }

  // ------------------------------------------------------------ cleanup

  function Cleanup(m: Machine): Flow {
    var m :- UnlinkConfigPrevious(m);
    var m :- UnlinkCredentialPrevious(m);
    UnlinkJournal(m)
  }

  function FinalizeVerified(m: Machine): Flow {
    var m :- PersistJournal(m, VerifiedOf(m.local));
    Cleanup(m)
  }

  predicate ArtifactsClear(disk: Disk) {
    && disk.journal.None? && disk.configPrevious.None? && disk.credentialPrevious.None?
    && disk.staging == {}
  }

  // ----------------------------------------------------------- rollback

  /** The errors that ask for inspection: a snapshot is missing or should not be there, or something
      is left without a record. */
  function AskInspection(m: Machine): Flow {
    Raised(m.(notes := m.notes + {Inspection}))
  }

  /** Undo an adoption that created the pre-managed profile. */
  function UndoAdoption(m: Machine): Flow {
    if m.local.operation.Adopt? && !m.local.hadPreManaged && m.disk.preManaged.Some?
    then RunCommand(m, RunRestoreStatic)
    else Go(m)
  }

  function RollbackConfig(m: Machine): Flow {
    if m.disk.configPrevious.Some? then RestoreConfig(m)
    else if !m.local.phase.Prepared? then AskInspection(m)
    else Go(m)
  }

  function RollbackCredential(m: Machine): Flow {
    if m.local.keyChanged then
      if m.local.hadKey then
        if m.disk.credentialPrevious.Some? then RestoreCredential(m)
        else if !m.local.phase.Prepared? then AskInspection(m)
        else Go(m)
      else UnlinkCredential(m)
    else if m.disk.credentialPrevious.Some? then AskInspection(m)
    else Go(m)
  }

  function ForgetAdoption(m: Machine): Flow {
    if m.local.operation.Adopt? && !m.local.hadPreManaged then UnlinkPreManaged(m) else Go(m)
  }

  /** An api-update that changed both the settings and the key, being undone while its record still
      says `activated`. */
  predicate IsExposed(m: Machine) {
    && m.local.operation.ApiUpdate? && m.local.keyChanged
    && m.disk.journal.Some? && m.disk.journal.value.phase.Activated?
    && m.disk.configPrevious != Some(m.disk.config)
    && m.disk.credentialPrevious != m.disk.credential
  }

  function NoteRollback(m: Machine): Machine {
    if IsExposed(m) then m.(notes := m.notes + {ExposedRollback}) else m
  }

  function RollbackApi(m: Machine): Flow {
    var m :- UndoAdoption(NoteRollback(m));
    var m :- RollbackConfig(m);
    var m :- RollbackCredential(m);
    var m :- ForgetAdoption(m);
    var m :- PersistJournal(m, RolledBackOf(m.local));
    Cleanup(m)
  }

  function RollbackStatic(m: Machine): Flow {
    var m :- RollbackConfig(m);
    var m :- PersistJournal(m, RolledBackOf(m.local));
    Cleanup(m)
  }

  // ----------------------------------------------------------- recovery

  /** Whether the config says static and the profile is the pre-managed one; a missing file is an
      error. */
  function StaticRestoreVisible(disk: Disk): Result<bool> {
    if disk.config.source != Static then Ok(false)
    else if disk.profile.None? || disk.preManaged.None? then Err
    else Ok(disk.profile == disk.preManaged)
  }

  function RollbackByOperation(m: Machine): Flow {
    if m.local.operation.IsApi() then RollbackApi(m) else RollbackStatic(m)
  }

  /** Recovery of a `verifying` record: commit on a fresh status, otherwise roll back. */
  function RecoverVerifying(m: Machine): Flow {
    var c, m := Pending(m), Consume(m);
    if c.Fault? then Halt(m, m.disk, c)
    else if c.Clock? && IsFresh(m.local, m.disk.status, c.now) then FinalizeVerified(NoteProved(m))
    else RollbackByOperation(Unproved(m))
  }

  /** Recovery of an `activated` record that may still be proved. */
  function RecoverActivated(m: Machine): Flow {
    var m :- BeginProof(m);
    match VerifyHealth(m)
    case Go(m) => FinalizeVerified(m)
    case Raised(m) => RollbackByOperation(m)
    case Crashed(m) => Crashed(m)
  }

  function RecoverJournal(m: Machine): Flow
    requires m.disk.journal.Some?
  {
    var j := m.disk.journal.value;
    var m := m.(local := j);
    if j.phase.Verified? || j.phase.RolledBack? then Cleanup(m)
    else if j.operation.StaticRestore? && !j.phase.Prepared? && StaticRestoreVisible(m.disk).Err?
    then Raised(m)
    else if j.operation.StaticRestore? && !j.phase.Prepared? && StaticRestoreVisible(m.disk) == Ok(true)
    then Cleanup(m)
    else if j.phase.Verifying? && j.verifyStarted > 0 then RecoverVerifying(m)
    else if j.phase.Activated? && (j.operation.ApiUpdate? || j.operation.StaticSwitch?)
    then RecoverActivated(m)
    else RollbackByOperation(m)
  }

  function Recover(m: Machine): Flow {
    var m :- DiscardStaging(m, JournalStaging);
    var m :- DiscardStaging(m, ConfigStaging);
    var m :- DiscardStaging(m, CredentialStaging);
    if m.disk.journal.Some? then RecoverJournal(m)
    else if ArtifactsClear(m.disk) then Go(m)
    else AskInspection(m)
  }

  // ------------------------------------------------------ applying setup

  datatype ApiRequest = ApiRequest(
    device: string,
    countries: string,
    supplied: Option<Key>,
    replace: bool,
    allowMatching: bool,
    generated: Profile)

  /** `effective_credential`: the key to install, whether it changes, and whether one existed. */
  datatype Selected = Selected(key: Key, changed: bool, had: bool)

  function EffectiveCredential(req: ApiRequest, disk: Disk): Result<Selected> {
    match (disk.credential, req.supplied)
    case (Some(installed), Some(offered)) =>
      if req.replace then Ok(Selected(offered, true, true))
      else if disk.config.source.Api? && !req.allowMatching then Err
      else if offered != installed then Err
      else Ok(Selected(installed, false, true))
    case (Some(installed), None) =>
      if disk.config.source.Api? && !req.replace then Ok(Selected(installed, false, true)) else Err
    case (None, Some(offered)) =>
      if req.replace then Err else Ok(Selected(offered, true, false))
    case (None, None) => Err
  }

  /** Everything one transaction fixes before its first durable step. */
  datatype Plan = Plan(
    operation: Operation,
    before: Disk,
    config: Config,
    key: Selected,
    generated: Profile)

  function PlanApi(req: ApiRequest, disk: Disk): Result<Plan> {
    var key :- EffectiveCredential(req, disk);
    var operation := if disk.profile.Some? then Adopt else Provision;
    if disk.config.source.Api? && operation.Provision? then Err
    else Ok(Plan(if disk.config.source.Api? then ApiUpdate else operation, disk,
                 disk.config.(device := req.device, countries := req.countries), key, req.generated))
  }

  function PreparedJournal(p: Plan): SetupJournal {
    SetupJournal(p.operation, Prepared, p.key.had, p.before.preManaged.Some?, p.key.changed, 0, 0, 0)
  }

  /** `journal = replace(journal, phase=...)` followed by its persistence. */
  function Advance(m: Machine, phase: Phase): Flow {
    var m := m.(local := m.local.(phase := phase));
    PersistJournal(m, m.local)
  }

  function StageSettings(m: Machine, p: Plan): Flow {
    var m :- PersistJournal(m, m.local);
    var m :- SnapshotConfig(m);
    var m :- if p.key.changed && p.key.had then SnapshotCredential(m) else Go(m);
    var m :- WriteConfig(m, p.config);
    Advance(m, ConfigWritten)
  }

  function InstallCredential(m: Machine, p: Plan): Flow {
    if p.key.changed then
      var m :- WriteCredential(m, p.key.key);
      var m :- Advance(m, CredentialWritten);
      Attempt(m)
    else Go(m)
  }

  function Activate(m: Machine, p: Plan): Flow {
    var m :- if p.operation.ApiUpdate? then Go(m)
             else RunCommand(m, if p.operation.Adopt? then RunAdopt else RunProvision(p.generated));
    Advance(m, Activated)
  }

  function Prove(m: Machine): Flow {
    var m :- BeginProof(m);
    VerifyHealth(m)
  }

  function ApiForward(m: Machine, p: Plan): Flow {
    var m :- StageSettings(m, p);
    var m :- InstallCredential(m, p);
    var m :- Activate(m, p);
    Prove(m)
  }

  /** The handler around a failed apply always ends in an error, rolled back or not. */
  function Undone(f: Flow): Flow {
    match f
    case Go(m) => Raised(m)
    case halted => halted
  }

  function ApplyApi(m: Machine, req: ApiRequest): Flow {
    match PlanApi(req, m.disk)
    case Err => Raised(m)
    case Ok(p) =>
      var m :- Attempt(m);
      match ApiForward(m.(local := PreparedJournal(p)), p)
      case Go(m) => FinalizeVerified(m)
      case Raised(m) => UndoApi(m)
      case Crashed(m) => Crashed(m)
  }

  function UndoApi(m: Machine): Flow {
    if m.disk.journal.Some? then Undone(RollbackApi(m)) else Raised(m)
  }

  function PlanStatic(restore: bool, disk: Disk): Plan {
    Plan(if restore then StaticRestore else StaticSwitch, disk, disk.config.(source := Static),
         Selected(if disk.credential.Some? then disk.credential.value else "", false,
                  disk.credential.Some?), "")
  }

  /** The static steps up to the point where a restored profile counts as committed. */
  function StaticBody(m: Machine, p: Plan): Flow {
    var m :- PersistJournal(m, m.local);
    var m :- SnapshotConfig(m);
    if p.operation.StaticRestore? then
      var m :- Advance(m, Activating);
      RunCommand(m, RunRestoreStatic)
    else WriteConfig(m, p.config)
  }

  function StaticProof(m: Machine): Flow {
    var m :- Advance(m, Activated);
    Prove(m)
  }

  function UndoStatic(m: Machine): Flow {
    if m.disk.journal.Some? then Undone(RollbackStatic(m)) else Raised(m)
  }

  function ApplyStatic(m: Machine, restore: bool): Flow {
    var p := PlanStatic(restore, m.disk);
    match StaticBody(m.(local := PreparedJournal(p)), p)
    case Crashed(m) => Crashed(m)
    case Raised(m) => UndoStatic(m)
    case Go(m) =>
      match StaticProof(m)
      case Crashed(m) => Crashed(m)
      case Go(m) => FinalizeVerified(m)
      case Raised(m) => if restore then Undone(Cleanup(m)) else UndoStatic(m)
  }
}
