/** The journal and safety variables of the managed runtime, loaded, checked and rewritten in place. */
module ManagedRuntime {
  import opened Wrappers
  import opened ProfileText
  import opened ManagedJournal
  import Safety = ManagedSafety
  import Spec = ManagedJournal

  /** The `MANAGED_JOURNAL_*` variables; the phase is absent while they are cleared. */
  class JournalVariables {
    const world: World
    var phase: Option<Phase>
    var backupDigest: string
    var candidateDigest: string
    var oldEndpoint: string
    var candidateEndpoint: string
    var clientWasRunning: bool
    var disk: Disk
    var locked: bool

    ghost function Contents(): State
      reads this
    {
      State(if phase.None? then None
            else Some(Journal(phase.value, backupDigest, candidateDigest, oldEndpoint, candidateEndpoint,
                              clientWasRunning)),
            disk, locked)
    }

    constructor (world: World, disk: Disk, locked: bool)
      ensures Contents() == State(None, disk, locked) && this.world == world
    {
      this.world, this.disk, this.locked := world, disk, locked;
      phase, backupDigest, candidateDigest, oldEndpoint, candidateEndpoint := None, "", "", "", "";
      clientWasRunning := false;
    }

    method Clear()
      modifies this
      ensures Contents() == old(Contents()).(memory := None)
    {
      phase, backupDigest, candidateDigest, oldEndpoint, candidateEndpoint := None, "", "", "", "";
      clientWasRunning := false;
    }

    method Assign(j: Journal)
      modifies this
      ensures Contents() == old(Contents()).(memory := Some(j))
    {
      phase, backupDigest, candidateDigest := Some(j.phase), j.backupDigest, j.candidateDigest;
      oldEndpoint, candidateEndpoint, clientWasRunning := j.oldEndpoint, j.candidateEndpoint, j.clientWasRunning;
    }

    method CheckMemory() returns (ok: bool)
      ensures ok == MemoryIsValid(world, Contents().memory)
    {
      if phase.None? || !IsDigest(backupDigest) || !IsDigest(candidateDigest) || backupDigest == candidateDigest {
        return false;
      }
      return world.canon(oldEndpoint) == Some(oldEndpoint) && world.canon(candidateEndpoint) == Some(candidateEndpoint);
    }

    method Load() returns (ok: bool)
      modifies this
      ensures Reply(Contents(), ok) == Spec.Load(world, old(Contents()))
    {
      Clear();
      if !locked || disk.journal.None? {
        return false;
      }
      var decoded := Parse(world, disk.journal.value);
      if decoded.Err? {
        return false;
      }
      Assign(decoded.value);
      return true;
    }

    method Commit(fault: Fault) returns (ok: bool)
      modifies this`disk
      ensures Reply(Contents(), ok) == Spec.Commit(world, old(Contents()), fault)
    {
      var valid := CheckMemory();
      if !valid || !locked || fault == BeforeRename {
        return false;
      }
      var j := Journal(phase.value, backupDigest, candidateDigest, oldEndpoint, candidateEndpoint, clientWasRunning);
      disk := disk.(journal := Some(Render(j)));
      return fault == Calm;
    }

    method CheckPhase(expected: Phase) returns (ok: bool)
      requires phase.Some?
      ensures ok == VerifyPhase(world, disk, Contents().memory.value, expected)
    {
      var valid := CheckMemory();
      var j := Journal(phase.value, backupDigest, candidateDigest, oldEndpoint, candidateEndpoint, clientWasRunning);
      if !valid || !Bound(world, disk.backup, backupDigest, oldEndpoint) {
        return false;
      }
      if ClassifyStaged(world, disk, j) != Present || !Bound(world, disk.staged, candidateDigest, candidateEndpoint) {
        return false;
      }
      return ClassifyActive(world, disk, j) == ExpectedActive(expected);
    }

    method Prepare(running: bool, fault: Fault) returns (ok: bool)
      modifies this
      ensures Reply(Contents(), ok) == Spec.Prepare(world, old(Contents()), running, fault)
    {
      hide VerifyPhase, Spec.Commit, Spec.MemoryIsValid, ConfiguredEndpoint;
      Clear();
      if !locked || disk.journal.Some? || disk.backup.None? || disk.staged.None? {
        return false;
      }
      var was := ConfiguredEndpoint(world.canon, disk.backup.value);
      var next := ConfiguredEndpoint(world.canon, disk.staged.value);
      if was.None? || next.None? {
        return false;
      }
      Assign(Journal(Prepared, world.digest(disk.backup.value), world.digest(disk.staged.value), was.value, next.value,
                     running));
      var valid := CheckMemory();
      var verified := CheckPhase(Prepared);
      if !valid || !verified {
        Clear();
        return false;
      }
      ok := Commit(fault);
    }

    method Transition(next: Phase, fault: Fault) returns (ok: bool)
      modifies this
      ensures Reply(Contents(), ok) == Spec.Transition(world, old(Contents()), next, fault)
    {
      hide VerifyPhase, Spec.Commit, Spec.MemoryIsValid, Spec.Recorded;
      ok := Load();
      if !ok {
        return;
      }
      if !Follows(phase.value, next) {
        return false;
      }
      var verified := CheckPhase(next);
      if !verified {
        return false;
      }
      phase := Some(next);
      ok := Commit(fault);
      if !ok {
        var loaded := Load();
        return false;
      }
    }

    method RecoveryIsConsistent() returns (ok: bool)
      requires phase.Some?
      ensures ok == Spec.RecoveryIsConsistent(world, disk, Contents().memory.value)
    {
      var valid := CheckMemory();
      var j := Journal(phase.value, backupDigest, candidateDigest, oldEndpoint, candidateEndpoint, clientWasRunning);
      if !valid || !Bound(world, disk.backup, backupDigest, oldEndpoint) {
        return false;
      }
      var active, staged := ClassifyActive(world, disk, j), ClassifyStaged(world, disk, j);
      if active == ActiveUnknown {
        return false;
      }
      match staged {
        case Present => return Bound(world, disk.staged, candidateDigest, candidateEndpoint);
        case Mismatch => return false;
        case Missing =>
          if active == ActiveBackup {
            return Bound(world, disk.profile, backupDigest, oldEndpoint);
          }
          if phase.value != Verified {
            return false;
          }
          return Bound(world, disk.profile, candidateDigest, candidateEndpoint);
      }
    }
  }

  /** The `MANAGED_SAFETY_*` variables. */
  class SafetyVariables {
    const world: World
    var memory: Option<Safety.Record>
    var record: Option<Safety.Record>
    var files: Safety.Files
    var locked: bool

    ghost function Contents(): Safety.Safety
      reads this
    {
      Safety.Safety(memory, record, files, locked)
    }

    constructor (world: World, record: Option<Safety.Record>, files: Safety.Files, locked: bool)
      ensures Contents() == Safety.Safety(None, record, files, locked) && this.world == world
    {
      this.world, this.record, this.files, this.locked := world, record, files, locked;
      memory := None;
    }

    method Load() returns (ok: bool)
      modifies this`memory
      ensures Safety.Answer(Contents(), ok) == Safety.Load(world, old(Contents()))
    {
      memory := None;
      if !locked || record.None? {
        return false;
      }
      memory := record;
      if !Safety.IsSound(world, files, memory.value) {
        memory := None;
        return false;
      }
      return true;
    }

    method Commit(fault: Fault) returns (ok: bool)
      modifies this`record
      ensures Safety.Answer(Contents(), ok) == Safety.Commit(world, old(Contents()), fault)
    {
      if memory.None? || !Safety.IsSound(world, files, memory.value) || !locked || fault == BeforeRename {
        return false;
      }
      record := memory;
      return fault == Calm;
    }

    method Prepare(listen: Option<string>, fault: Fault) returns (ok: bool)
      modifies this
      ensures Safety.Answer(Contents(), ok) == Safety.Prepare(world, old(Contents()), listen, fault)
    {
      hide Safety.IsSound, Bound, ConfiguredEndpoint;
      if record.Some? {
        return false;
      }
      memory := None;
      var r := Safety.NewRecord(world, files, listen);
      if r.None? {
        return false;
      }
      if !Bound(world, files.backup, r.value.backupDigest, r.value.oldEndpoint)
         || !Bound(world, files.staged, r.value.candidateDigest, r.value.candidateEndpoint) {
        return false;
      }
      memory := r;
      ok := Commit(fault);
    }

    method Transition(next: Safety.Stage, fault: Fault) returns (ok: bool)
      modifies this
      ensures Safety.Answer(Contents(), ok) == Safety.Transition(world, old(Contents()), next, fault)
    {
      hide Safety.IsSound;
      ok := Load();
      if !ok {
        return;
      }
      if !Safety.StageFollows(memory.value.stage, next) {
        return false;
      }
      memory := Some(memory.value.(stage := next));
      ok := Commit(fault);
      if !ok {
        var loaded := Load();
        return false;
      }
    }
  }
}
