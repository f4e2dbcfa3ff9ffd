/** One invocation of the runtime working on its files in place. */
module RotationRuntime {
  import opened Wrappers
  import opened ProfileText
  import opened Rotation
  import Spec = Rotation

  datatype Outcome = Completed | Failed | Died
  {
    predicate IsFailure() { !Completed? }
    function PropagateFailure(): Outcome
      requires !Completed?
    {
      this
    }
  }

  function Ended(outcome: Outcome, m: Machine): Flow {
    match outcome
    case Completed => Go(m)
    case Failed => Raised(m)
    case Died => Cut(m)
  }

  class Runtime {
    var profile: Profile
    var backup: Option<Profile>
    var marker: Option<string>
    var stamp: Option<nat>
    var plan: seq<Answer>
    ghost var passed: set<Check>
    const setting: Setting

    ghost function State(): Machine
      reads this
    {
      Machine(Disk(profile, backup, marker, stamp), plan, passed)
    }

    constructor (setting: Setting, disk: Disk, plan: seq<Answer>)
      ensures State() == Machine(disk, plan, {}) && this.setting == setting
    {
      this.setting := setting;
      profile, backup, marker, stamp := disk.profile, disk.backup, disk.marker, disk.stamp;
      this.plan := plan;
      passed := {};
    }

    method Answered() returns (a: Answer)
      modifies this`plan
      ensures a == Ask(old(State())) && State() == Rest(old(State()))
    {
      a := Success;
      if plan != [] {
        a := plan[0];
        plan := plan[1..];
      }
    }

    static function Ending(a: Answer): Outcome {
      match a
      case Success => Completed
      case Early | Late => Failed
      case Crash => Died
    }

    static predicate Effective(a: Answer) {
      a == Success || a == Late
    }

    method Barrier() returns (r: Outcome)
      modifies this`plan
      ensures Ended(r, State()) == Spec.Barrier(old(State()))
    {
      var a := Answered();
      r := Ending(a);
    }

    /** Writes a failure to the status file and fails. */
    method FailReported() returns (r: Outcome)
      modifies this`plan
      ensures Ended(r, State()) == Spec.Report(old(State()))
    {
      r := Barrier();
      if r == Completed {
        r := Failed;
      }
    }

    /** Reports a call that failed. */
    method Checked(call: Outcome) returns (r: Outcome)
      modifies this`plan
      ensures Ended(r, State()) == Spec.Reported(Ended(call, old(State())))
    {
      r := call;
      if call == Failed {
        r := FailReported();
      }
    }

    // ------------------------------------------------------------- marker

    method WriteRotationPending(endpoint: string) returns (r: Outcome)
      modifies this`marker, this`plan
      ensures Ended(r, State()) == Spec.WritePending(setting, old(State()), endpoint)
    {
      var canonical := setting.canon(endpoint);
      if canonical.None? || marker.Some? {
        return Failed;
      }
      var a := Answered();
      if Effective(a) {
        marker := canonical;
      }
      :- Ending(a);
      r := Barrier();
    }

    method ReadRotationPending() returns (endpoint: Option<string>)
      ensures endpoint == Spec.ReadPending(setting, State().disk)
    {
      if marker.None? || backup.None? || setting.canon(marker.value) != marker {
        return None;
      }
      var metadata := ScanProfile(backup.value);
      if metadata.peers != 1 || metadata.endpoints != 1 || metadata.peerEndpoints != 1 {
        return None;
      }
      var configured := setting.canon(metadata.endpoint);
      return if configured == marker then marker else None;
    }

    method RemoveRotationPending() returns (r: Outcome)
      modifies this`marker, this`plan
      ensures Ended(r, State()) == Spec.RemovePending(setting, old(State()))
    {
      var endpoint := ReadRotationPending();
      hide Spec.ReadPending;
      if endpoint.None? {
        return Failed;
      }
      var a := Answered();
      if Effective(a) {
        marker := None;
      }
      :- Ending(a);
      r := Barrier();
      if r == Failed {
        var again := WriteRotationPending(endpoint.value);
        r := if again == Died then Died else Failed;
      }
    }

    // ------------------------------------------------------------ profile

    method ConfiguredEndpointNow() returns (endpoint: Option<string>)
      ensures endpoint == ConfiguredEndpoint(setting.canon, profile)
    {
      var metadata := ScanProfile(profile);
      if metadata.peers != 1 || metadata.endpoints != 1 || metadata.peerEndpoints != 1 {
        return None;
      }
      return setting.canon(metadata.endpoint);
    }

    method BackupConfig() returns (r: Outcome)
      modifies this`backup, this`plan
      ensures Ended(r, State()) == Spec.BackupConfig(setting, old(State()))
    {
      var configured := ConfiguredEndpointNow();
      if marker.Some? || configured.None? {
        return Failed;
      }
      var a := Answered();
      if Effective(a) {
        backup := Some(profile);
      }
      :- Ending(a);
      r := Barrier();
    }

    method RestoreBackup() returns (r: Outcome)
      modifies this`profile, this`plan
      ensures Ended(r, State()) == Spec.RestoreBackup(old(State()))
    {
      if backup.None? {
        return Failed;
      }
      var a := Answered();
      if Effective(a) {
        profile := backup.value;
      }
      :- Ending(a);
      r := Barrier();
    }

    method BeginRotationTransaction(endpoint: string) returns (r: Outcome)
      modifies this
      ensures Ended(r, State()) == Spec.Begin(setting, old(State()), endpoint)
    {
      hide Spec.BackupConfig, Spec.WritePending;
      if marker.Some? {
        return Failed;
      }
      :- BackupConfig();
      r := WriteRotationPending(endpoint);
    }

    method SetConfigEndpoint(endpoint: string) returns (r: Outcome)
      modifies this`profile, this`plan
      ensures Ended(r, State()) == Spec.SetEndpoint(setting, old(State()), endpoint)
    {
      var canonical := setting.canon(endpoint);
      var metadata := ScanProfile(profile);
      if canonical.None? || metadata.peers != 1 || metadata.endpoints != 1 || metadata.peerEndpoints != 1 {
        return Failed;
      }
      var rewritten := RewriteEndpoint(profile, canonical.value);
      var a := Answered();
      if Effective(a) {
        profile := rewritten;
      }
      :- Ending(a);
      r := Barrier();
    }

    method RestartInterface(expected: string, speed: bool) returns (r: Outcome)
      modifies this`plan, this`passed
      ensures Ended(r, State()) == Spec.Restart(setting, old(State()), expected, speed)
    {
      if setting.canon(expected).None? {
        return Failed;
      }
      :- Barrier();
      passed := passed + {Check(profile, expected, speed)};
      r := Completed;
    }

    method WriteRotateStamp() returns (r: Outcome)
      modifies this`stamp, this`plan
      ensures Ended(r, State()) == Spec.WriteStamp(setting, old(State()))
    {
      var a := Answered();
      if Effective(a) {
        stamp := Some(setting.now);
      }
      r := Ending(a);
    }

    method RemoveRotateStamp() returns (r: Outcome)
      modifies this`stamp, this`plan
      ensures Ended(r, State()) == Spec.RemoveStamp(old(State()))
    {
      var a := Answered();
      if Effective(a) {
        stamp := None;
      }
      r := Ending(a);
    }

    // --------------------------------------------------------- operations

    method RollbackRotation(prior: string) returns (r: Outcome)
      modifies this
      ensures Ended(r, State()) == Spec.Undo(setting, old(State()), prior)
    {
      hide Spec.RestoreBackup, Spec.Restart, Spec.RemoveStamp, Spec.RemovePending, Spec.Barrier, Spec.Reported;
      var call := RestoreBackup();
      :- Checked(call);
      call := RestartInterface(prior, false);
      :- Checked(call);
      call := RemoveRotateStamp();
      :- Checked(call);
      :- Barrier();
      call := RemoveRotationPending();
      r := Checked(call);
    }

    method ReconcilePendingRotation() returns (r: Outcome)
      modifies this
      ensures Ended(r, State()) == Spec.Reconcile(setting, old(State()))
    {
      hide Spec.ReadPending, Spec.Undo, Spec.Report;
      if marker.None? {
        return Completed;
      }
      var prior := ReadRotationPending();
      if prior.None? {
        r := FailReported();
        return;
      }
      r := RollbackRotation(prior.value);
    }

    method ApplyCandidate(candidate: string, speed: bool) returns (r: Outcome)
      modifies this
      ensures Ended(r, State()) == Spec.Apply(setting, old(State()), candidate, speed)
    {
      hide Spec.SetEndpoint, Spec.Restart, Spec.WriteStamp, Spec.Barrier;
      :- SetConfigEndpoint(candidate);
      :- RestartInterface(candidate, speed);
      :- WriteRotateStamp();
      r := Barrier();
    }

    method RunTransaction(prior: string, candidate: string, speed: bool) returns (r: Outcome)
      modifies this
      ensures Ended(r, State()) == Spec.Transact(setting, old(State()), prior, candidate, speed)
    {
      hide Spec.Begin, Spec.Apply, Spec.Undo, Spec.RemovePending, Spec.Reported;
      var call := BeginRotationTransaction(prior);
      :- Checked(call);
      call := ApplyCandidate(candidate, speed);
      if call == Failed {
        var undone := RollbackRotation(prior);
        return if undone == Died then Died else Failed;
      }
      :- call;
      call := RemoveRotationPending();
      r := Checked(call);
    }

    method RotateStaticEndpoint(candidate: Option<string>, speed: bool) returns (r: Outcome)
      modifies this
      ensures Ended(r, State()) == Spec.Rotate(setting, old(State()), candidate, speed)
    {
      hide Spec.Transact, Spec.Restart, Spec.Reported, Spec.Barrier, Spec.Report, ConfiguredEndpoint;
      var prior := ConfiguredEndpointNow();
      if prior.None? {
        r := FailReported();
        return;
      }
      if !setting.enabled {
        :- RestartInterface(prior.value, speed);
        r := Barrier();
        return;
      }
      var gate := Barrier();
      :- Checked(gate);
      if !CooldownAllows(setting, stamp) {
        r := FailReported();
        return;
      }
      if candidate.None? {
        var call := RestartInterface(prior.value, false);
        :- Checked(call);
        r := FailReported();
        return;
      }
      r := RunTransaction(prior.value, candidate.value, speed);
    }
  }
}
