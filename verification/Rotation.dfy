/**
 * Static endpoint rotation: each durable effect may go through, report an error before or after taking
 * effect, or be the last thing the process does.
 */
module Rotation {
  import opened Wrappers
  import opened ProfileText

  /** The profile, its backup, the pending marker's line and the rotation stamp. */
  datatype Disk = Disk(profile: Profile, backup: Option<Profile>, marker: Option<string>, stamp: Option<nat>)

  datatype Answer = Success | Early | Late | Crash

  /** A restart that verified the tunnel for a profile, at an endpoint, with or without the speed check. */
  datatype Check = Check(profile: Profile, endpoint: string, speed: bool)

  datatype Machine = Machine(disk: Disk, plan: seq<Answer>, passed: set<Check>)

  datatype Flow = Go(m: Machine) | Raised(m: Machine) | Cut(m: Machine)
  {
    predicate IsFailure() { !Go? }
    function PropagateFailure(): Flow
      requires !Go?
    {
      this
    }
    function Extract(): Machine
      requires Go?
    {
      m
    }
  }

  /** Canonical endpoints, the configuration and the clock of one invocation. */
  datatype Setting = Setting(canon: string -> Option<string>, enabled: bool, cooldown: nat, now: nat)

  function Ask(m: Machine): Answer {
    if m.plan == [] then Success else m.plan[0]
  }

  function Rest(m: Machine): Machine {
    if m.plan == [] then m else m.(plan := m.plan[1..])
  }

  function Step(m: Machine, effect: Disk): (f: Flow)
    ensures f.m.passed == m.passed && f.m.disk in {m.disk, effect}
    ensures f.Go? ==> f.m.disk == effect
  {
    match Ask(m)
    case Success => Go(Rest(m).(disk := effect))
    case Early => Raised(Rest(m))
    case Late => Raised(Rest(m).(disk := effect))
    case Crash => Cut(Rest(m))
  }

  /** A durability barrier, a status write or anything else that changes none of the four files. */
  function Barrier(m: Machine): (f: Flow)
    ensures f.m.passed == m.passed && f.m.disk == m.disk
  {
    Step(m, m.disk)
  }

  /** A failure reported in the status file, whether or not that write succeeds. */
  function Report(m: Machine): (f: Flow)
    ensures f.m.passed == m.passed && f.m.disk == m.disk && !f.Go?
  {
    match Barrier(m)
    case Cut(m) => Cut(m)
    case other => Raised(other.m)
  }

  /** A failed call followed by its failure report. */
  function Reported(f: Flow): (r: Flow)
    ensures r.m.disk == f.m.disk && r.m.passed == f.m.passed
    ensures if f.Go? then r == f else !r.Go?
  {
    if f.Raised? then Report(f.m) else f
  }

  // --------------------------------------------------------------- marker

  function WritePending(s: Setting, m: Machine, endpoint: string): (f: Flow)
    ensures f.m.passed == m.passed
  {
    if s.canon(endpoint).None? || m.disk.marker.Some? then Raised(m)
    else
      var m :- Step(m, m.disk.(marker := s.canon(endpoint)));
      Barrier(m)
  }

  /** The marker's endpoint, when it is canonical and the backup is configured for it. */
  function ReadPending(s: Setting, d: Disk): Option<string> {
    if d.marker.None? || s.canon(d.marker.value) != d.marker || d.backup.None?
       || ConfiguredEndpoint(s.canon, d.backup.value) != d.marker
    then None else d.marker
  }

  /** A removal that could not be made durable puts the marker back. */
  function RemovePending(s: Setting, m: Machine): (f: Flow)
    ensures f.m.passed == m.passed
  {
    var endpoint := ReadPending(s, m.disk);
    if endpoint.None? then Raised(m)
    else
      var m :- Step(m, m.disk.(marker := None));
      match Barrier(m)
      case Raised(m) =>
        var again := WritePending(s, m, endpoint.value);
        if again.Cut? then again else Raised(again.m)
      case other => other
  }

  // -------------------------------------------------------------- profile

  function BackupConfig(s: Setting, m: Machine): (f: Flow)
    ensures f.m.passed == m.passed
  {
    if m.disk.marker.Some? || ConfiguredEndpoint(s.canon, m.disk.profile).None? then Raised(m)
    else
      var m :- Step(m, m.disk.(backup := Some(m.disk.profile)));
      Barrier(m)
  }

  function RestoreBackup(m: Machine): (f: Flow)
    ensures f.m.passed == m.passed
  {
    if m.disk.backup.None? then Raised(m)
    else
      var m :- Step(m, m.disk.(profile := m.disk.backup.value));
      Barrier(m)
  }

  function Begin(s: Setting, m: Machine, endpoint: string): (f: Flow)
    ensures f.m.passed == m.passed
  {
    if m.disk.marker.Some? then Raised(m)
    else
      var m :- BackupConfig(s, m);
      WritePending(s, m, endpoint)
  }

  function SetEndpoint(s: Setting, m: Machine, endpoint: string): (f: Flow)
    ensures f.m.passed == m.passed
  {
    if s.canon(endpoint).None? || !SinglePeer(m.disk.profile) then Raised(m)
    else
      var m :- Step(m, m.disk.(profile := WithEndpoint(m.disk.profile, s.canon(endpoint).value)));
      Barrier(m)
  }

  /** A restart succeeds only after every check of the running tunnel passed. */
  function Restart(s: Setting, m: Machine, expected: string, speed: bool): (f: Flow)
    ensures f.m.disk == m.disk && f.m.passed >= m.passed
    ensures f.Go? ==> Check(m.disk.profile, expected, speed) in f.m.passed
  {
    if s.canon(expected).None? then Raised(m)
    else
      var m :- Barrier(m);
      Go(m.(passed := m.passed + {Check(m.disk.profile, expected, speed)}))
  }

  function WriteStamp(s: Setting, m: Machine): (f: Flow)
    ensures f.m.passed == m.passed
  {
    Step(m, m.disk.(stamp := Some(s.now)))
  }

  function RemoveStamp(m: Machine): (f: Flow)
    ensures f.m.passed == m.passed
  {
    Step(m, m.disk.(stamp := None))
  }

  /** The cooldown gate: absent stamps read as zero, and stamps from the future never pass. */
  predicate CooldownAllows(s: Setting, stamp: Option<nat>) {
    var last := if stamp.Some? then stamp.value else 0;
    last <= s.now && s.now - last >= s.cooldown
  }

  // ----------------------------------------------------------- operations

  /** Reports the outcome and drops the marker. */
  function Finish(s: Setting, m: Machine): (f: Flow)
    ensures f.m.passed == m.passed
  {
    var m :- Barrier(m);
    Reported(RemovePending(s, m))
  }

  function RestartAndFinish(s: Setting, m: Machine, prior: string): Flow {
    var m :- Reported(Restart(s, m, prior, false));
    var m :- Reported(RemoveStamp(m));
    Finish(s, m)
  }

  /** Puts the backup back, proves the tunnel at the old endpoint, drops the stamp and then the marker. */
  function Undo(s: Setting, m: Machine, prior: string): Flow {
    var m :- Reported(RestoreBackup(m));
    RestartAndFinish(s, m, prior)
  }

  /** A rotation that rolled back has failed, however the rollback went. */
  function RolledBack(s: Setting, f: Flow, prior: string): Flow {
    match f
    case Raised(m) =>
      var u := Undo(s, m, prior);
      if u.Cut? then u else Raised(u.m)
    case other => other
  }

  function Reconcile(s: Setting, m: Machine): Flow {
    if m.disk.marker.None? then Go(m)
    else
      var prior := ReadPending(s, m.disk);
      if prior.None? then Report(m) else Undo(s, m, prior.value)
  }

  /** The part of a rotation that runs under the marker and is rolled back on any error. */
  function Apply(s: Setting, m: Machine, candidate: string, speed: bool): Flow {
    var m :- SetEndpoint(s, m, candidate);
    var m :- Restart(s, m, candidate, speed);
    var m :- WriteStamp(s, m);
    Barrier(m)
  }

  /** The transaction proper, from the marker's creation to its removal. */
  function Transact(s: Setting, m: Machine, prior: string, candidate: string, speed: bool): Flow {
    var m :- Reported(Begin(s, m, prior));
    var m :- RolledBack(s, Apply(s, m, candidate, speed), prior);
    Reported(RemovePending(s, m))
  }

  /** `candidate` is the selected canonical endpoint, absent when the selection failed or was malformed. */
  function Rotate(s: Setting, m: Machine, candidate: Option<string>, speed: bool): Flow {
    var prior := ConfiguredEndpoint(s.canon, m.disk.profile);
    if prior.None? then Report(m)
    else if !s.enabled then
      var m :- Restart(s, m, prior.value, speed);
      Barrier(m)
    else
      var m :- Reported(Barrier(m));
      if !CooldownAllows(s, m.disk.stamp) then Report(m)
      else if candidate.None? then
        var m :- Reported(Restart(s, m, prior.value, false));
        Report(m)
      else Transact(s, m, prior.value, candidate.value, speed)
  }
}
