/**
 * One private directory, system call by system call. Every call may succeed, report an error or be
 * the last thing that happens; after a power loss any directory version since the last directory sync
 * may come back, and file contents that were not synced come back as anything.
 */
module StoreModel {
  import opened Wrappers

  type Bytes = seq<bv8>

  /** A file, the staging entry of an atomic write to it, or the staging entry of a snapshot named so. */
  datatype Name = Plain(target: string) | PrivateStaging(target: string) | SnapshotStaging(target: string)

  type Version = map<Name, nat>

  datatype File = File(data: Bytes, synced: bool)

  /** `earlier` holds the directory versions since the last directory sync, the current one apart. */
  datatype Fs = Fs(files: map<nat, File>, entries: Version, earlier: set<Version>, next: nat)

  /** How the system answers a call; `Short` limits how much a write or copy moves. */
  datatype Answer = Success | Short(n: nat) | Failure | Crash

  datatype Machine = Machine(fs: Fs, plan: seq<Answer>)

  /** `conflict` marks the errors that ask for inspection: conflicting snapshots and unsafe link counts. */
  datatype Flow = Go(m: Machine) | Raised(m: Machine, conflict: bool) | Cut(m: Machine)
  {
    predicate IsFailure() { !Go? }
    function PropagateFailure(): Flow
      requires !Go?
    {
      this
    }
    function Extract(): Machine
      requires Go?
    {
      m
    }
  }

  // -------------------------------------------------------------- effects

  function Created(fs: Fs, name: Name): Fs {
    Fs(fs.files[fs.next := File([], false)], fs.entries[name := fs.next], fs.earlier + {fs.entries}, fs.next + 1)
  }

  function DataOf(fs: Fs, i: nat): Bytes {
    if i in fs.files then fs.files[i].data else []
  }

  function Appended(fs: Fs, i: nat, chunk: Bytes): Fs {
    fs.(files := fs.files[i := File(DataOf(fs, i) + chunk, false)])
  }

  function FileSynced(fs: Fs, i: nat): Fs {
    fs.(files := fs.files[i := File(DataOf(fs, i), true)])
  }

  function Moved(fs: Fs, entries: Version): Fs {
    fs.(entries := entries, earlier := fs.earlier + {fs.entries})
  }

  function Unlinked(fs: Fs, name: Name): Fs {
    Moved(fs, fs.entries - {name})
  }

  function Linked(fs: Fs, name: Name, i: nat): Fs {
    Moved(fs, fs.entries[name := i])
  }

  function Renamed(fs: Fs, from: Name, to: Name): Fs
    requires from in fs.entries
  {
    Moved(fs, (fs.entries - {from})[to := fs.entries[from]])
  }

  function DirSynced(fs: Fs): Fs {
    fs.(earlier := {})
  }

  // --------------------------------------------------------- system calls

  function Ask(m: Machine): Answer {
    if m.plan == [] then Success else m.plan[0]
  }

  function Rest(m: Machine): Machine {
    if m.plan == [] then m else m.(plan := m.plan[1..])
  }

  function Call(m: Machine, effect: Fs): Flow {
    match Ask(m)
    case Success | Short(_) => Go(Rest(m).(fs := effect))
    case Failure => Raised(Rest(m), false)
    case Crash => Cut(Rest(m))
  }

  function Open(m: Machine, name: Name): Flow {
    if name in m.fs.entries then Raised(m, false) else Call(m, Created(m.fs, name))
  }

  /** `_remove_name_durably`: an entry already gone is no error, but the directory is synced either way. */
  function RemoveDurably(m: Machine, name: Name): Flow {
    var m :- if name in m.fs.entries then Call(m, Unlinked(m.fs, name)) else Go(m);
    Call(m, DirSynced(m.fs))
  }

  /** The copying loops: each round moves some part of what is left, and moving nothing is an error. */
  function Transfer(m: Machine, i: nat, payload: Bytes, offset: nat): Flow
    requires offset <= |payload|
    decreases |payload| - offset
  {
    if offset == |payload| then Go(m)
    else
      var a := Ask(m);
      var left := |payload| - offset;
      var sent := if a.Short? && a.n < left then a.n else left;
      if sent == 0 then Raised(Rest(m), false)
      else
        var m :- Call(m, Appended(m.fs, i, payload[offset..offset + sent]));
        Transfer(m, i, payload, offset + sent)
  }

  /** Fills, syncs and checks a staging file. */
  function Stage(m: Machine, i: nat, payload: Bytes): Flow {
    var m :- Transfer(m, i, payload, 0);
    var m :- Call(m, FileSynced(m.fs, i));
    Call(m, m.fs)
  }

  /** An error stays an error after its staging entry is removed. */
  function Cleaned(f: Flow, staging: Name): Flow {
    match f
    case Raised(m, conflict) =>
      (match RemoveDurably(m, staging)
       case Go(m) => Raised(m, conflict)
       case halted => halted)
    case other => other
  }

  // ----------------------------------------------------------- operations

  function Publish(m: Machine, target: string, payload: Bytes): Flow
    requires PrivateStaging(target) in m.fs.entries
  {
    var staging := PrivateStaging(target);
    var m :- Stage(m, m.fs.entries[staging], payload);
    if staging in m.fs.entries then Call(m, Renamed(m.fs, staging, Plain(target))) else Raised(m, false)
  }

  function Settle(m: Machine, target: string): Flow {
    var m :- if Plain(target) in m.fs.entries then Call(m, FileSynced(m.fs, m.fs.entries[Plain(target)]))
             else Raised(m, false);
    Call(m, DirSynced(m.fs))
  }

  function AtomicWrite(m: Machine, target: string, payload: Bytes): Flow {
    var staging := PrivateStaging(target);
    var m :- Open(m, staging);
    var m :- Cleaned(if staging in m.fs.entries then Publish(m, target, payload) else Raised(m, false), staging);
    Settle(m, target)
  }

  /** `copy_descriptor_atomic`: as an atomic write of the descriptor's bytes, when their size is the expected one. */
  function CopyDescriptorAtomic(m: Machine, target: string, source: Bytes, expected: nat): Flow {
    if |source| != expected then Raised(m, false) else AtomicWrite(m, target, source)
  }

  function Capture(m: Machine, backup: string, payload: Bytes): Flow
    requires SnapshotStaging(backup) in m.fs.entries
  {
    var i := m.fs.entries[SnapshotStaging(backup)];
    var m :- Stage(m, i, payload);
    var m :- if Plain(backup) in m.fs.entries then Raised(m, false) else Call(m, Linked(m.fs, Plain(backup), i));
    var m :- Call(m, DirSynced(m.fs));
    RemoveDurably(m, SnapshotStaging(backup))
  }

  function Snapshot(m: Machine, source: string, backup: string): Flow {
    if Plain(backup) in m.fs.entries || Plain(source) !in m.fs.entries then Raised(m, false)
    else
      var payload := DataOf(m.fs, m.fs.entries[Plain(source)]);
      var staging := SnapshotStaging(backup);
      var m :- if staging in m.fs.entries then RemoveDurably(m, staging) else Go(m);
      var m :- Open(m, staging);
      Cleaned(if staging in m.fs.entries then Capture(m, backup, payload) else Raised(m, false), staging)
  }

  predicate SingleLink(v: Version, name: Name)
    requires name in v
  {
    forall other :: other in v && other != name ==> v[other] != v[name]
  }

  function CleanSnapshotStaging(m: Machine, backup: string): Flow {
    if SnapshotStaging(backup) !in m.fs.entries then Go(m)
    else if Plain(backup) in m.fs.entries
            && m.fs.entries[Plain(backup)] != m.fs.entries[SnapshotStaging(backup)] then Raised(m, true)
    else RemoveDurably(m, SnapshotStaging(backup))
  }

  function DiscardPrivateStaging(m: Machine, target: string): Flow {
    if PrivateStaging(target) in m.fs.entries then RemoveDurably(m, PrivateStaging(target)) else Go(m)
  }

  /** `secure_read`: the file must exist under one name only. */
  function SecureRead(m: Machine, name: Name): Flow {
    if name !in m.fs.entries then Raised(m, false)
    else if !SingleLink(m.fs.entries, name) then Raised(m, true)
    else Call(m, m.fs)
  }

  function Restore(m: Machine, backup: string, target: string): Flow {
    var m :- CleanSnapshotStaging(m, backup);
    var m :- SecureRead(m, Plain(backup));
    if Plain(backup) in m.fs.entries then AtomicWrite(m, target, DataOf(m.fs, m.fs.entries[Plain(backup)]))
    else Raised(m, false)
  }

  function DurableUnlink(m: Machine, target: string): Flow {
    var m :- CleanSnapshotStaging(m, target);
    if Plain(target) !in m.fs.entries then Go(m)
    else if !SingleLink(m.fs.entries, Plain(target)) then Raised(m, true)
    else
      var m :- Call(m, Unlinked(m.fs, Plain(target)));
      Call(m, DirSynced(m.fs))
  }

  // ---------------------------------------------------------------- crash

  ghost predicate PowerLoss(fs: Fs, g: Fs) {
    && g.entries in fs.earlier + {fs.entries} && g.earlier == {} && g.next == fs.next
    && g.files.Keys == fs.files.Keys
    && forall i :: i in fs.files ==> g.files[i].synced && (fs.files[i].synced ==> g.files[i] == fs.files[i])
  }

  /** What the next process may find: the directory as it is, or as a power loss leaves it. */
  ghost predicate Survives(fs: Fs, g: Fs) {
    g == fs || PowerLoss(fs, g)
  }

  /** The files of one directory version, staging entries apart. */
  ghost function Contents(fs: Fs, v: Version): map<string, Bytes> {
    map t: string | t in Targets(v) :: DataOf(fs, v[Plain(t)])
  }

  ghost function Targets(v: Version): (s: set<string>)
    ensures forall t :: t in s <==> Plain(t) in v
  {
    var s := set n | n in v && n.Plain? :: n.target;
    assert forall t :: Plain(t) in v ==> Plain(t).target in s;
    s
  }

  ghost function Now(fs: Fs): map<string, Bytes> {
    Contents(fs, fs.entries)
  }

  /** Everything the files may read as now or after a power loss. */
  ghost function Outlooks(fs: Fs): set<map<string, Bytes>> {
    set v | v in fs.earlier + {fs.entries} :: Contents(fs, v)
  }
}
