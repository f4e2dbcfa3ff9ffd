/** The safety record beside the managed journal: pending, then committed, then finalizing. */
module ManagedSafety {
  import opened Wrappers
  import opened ProfileText
  import opened ManagedJournal

  datatype Stage = Pending | Committed | Finalizing

  /** `listen` is the address the managed client listens on, absent when no client is managed. */
  datatype Record = Record(
    stage: Stage,
    backupDigest: string,
    candidateDigest: string,
    oldEndpoint: string,
    candidateEndpoint: string,
    listen: Option<string>)

  datatype Files = Files(profile: Option<Profile>, backup: Option<Profile>, staged: Option<Profile>)

  datatype Safety = Safety(memory: Option<Record>, record: Option<Record>, files: Files, locked: bool)

  datatype Answer = Answer(safety: Safety, ok: bool)

  predicate RecordIsValid(w: World, r: Record) {
    && IsDigest(r.backupDigest) && IsDigest(r.candidateDigest) && r.backupDigest != r.candidateDigest
    && IsCanonicalEndpoint(w, r.oldEndpoint) && IsCanonicalEndpoint(w, r.candidateEndpoint)
  }

  predicate HasDigest(w: World, p: Option<Profile>, digest: string) {
    p.Some? && w.digest(p.value) == digest
  }

  function AddressOf(w: World, p: Option<Profile>): Option<string> {
    if p.None? then None else w.address(p.value)
  }

  predicate Listens(r: Record, address: Option<string>) {
    address.Some? && (r.listen.Some? ==> address == r.listen)
  }

  /** The files the record describes: undecided while pending, the candidate alone afterwards. */
  predicate ArtifactsAreValid(w: World, f: Files, r: Record) {
    && Bound(w, f.backup, r.backupDigest, r.oldEndpoint)
    && Listens(r, AddressOf(w, f.backup))
    && match r.stage
       case Pending =>
         && (HasDigest(w, f.profile, r.backupDigest) || HasDigest(w, f.profile, r.candidateDigest))
         && (if f.staged.Some? then
               Bound(w, f.staged, r.candidateDigest, r.candidateEndpoint) && Listens(r, AddressOf(w, f.staged))
             else if HasDigest(w, f.profile, r.candidateDigest) then Listens(r, AddressOf(w, f.profile))
             else true)
       case Committed | Finalizing =>
         && f.staged.None?
         && Bound(w, f.profile, r.candidateDigest, r.candidateEndpoint)
         && Listens(r, AddressOf(w, f.profile))
  }

  predicate IsSound(w: World, f: Files, r: Record) {
    RecordIsValid(w, r) && ArtifactsAreValid(w, f, r)
  }

  function Load(w: World, s: Safety): Answer {
    var ok := s.locked && s.record.Some? && IsSound(w, s.files, s.record.value);
    Answer(s.(memory := if ok then s.record else None), ok)
  }

  function Commit(w: World, s: Safety, fault: Fault): Answer {
    if s.memory.None? || !IsSound(w, s.files, s.memory.value) || !s.locked || fault == BeforeRename
    then Answer(s, false)
    else Answer(s.(record := s.memory), fault == Calm)
  }

  function NewRecord(w: World, f: Files, listen: Option<string>): Option<Record> {
    if f.backup.None? || f.staged.None? then None
    else
      var was := ConfiguredEndpoint(w.canon, f.backup.value);
      var next := ConfiguredEndpoint(w.canon, f.staged.value);
      if was.None? || next.None? then None
      else Some(Record(Pending, w.digest(f.backup.value), w.digest(f.staged.value), was.value, next.value, listen))
  }

  function Prepare(w: World, s: Safety, listen: Option<string>, fault: Fault): Answer {
    if s.record.Some? then Answer(s, false)
    else
      var r := NewRecord(w, s.files, listen);
      if r.None? || !Bound(w, s.files.backup, r.value.backupDigest, r.value.oldEndpoint)
         || !Bound(w, s.files.staged, r.value.candidateDigest, r.value.candidateEndpoint)
      then Answer(s.(memory := None), false)
      else Commit(w, s.(memory := r), fault)
  }

  predicate StageFollows(was: Stage, next: Stage) {
    (was == Pending && next == Committed) || (was == Committed && next == Finalizing)
  }

  function Transition(w: World, s: Safety, next: Stage, fault: Fault): Answer {
    var l := Load(w, s);
    if !l.ok then l
    else
      var r := l.safety.memory.value;
      if !StageFollows(r.stage, next) then Answer(l.safety, false)
      else
        var c := Commit(w, l.safety.(memory := Some(r.(stage := next))), fault);
        if c.ok then c else Answer(Load(w, c.safety).safety, false)
  }

  // ----------------------------------------------------------------- laws

  /** After any transition the variables are cleared or equal the record. */
  lemma TransitionAgrees(w: World, s: Safety, next: Stage, fault: Fault)
    ensures var t := Transition(w, s, next, fault).safety;
            t.memory.None? || t.memory == t.record
  {
    hide IsSound, StageFollows;
  }

  /** A transition writes the next stage of the same record, and only over files that record describes. */
  lemma TransitionWrites(w: World, s: Safety, next: Stage, fault: Fault)
    ensures var t := Transition(w, s, next, fault).safety;
            && t.files == s.files
            && (t.record == s.record
                || (&& s.record.Some? && StageFollows(s.record.value.stage, next)
                    && t.record == Some(s.record.value.(stage := next))
                    && IsSound(w, s.files, s.record.value)
                    && IsSound(w, s.files, t.record.value)))
    ensures var t := Transition(w, s, next, fault);
            t.ok ==> t.safety.record.Some? && t.safety.record.value.stage == next
  {
    hide IsSound;
  }

  datatype Op =
    | Restart
    | TakeLock
    | Reload
    | Begin(listen: Option<string>, fault: Fault)
    | Advance(next: Stage, fault: Fault)
    | Arrange(files: Files)   // before a record exists
    | Install                 // the staged candidate over the active profile, while pending
    | RestoreBackup           // the backup over the active profile, while pending
    | DropStaged              // the staged file removed, while pending
    | DropRecord

  predicate Allowed(w: World, s: Safety, op: Op) {
    match op
    case Arrange(files) => s.record.None? && FilesOccur(w, files)
    case Install | RestoreBackup | DropStaged =>
      s.record.Some? && s.record.value.stage == Pending && (op.Install? ==> s.files.staged.Some?)
    case _ => true
  }

  function Perform(w: World, s: Safety, op: Op): Safety {
    match op
    case Restart => s.(memory := None, locked := false)
    case TakeLock => s.(locked := true)
    case Reload => Load(w, s).safety
    case Begin(listen, fault) => Prepare(w, s, listen, fault).safety
    case Advance(next, fault) => Transition(w, s, next, fault).safety
    case Arrange(files) => s.(files := files)
    case Install => s.(files := s.files.(profile := s.files.staged))
    case RestoreBackup => s.(files := s.files.(profile := s.files.backup))
    case DropStaged => s.(files := s.files.(staged := None))
    case DropRecord => s.(record := None)
  }

  predicate FilesOccur(w: World, f: Files) {
    Known(w, f.profile) && Known(w, f.backup) && Known(w, f.staged)
  }

  /** Whatever record is on disk describes the files. */
  predicate Described(w: World, s: Safety) {
    FilesOccur(w, s.files) && (s.record.Some? ==> IsSound(w, s.files, s.record.value))
  }

  lemma SameFile(w: World, p: Option<Profile>, q: Option<Profile>, digest: string)
    requires NoCollisions(w) && HasDigest(w, p, digest) && HasDigest(w, q, digest) && Known(w, p) && Known(w, q)
    ensures p == q
  {
  }

  lemma DropStagedKeeps(w: World, f: Files, r: Record)
    requires NoCollisions(w) && IsSound(w, f, r) && r.stage == Pending && FilesOccur(w, f)
    ensures IsSound(w, f.(staged := None), r)
  {
    hide NoCollisions, ConfiguredEndpoint;
    if f.staged.Some? && HasDigest(w, f.profile, r.candidateDigest) {
      SameFile(w, f.staged, f.profile, r.candidateDigest);
    }
  }

  lemma InstallKeeps(w: World, f: Files, r: Record)
    requires IsSound(w, f, r) && r.stage == Pending && f.staged.Some?
    ensures IsSound(w, f.(profile := f.staged), r)
  {
    hide ConfiguredEndpoint, IsDigest;
  }

  lemma RestoreKeeps(w: World, f: Files, r: Record)
    requires IsSound(w, f, r) && r.stage == Pending
    ensures IsSound(w, f.(profile := f.backup), r)
  {
    hide ConfiguredEndpoint, IsDigest;
  }

  lemma StepKeeps(w: World, s: Safety, op: Op)
    requires NoCollisions(w) && Described(w, s) && Allowed(w, s, op)
    ensures Described(w, Perform(w, s, op))
  {
    hide NoCollisions, IsSound;
    match op
    case Begin(listen, fault) => hide NewRecord, Bound;
    case Advance(next, fault) => TransitionWrites(w, s, next, fault); hide Transition;
    case Install => InstallKeeps(w, s.files, s.record.value);
    case RestoreBackup => RestoreKeeps(w, s.files, s.record.value);
    case DropStaged => DropStagedKeeps(w, s.files, s.record.value);
    case _ =>
  }

  ghost predicate Possible(w: World, s: Safety, ops: seq<Op>)
    decreases |ops|
  {
    ops == [] || (Allowed(w, s, ops[0]) && Possible(w, Perform(w, s, ops[0]), ops[1..]))
  }

  function Play(w: World, s: Safety, ops: seq<Op>): Safety
    decreases |ops|
  {
    if ops == [] then s else Play(w, Perform(w, s, ops[0]), ops[1..])
  }

  /** Over every run the record on disk describes the files, so after `committed` the candidate alone is in place. */
  lemma {:induction false} RunsAreDescribed(w: World, s: Safety, ops: seq<Op>)
    requires NoCollisions(w) && Described(w, s) && Possible(w, s, ops)
    ensures Described(w, Play(w, s, ops))
    decreases |ops|
  {
    hide NoCollisions, Described, Allowed, Perform;
    if ops != [] {
      StepKeeps(w, s, ops[0]);
      RunsAreDescribed(w, Perform(w, s, ops[0]), ops[1..]);
    }
  }

  /** Once a record is committed no run without dropping it goes back to pending or changes what it binds. */
  lemma {:induction false} CommitmentIsFinal(w: World, s: Safety, ops: seq<Op>)
    requires NoCollisions(w) && Described(w, s) && Possible(w, s, ops)
    requires s.record.Some? && s.record.value.stage != Pending
    requires forall i :: 0 <= i < |ops| ==> !ops[i].DropRecord?
    ensures var t := Play(w, s, ops);
            && t.files == s.files && t.record.Some?
            && t.record.value == s.record.value.(stage := t.record.value.stage)
            && t.record.value.stage != Pending
    decreases |ops|
  {
    if ops != [] {
      hide NoCollisions, IsSound;
      StepKeeps(w, s, ops[0]);
      if ops[0].Advance? {
        TransitionWrites(w, s, ops[0].next, ops[0].fault);
      }
      hide Transition, NewRecord, Described;
      CommitmentIsFinal(w, Perform(w, s, ops[0]), ops[1..]);
    }
  }
}
