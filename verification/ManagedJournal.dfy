/** The journal of a managed profile change: its record, its transitions and the recovery classification. */
module ManagedJournal {
  import opened Wrappers
  import opened Text
  import opened ProfileText
  import Notation = ApiState

  datatype Phase = Prepared | ClientStopped | TunnelDown | CandidateInstalled | CandidateUp | Verified

  datatype Journal = Journal(
    phase: Phase,
    backupDigest: string,
    candidateDigest: string,
    oldEndpoint: string,
    candidateEndpoint: string,
    clientWasRunning: bool)

  /** The active profile, its backup, the staged candidate and the journal's text. */
  datatype Disk = Disk(profile: Option<Profile>, backup: Option<Profile>, staged: Option<Profile>,
                       journal: Option<string>)

  /** The journal variables, cleared or set, beside the files and the interface lock. */
  datatype State = State(memory: Option<Journal>, disk: Disk, locked: bool)

  datatype Reply = Reply(state: State, ok: bool)

  /** How far a commit gets: through, stopped before the rename, or stopped by a sync after it. */
  datatype Fault = Calm | BeforeRename | AfterRename

  /** The digest, the endpoint canonicalizer, the interface address of a profile, and the profiles that ever occur. */
  datatype World = World(
    digest: Profile -> string,
    canon: string -> Option<string>,
    address: Profile -> Option<string>,
    known: set<Profile>)

  predicate Known(w: World, p: Option<Profile>) {
    p.Some? ==> p.value in w.known
  }

  ghost predicate NoCollisions(w: World) {
    forall p, q :: p in w.known && q in w.known && w.digest(p) == w.digest(q) ==> p == q
  }

  predicate IsHex(c: char) {
    '0' <= c <= '9' || 'a' <= c <= 'f'
  }

  predicate IsDigest(s: string) {
    |s| == 64 && forall i :: 0 <= i < |s| ==> IsHex(s[i])
  }

  const ENDPOINT_BOUND: nat := 64

  predicate Plain(s: string) {
    forall i :: 0 <= i < |s| ==> ' ' <= s[i] <= '~'
  }

  /** Digests of occurring profiles do not collide, and canonical endpoints are short nonempty printable text. */
  ghost predicate Sane(w: World) {
    && NoCollisions(w)
    && Canonicalizes(w.canon)
    && (forall s :: w.canon(s).Some? ==>
          var v := w.canon(s).value; 1 <= |v| <= ENDPOINT_BOUND && Plain(v))
  }

  predicate FilesKnown(w: World, d: Disk) {
    Known(w, d.profile) && Known(w, d.backup) && Known(w, d.staged)
  }

  // --------------------------------------------------------------- record

  predicate IsCanonicalEndpoint(w: World, s: string) {
    w.canon(s) == Some(s)
  }

  predicate MemoryIsValid(w: World, memory: Option<Journal>) {
    match memory
    case None => false
    case Some(j) =>
      && IsDigest(j.backupDigest) && IsDigest(j.candidateDigest) && j.backupDigest != j.candidateDigest
      && IsCanonicalEndpoint(w, j.oldEndpoint) && IsCanonicalEndpoint(w, j.candidateEndpoint)
  }

  function PhaseName(p: Phase): string {
    match p
    case Prepared => "prepared"
    case ClientStopped => "client-stopped"
    case TunnelDown => "tunnel-down"
    case CandidateInstalled => "candidate-installed"
    case CandidateUp => "candidate-up"
    case Verified => "verified"
  }

  function PhaseNamed(s: string): Option<Phase> {
    if s == "prepared" then Some(Prepared)
    else if s == "client-stopped" then Some(ClientStopped)
    else if s == "tunnel-down" then Some(TunnelDown)
    else if s == "candidate-installed" then Some(CandidateInstalled)
    else if s == "candidate-up" then Some(CandidateUp)
    else if s == "verified" then Some(Verified)
    else None
  }

  function Flag(b: bool): string {
    if b then "1" else "0"
  }

  function JournalLines(j: Journal): (s: seq<string>)
    ensures |s| == 8
  {
    ["version=2",
     "transaction=managed-profile",
     Notation.Field("phase", PhaseName(j.phase)),
     Notation.Field("backup_sha256", j.backupDigest),
     Notation.Field("candidate_sha256", j.candidateDigest),
     Notation.Field("old_endpoint", j.oldEndpoint),
     Notation.Field("candidate_endpoint", j.candidateEndpoint),
     Notation.Field("qb_was_running", Flag(j.clientWasRunning))]
  }

  function Render(j: Journal): string {
    JoinLines(JournalLines(j))
  }

  function Decode(w: World, lines: seq<string>): Result<Journal> {
    if |lines| != 8 || lines[0] != "version=2" || lines[1] != "transaction=managed-profile" then Err
    else
      var phase :- Notation.ReadField(lines[2], "phase");
      var backup :- Notation.ReadField(lines[3], "backup_sha256");
      var candidate :- Notation.ReadField(lines[4], "candidate_sha256");
      var was :- Notation.ReadField(lines[5], "old_endpoint");
      var next :- Notation.ReadField(lines[6], "candidate_endpoint");
      var running :- Notation.ReadField(lines[7], "qb_was_running");
      if PhaseNamed(phase).None? || !(running == "0" || running == "1") then Err
      else
        var j := Journal(PhaseNamed(phase).value, backup, candidate, was, next, running == "1");
        if MemoryIsValid(w, Some(j)) then Ok(j) else Err
  }

  const MAX_TEXT: nat := 4096

  function Parse(w: World, text: string): Result<Journal> {
    if |text| > MAX_TEXT || !Notation.BytesAreStrict(text) then Err else Decode(w, Lines(text))
  }

  /** What the journal file says, when it can be read at all. */
  function Recorded(w: World, d: Disk): Option<Journal> {
    if d.journal.None? then None
    else
      var r := Parse(w, d.journal.value);
      if r.Ok? then Some(r.value) else None
  }

  // ------------------------------------------------------- classification

  predicate Bound(w: World, p: Option<Profile>, digest: string, endpoint: string) {
    && p.Some? && w.digest(p.value) == digest
    && ConfiguredEndpoint(w.canon, p.value) == Some(endpoint) && IsCanonicalEndpoint(w, endpoint)
  }

  datatype ActiveClass = ActiveBackup | ActiveCandidate | ActiveUnknown

  datatype StagedClass = Present | Missing | Mismatch

  function ClassifyActive(w: World, d: Disk, j: Journal): ActiveClass {
    if j.backupDigest == j.candidateDigest || d.profile.None? then ActiveUnknown
    else if w.digest(d.profile.value) == j.backupDigest then ActiveBackup
    else if w.digest(d.profile.value) == j.candidateDigest then ActiveCandidate
    else ActiveUnknown
  }

  function ClassifyStaged(w: World, d: Disk, j: Journal): StagedClass {
    if d.staged.None? then Missing
    else if w.digest(d.staged.value) == j.candidateDigest then Present
    else Mismatch
  }

  function ExpectedActive(p: Phase): ActiveClass {
    match p
    case Prepared | ClientStopped | TunnelDown => ActiveBackup
    case CandidateInstalled | CandidateUp | Verified => ActiveCandidate
  }

  /** The files are what a record of that phase says. */
  predicate VerifyPhase(w: World, d: Disk, j: Journal, phase: Phase) {
    && MemoryIsValid(w, Some(j))
    && Bound(w, d.backup, j.backupDigest, j.oldEndpoint)
    && ClassifyStaged(w, d, j) == Present
    && Bound(w, d.staged, j.candidateDigest, j.candidateEndpoint)
    && ClassifyActive(w, d, j) == ExpectedActive(phase)
  }

  /** The files are ones recovery knows how to finish or undo. */
  predicate RecoveryIsConsistent(w: World, d: Disk, j: Journal) {
    && MemoryIsValid(w, Some(j))
    && Bound(w, d.backup, j.backupDigest, j.oldEndpoint)
    && var active, staged := ClassifyActive(w, d, j), ClassifyStaged(w, d, j);
    && active != ActiveUnknown
    && match staged
       case Present => Bound(w, d.staged, j.candidateDigest, j.candidateEndpoint)
       case Missing =>
         if active == ActiveBackup then Bound(w, d.profile, j.backupDigest, j.oldEndpoint)
         else j.phase == Verified && Bound(w, d.profile, j.candidateDigest, j.candidateEndpoint)
       case Mismatch => false
  }

  // ----------------------------------------------------------- operations

  function Load(w: World, s: State): Reply {
    var j := if s.locked then Recorded(w, s.disk) else None;
    Reply(s.(memory := j), j.Some?)
  }

  function Commit(w: World, s: State, fault: Fault): Reply {
    if !MemoryIsValid(w, s.memory) || !s.locked || fault == BeforeRename then Reply(s, false)
    else Reply(s.(disk := s.disk.(journal := Some(Render(s.memory.value)))), fault == Calm)
  }

  function NewJournal(w: World, d: Disk, running: bool): Option<Journal> {
    if d.backup.None? || d.staged.None? then None
    else
      var was := ConfiguredEndpoint(w.canon, d.backup.value);
      var next := ConfiguredEndpoint(w.canon, d.staged.value);
      if was.None? || next.None? then None
      else Some(Journal(Prepared, w.digest(d.backup.value), w.digest(d.staged.value), was.value, next.value, running))
  }

  function Prepare(w: World, s: State, running: bool, fault: Fault): Reply {
    var cleared := s.(memory := None);
    if !s.locked || s.disk.journal.Some? then Reply(cleared, false)
    else
      var j := NewJournal(w, s.disk, running);
      if j.None? || !MemoryIsValid(w, j) || !VerifyPhase(w, s.disk, j.value, Prepared) then Reply(cleared, false)
      else Commit(w, s.(memory := j), fault)
  }

  predicate Follows(was: Phase, next: Phase) {
    match was
    case Prepared => next == ClientStopped
    case ClientStopped => next == TunnelDown
    case TunnelDown => next == CandidateInstalled
    case CandidateInstalled => next == CandidateUp
    case CandidateUp => next == Verified
    case Verified => false
  }

  function Transition(w: World, s: State, next: Phase, fault: Fault): Reply {
    var l := Load(w, s);
    if !l.ok then l
    else
      var j := l.state.memory.value;
      if !Follows(j.phase, next) || !VerifyPhase(w, s.disk, j, next) then Reply(l.state, false)
      else
        var c := Commit(w, l.state.(memory := Some(j.(phase := next))), fault);
        if c.ok then c else Reply(Load(w, c.state).state, false)
  }
}
