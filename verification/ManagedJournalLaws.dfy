/** The managed journal tells the truth, moves one step at a time and always leaves a recoverable state. */
module ManagedJournalLaws {
  import opened Wrappers
  import opened Text
  import opened ProfileText
  import opened ManagedJournal
  import Notation = ApiState
  import Codec = ApiStateCodec

  // ---------------------------------------------------------------- codec

  lemma PhaseNamesAreExact(s: string, p: Phase)
    ensures PhaseNamed(s) == Some(p) <==> s == PhaseName(p)
  {
  }

  lemma FlagIsExact(s: string, b: bool)
    ensures (s == "0" || s == "1") && (s == "1") == b <==> s == Flag(b)
  {
  }

  /** A record decodes from exactly its own eight lines. */
  lemma DecodeExact(w: World, lines: seq<string>, j: Journal)
    ensures Decode(w, lines) == Ok(j) <==> lines == JournalLines(j) && MemoryIsValid(w, Some(j))
  {
    hide MemoryIsValid, PhaseNamed, PhaseName, Flag, Notation.Field, Notation.ReadField;
    PhaseNamesAreExact(PhaseName(j.phase), j.phase);
    FlagIsExact(Flag(j.clientWasRunning), j.clientWasRunning);
    if |lines| == 8 {
      Codec.ReadFieldExact(lines[2], "phase", PhaseName(j.phase));
      Codec.ReadFieldExact(lines[3], "backup_sha256", j.backupDigest);
      Codec.ReadFieldExact(lines[4], "candidate_sha256", j.candidateDigest);
      Codec.ReadFieldExact(lines[5], "old_endpoint", j.oldEndpoint);
      Codec.ReadFieldExact(lines[6], "candidate_endpoint", j.candidateEndpoint);
      Codec.ReadFieldExact(lines[7], "qb_was_running", Flag(j.clientWasRunning));
      var phase, running := Notation.ReadField(lines[2], "phase"), Notation.ReadField(lines[7], "qb_was_running");
      if phase.Ok? {
        PhaseNamesAreExact(phase.value, j.phase);
      }
      if running.Ok? {
        FlagIsExact(running.value, j.clientWasRunning);
      }
      assert lines == [lines[0], lines[1], lines[2], lines[3], lines[4], lines[5], lines[6], lines[7]];
    }
  }

  predicate Short(line: string) {
    |line| <= 86 && Plain(line)
  }

  lemma FieldIsShort(key: string, value: string)
    requires Plain(key) && Plain(value) && |key| + |value| < 86
    ensures Short(Notation.Field(key, value))
  {
  }

  lemma DigestIsPlain(s: string)
    requires IsDigest(s)
    ensures Plain(s)
  {
  }

  lemma PhaseLineIsShort(p: Phase)
    ensures Short(Notation.Field("phase", PhaseName(p)))
  {
  }

  lemma FlagLineIsShort(b: bool)
    ensures Short(Notation.Field("qb_was_running", Flag(b)))
  {
  }

  lemma DigestLineIsShort(key: string, digest: string)
    requires Plain(key) && |key| < 20 && IsDigest(digest)
    ensures Short(Notation.Field(key, digest))
  {
    DigestIsPlain(digest);
    FieldIsShort(key, digest);
  }

  lemma EndpointLineIsShort(w: World, key: string, endpoint: string)
    requires Sane(w) && Plain(key) && |key| < 20 && IsCanonicalEndpoint(w, endpoint)
    ensures Short(Notation.Field(key, endpoint))
  {
    FieldIsShort(key, endpoint);
  }

  lemma TitlesAreShort()
    ensures Short("version=2") && Short("transaction=managed-profile")
  {
  }

  lemma BindingIsShort(w: World, j: Journal)
    requires Sane(w) && MemoryIsValid(w, Some(j))
    ensures Short(Notation.Field("backup_sha256", j.backupDigest))
    ensures Short(Notation.Field("candidate_sha256", j.candidateDigest))
    ensures Short(Notation.Field("old_endpoint", j.oldEndpoint))
    ensures Short(Notation.Field("candidate_endpoint", j.candidateEndpoint))
  {
    hide Short, Notation.Field, Sane, IsDigest;
    DigestLineIsShort("backup_sha256", j.backupDigest);
    DigestLineIsShort("candidate_sha256", j.candidateDigest);
    EndpointLineIsShort(w, "old_endpoint", j.oldEndpoint);
    EndpointLineIsShort(w, "candidate_endpoint", j.candidateEndpoint);
  }

  lemma JournalIsShort(w: World, j: Journal)
    requires Sane(w) && MemoryIsValid(w, Some(j))
    ensures forall i :: 0 <= i < 8 ==> Short(JournalLines(j)[i])
  {
    hide Short, Notation.Field, MemoryIsValid, Sane, PhaseName, Flag;
    TitlesAreShort();
    PhaseLineIsShort(j.phase);
    FlagLineIsShort(j.clientWasRunning);
    BindingIsShort(w, j);
    var lines := JournalLines(j);
    assert Short(lines[0]) && Short(lines[1]) && Short(lines[2]) && Short(lines[3]);
    assert Short(lines[4]) && Short(lines[5]) && Short(lines[6]) && Short(lines[7]);
  }

  lemma {:induction false} JoinIsStrict(lines: seq<string>)
    requires forall i :: 0 <= i < |lines| ==> Short(lines[i])
    ensures AllSingleLines(lines)
    ensures lines != [] ==> Notation.BytesAreStrict(JoinLines(lines))
  {
    if lines != [] {
      JoinIsStrict(lines[1..]);
      assert Short(lines[0]);
      var head, rest := lines[0] + [NEWLINE], JoinLines(lines[1..]);
      assert forall i :: 0 <= i < |head| ==> Notation.IsStrict(head[i]);
      assert JoinLines(lines) == head + rest;
      forall i | 0 <= i < |lines| ensures SingleLine(lines[i]) {
        assert Short(lines[i]);
      }
    }
  }

  /** A valid journal reads back as itself. */
  lemma RoundTrip(w: World, j: Journal)
    requires Sane(w) && MemoryIsValid(w, Some(j))
    ensures Parse(w, Render(j)) == Ok(j)
  {
    var lines := JournalLines(j);
    JournalIsShort(w, j);
    JoinIsStrict(lines);
    LinesOfJoin(lines);
    JoinLength(lines, 86);
    DecodeExact(w, lines, j);
    hide JournalLines, MemoryIsValid, Short;
  }

  /** An accepted journal file is the rendering of what it decodes to. */
  lemma AcceptedIsRendering(w: World, text: string)
    requires Parse(w, text).Ok?
    ensures Render(Parse(w, text).value) == text && MemoryIsValid(w, Some(Parse(w, text).value))
  {
    JoinOfLines(text);
    DecodeExact(w, Lines(text), Parse(w, text).value);
    hide JournalLines, MemoryIsValid;
  }

  // --------------------------------------------------------- memory and disk

  predicate MemoryAgrees(w: World, s: State) {
    s.memory.None? || s.memory == Recorded(w, s.disk)
  }

  lemma CommitLaw(w: World, s: State, fault: Fault)
    requires Sane(w)
    ensures var r := Commit(w, s, fault);
            && r.state.memory == s.memory && r.state.locked == s.locked
            && (r.state.disk == s.disk
                || (MemoryIsValid(w, s.memory) && r.state.disk == s.disk.(journal := Some(Render(s.memory.value)))
                    && Recorded(w, r.state.disk) == s.memory))
            && (r.ok ==> Recorded(w, r.state.disk) == s.memory && s.memory.Some?)
  {
    if MemoryIsValid(w, s.memory) {
      RoundTrip(w, s.memory.value);
    }
    hide Parse, Render, MemoryIsValid;
  }

  /** After any transition, failed or not, the variables are cleared or equal the record on disk. */
  lemma TransitionAgrees(w: World, s: State, next: Phase, fault: Fault)
    requires Sane(w)
    ensures MemoryAgrees(w, Transition(w, s, next, fault).state)
  {
    hide Sane, Parse, Render, MemoryIsValid, VerifyPhase, Follows, Commit;
    var l := Load(w, s);
    if l.ok {
      var m := l.state.(memory := Some(l.state.memory.value.(phase := next)));
      CommitLaw(w, m, fault);
    }
  }

  /** A prepare that fails before its rename keeps the variables although no record exists; otherwise they agree too. */
  lemma PrepareAgreesExactly(w: World, s: State, running: bool, fault: Fault)
    requires Sane(w)
    ensures MemoryAgrees(w, Prepare(w, s, running, fault).state) <==>
            !(&& fault == BeforeRename && s.locked && s.disk.journal.None?
              && NewJournal(w, s.disk, running).Some?
              && VerifyPhase(w, s.disk, NewJournal(w, s.disk, running).value, Prepared))
  {
    hide Parse, Render, NewJournal, Bound, ConfiguredEndpoint;
    var j := NewJournal(w, s.disk, running);
    if j.Some? {
      CommitLaw(w, s.(memory := j), fault);
    }
  }

  // ----------------------------------------------------------------- runs

  /** The journal's own operations, and what the surrounding driver may do to the files. */
  datatype Op =
    | Restart
    | TakeLock
    | Reload
    | Begin(running: bool, fault: Fault)
    | Advance(next: Phase, fault: Fault)
    | Arrange(disk: Disk)     // before a journal exists: any profile, backup and staged file
    | Install                 // the staged candidate over the active profile, at tunnel-down
    | RestoreBackup           // the backup over the active profile
    | DropStaged              // the staged file removed, at verified or once the backup is active
    | DropJournal             // the transaction is over

  predicate Allowed(w: World, s: State, op: Op) {
    match op
    case Restart | TakeLock | Reload | Begin(_, _) | Advance(_, _) => true
    case Arrange(disk) => s.disk.journal.None? && disk.journal.None? && FilesKnown(w, disk)
    case Install => s.disk.staged.Some? && Recorded(w, s.disk).Some? && Recorded(w, s.disk).value.phase == TunnelDown
    case RestoreBackup => s.disk.backup.Some?
    case DropStaged =>
      && Recorded(w, s.disk).Some?
      && var j := Recorded(w, s.disk).value;
         j.phase == Verified || ClassifyActive(w, s.disk, j) == ActiveBackup
    case DropJournal => true
  }

  function Perform(w: World, s: State, op: Op): State {
    match op
    case Restart => s.(memory := None, locked := false)
    case TakeLock => s.(locked := true)
    case Reload => Load(w, s).state
    case Begin(running, fault) => Prepare(w, s, running, fault).state
    case Advance(next, fault) => Transition(w, s, next, fault).state
    case Arrange(disk) => s.(disk := disk)
    case Install => s.(disk := s.disk.(profile := s.disk.staged))
    case RestoreBackup => s.(disk := s.disk.(profile := s.disk.backup))
    case DropStaged => s.(disk := s.disk.(staged := None))
    case DropJournal => s.(disk := s.disk.(journal := None))
  }

  /** A record written, and the files when it was. */
  datatype Entry = Entry(record: Journal, disk: Disk)

  /** The state, and the records of the current transaction, oldest first. */
  datatype Trace = Trace(state: State, written: seq<Entry>)

  function Next(w: World, t: Trace, op: Op): Trace {
    var s := Perform(w, t.state, op);
    if s.disk.journal.None? then Trace(s, [])
    else if s.disk.journal != t.state.disk.journal && Recorded(w, s.disk).Some?
    then Trace(s, t.written + [Entry(Recorded(w, s.disk).value, t.state.disk)])
    else Trace(s, t.written)
  }

  ghost predicate Possible(w: World, t: Trace, ops: seq<Op>)
    decreases |ops|
  {
    ops == [] || (Allowed(w, t.state, ops[0]) && Possible(w, Next(w, t, ops[0]), ops[1..]))
  }

  function Play(w: World, t: Trace, ops: seq<Op>): Trace
    decreases |ops|
  {
    if ops == [] then t else Play(w, Next(w, t, ops[0]), ops[1..])
  }

  predicate SameBinding(a: Journal, b: Journal) {
    b == a.(phase := b.phase)
  }

  /** Every record was true when written, the first is a prepared one, and each later one is the next step of the same
      change. */
  predicate Honest(w: World, written: seq<Entry>) {
    && (forall i :: 0 <= i < |written| ==> VerifyPhase(w, written[i].disk, written[i].record, written[i].record.phase))
    && (written != [] ==> written[0].record.phase == Prepared)
    && (forall i :: 0 < i < |written| ==>
          Follows(written[i - 1].record.phase, written[i].record.phase)
          && SameBinding(written[i - 1].record, written[i].record))
  }

  predicate Inv(w: World, t: Trace) {
    && Honest(w, t.written)
    && FilesKnown(w, t.state.disk)
    && (t.state.disk.journal.None? <==> t.written == [])
    && (t.written != [] ==>
          && Recorded(w, t.state.disk) == Some(t.written[|t.written| - 1].record)
          && RecoveryIsConsistent(w, t.state.disk, t.written[|t.written| - 1].record))
  }

  lemma PhaseIsRecoverable(w: World, d: Disk, j: Journal, next: Phase)
    requires VerifyPhase(w, d, j, next) && j.phase == next
    ensures RecoveryIsConsistent(w, d, j)
  {
    hide Bound, MemoryIsValid;
  }

  lemma ConsistentElsewhere(w: World, d: Disk, e: Disk, j: Journal)
    requires d == e.(journal := d.journal)
    ensures RecoveryIsConsistent(w, d, j) == RecoveryIsConsistent(w, e, j)
  {
    hide Bound, MemoryIsValid;
  }

  lemma SameProfile(w: World, p: Profile, q: Profile)
    requires Sane(w) && p in w.known && q in w.known && w.digest(p) == w.digest(q)
    ensures p == q
  {
  }

  lemma BoundElsewhere(w: World, p: Option<Profile>, q: Option<Profile>, digest: string, endpoint: string)
    requires Sane(w) && Bound(w, p, digest, endpoint) && q.Some? && w.digest(q.value) == digest
    requires Known(w, p) && Known(w, q)
    ensures q == p && Bound(w, q, digest, endpoint)
  {
    hide Sane;
    SameProfile(w, p.value, q.value);
  }

  lemma InstallKeeps(w: World, d: Disk, j: Journal)
    requires RecoveryIsConsistent(w, d, j) && d.staged.Some?
    ensures RecoveryIsConsistent(w, d.(profile := d.staged), j)
  {
    hide ConfiguredEndpoint, IsCanonicalEndpoint, IsDigest;
  }

  lemma RestoreKeeps(w: World, d: Disk, j: Journal)
    requires RecoveryIsConsistent(w, d, j)
    ensures RecoveryIsConsistent(w, d.(profile := d.backup), j)
  {
    hide ConfiguredEndpoint, IsCanonicalEndpoint, IsDigest;
  }

  /** Removing the staged file is recoverable exactly at verified or once the backup is active. */
  lemma DroppingStagedIsRecoverableExactly(w: World, d: Disk, j: Journal)
    requires Sane(w) && RecoveryIsConsistent(w, d, j) && FilesKnown(w, d)
    ensures RecoveryIsConsistent(w, d.(staged := None), j) <==>
            ClassifyActive(w, d, j) == ActiveBackup || j.phase == Verified
  {
    hide Sane, IsDigest;
    if ClassifyActive(w, d, j) == ActiveBackup {
      BoundElsewhere(w, d.backup, d.profile, j.backupDigest, j.oldEndpoint);
    } else if d.staged.Some? {
      BoundElsewhere(w, d.staged, d.profile, j.candidateDigest, j.candidateEndpoint);
    }
    hide Bound;
  }

  /** Installing, restoring and dropping the staged file where allowed all leave a recoverable state. */
  lemma DriverKeeps(w: World, s: State, op: Op, j: Journal)
    requires Sane(w) && RecoveryIsConsistent(w, s.disk, j) && Recorded(w, s.disk) == Some(j) && FilesKnown(w, s.disk)
    requires op.Install? || op.RestoreBackup? || op.DropStaged?
    requires Allowed(w, s, op)
    ensures RecoveryIsConsistent(w, Perform(w, s, op).disk, j)
    ensures Perform(w, s, op).disk.journal == s.disk.journal
  {
    hide Sane, RecoveryIsConsistent, Recorded, ClassifyActive;
    match op
    case Install => InstallKeeps(w, s.disk, j);
    case RestoreBackup => RestoreKeeps(w, s.disk, j);
    case DropStaged => DroppingStagedIsRecoverableExactly(w, s.disk, j);
  }

  lemma SnocHonest(w: World, written: seq<Entry>, e: Entry)
    requires Honest(w, written) && VerifyPhase(w, e.disk, e.record, e.record.phase)
    requires if written == [] then e.record.phase == Prepared
             else Follows(written[|written| - 1].record.phase, e.record.phase)
                  && SameBinding(written[|written| - 1].record, e.record)
    ensures Honest(w, written + [e])
  {
    hide VerifyPhase, Follows, SameBinding;
  }

  lemma VerifyIgnoresPhaseField(w: World, d: Disk, j: Journal, next: Phase)
    requires VerifyPhase(w, d, j, next)
    ensures VerifyPhase(w, d, j.(phase := next), next)
  {
    hide Bound;
  }

  lemma RendersApart(w: World, a: Journal, b: Journal)
    requires Sane(w) && MemoryIsValid(w, Some(a)) && MemoryIsValid(w, Some(b)) && a != b
    ensures Render(a) != Render(b)
  {
    RoundTrip(w, a);
    RoundTrip(w, b);
    hide Render, Parse, MemoryIsValid;
  }

  /** A transition changes the disk only by writing the next step of the recorded journal, verified just before. */
  lemma TransitionWrites(w: World, s: State, next: Phase, fault: Fault)
    requires Sane(w)
    ensures var d := Transition(w, s, next, fault).state.disk;
            d == s.disk
            || (&& Recorded(w, s.disk).Some?
                && var j := Recorded(w, s.disk).value;
                && Follows(j.phase, next) && VerifyPhase(w, s.disk, j, next)
                && d == s.disk.(journal := Some(Render(j.(phase := next))))
                && Recorded(w, d) == Some(j.(phase := next)))
  {
    hide Sane, Parse, Render, VerifyPhase, Commit, MemoryIsValid, Follows;
    var l := Load(w, s);
    if l.ok {
      CommitLaw(w, l.state.(memory := Some(l.state.memory.value.(phase := next))), fault);
    }
  }

  lemma AdvanceKeeps(w: World, t: Trace, op: Op)
    requires Sane(w) && Inv(w, t) && op.Advance?
    ensures Inv(w, Next(w, t, op))
  {
    hide Sane, Parse, Render, Bound, Honest, VerifyPhase, RecoveryIsConsistent, Transition, MemoryIsValid, Follows;
    var s := t.state;
    var d := Perform(w, s, op).disk;
    TransitionWrites(w, s, op.next, op.fault);
    if d != s.disk {
      var j := Recorded(w, s.disk).value;
      var k := j.(phase := op.next);
      WrittenRecord(w, s.disk, j);
      VerifyIgnoresPhaseField(w, s.disk, j, op.next);
      assert MemoryIsValid(w, Some(k)) by {
        VerifiedIsValid(w, s.disk, k, op.next);
      }
      assert j != k by {
        FollowsMoves(j.phase, op.next);
      }
      RendersApart(w, j, k);
      SnocHonest(w, t.written, Entry(k, s.disk));
      PhaseIsRecoverable(w, s.disk, k, op.next);
      ConsistentElsewhere(w, d, s.disk, k);
    }
  }

  lemma VerifiedIsValid(w: World, d: Disk, j: Journal, phase: Phase)
    requires VerifyPhase(w, d, j, phase)
    ensures MemoryIsValid(w, Some(j))
  {
  }

  lemma FollowsMoves(was: Phase, next: Phase)
    requires Follows(was, next)
    ensures was != next
  {
  }

  lemma WrittenRecord(w: World, d: Disk, j: Journal)
    requires Recorded(w, d) == Some(j)
    ensures d.journal == Some(Render(j)) && MemoryIsValid(w, Some(j))
  {
    AcceptedIsRendering(w, d.journal.value);
    hide Parse, Render, MemoryIsValid;
  }

  /** A prepare changes the disk only by writing the record of the files as they are. */
  lemma PrepareWrites(w: World, s: State, running: bool, fault: Fault)
    requires Sane(w)
    ensures var d := Prepare(w, s, running, fault).state.disk;
            var j := NewJournal(w, s.disk, running);
            d == s.disk
            || (&& s.disk.journal.None? && j.Some? && VerifyPhase(w, s.disk, j.value, Prepared)
                && j.value.phase == Prepared
                && d == s.disk.(journal := Some(Render(j.value))) && Recorded(w, d) == j)
  {
    hide Sane, Parse, Render, VerifyPhase, Commit, MemoryIsValid, ConfiguredEndpoint;
    var j := NewJournal(w, s.disk, running);
    CommitLaw(w, s.(memory := j), fault);
  }

  lemma BeginKeeps(w: World, t: Trace, op: Op)
    requires Sane(w) && Inv(w, t) && op.Begin?
    ensures Inv(w, Next(w, t, op))
  {
    hide Sane, Parse, Render, Bound, Honest, VerifyPhase, RecoveryIsConsistent, Prepare, MemoryIsValid, NewJournal;
    var s := t.state;
    var d := Perform(w, s, op).disk;
    PrepareWrites(w, s, op.running, op.fault);
    if d != s.disk {
      var k := NewJournal(w, s.disk, op.running).value;
      EmptyIsHonest(w);
      SnocHonest(w, [], Entry(k, s.disk));
      assert [] + [Entry(k, s.disk)] == [Entry(k, s.disk)];
      PhaseIsRecoverable(w, s.disk, k, Prepared);
      ConsistentElsewhere(w, d, s.disk, k);
    }
  }

  lemma EmptyIsHonest(w: World)
    ensures Honest(w, [])
  {
  }

  lemma StepKeeps(w: World, t: Trace, op: Op)
    requires Sane(w) && Inv(w, t) && Allowed(w, t.state, op)
    ensures Inv(w, Next(w, t, op))
  {
    hide Sane, Parse, Render, Honest, RecoveryIsConsistent, Bound, MemoryIsValid;
    EmptyIsHonest(w);
    match op
    case Begin(_, _) => BeginKeeps(w, t, op);
    case Advance(_, _) => AdvanceKeeps(w, t, op);
    case Install | RestoreBackup | DropStaged =>
      if t.written != [] {
        DriverKeeps(w, t.state, op, t.written[|t.written| - 1].record);
        assert Recorded(w, Next(w, t, op).state.disk) == Recorded(w, t.state.disk);
      }
    case _ =>
  }

  /**
   * Over every run: the records move one step at a time with unchanged digests and endpoints, each was true of
   * the files when written, the latest is the one on disk, and recovery classifies the files as consistent with it.
   */
  lemma {:induction false} RunsAreRecoverable(w: World, t: Trace, ops: seq<Op>)
    requires Sane(w) && Inv(w, t) && Possible(w, t, ops)
    ensures Inv(w, Play(w, t, ops))
    decreases |ops|
  {
    hide Sane, Inv, Next, Allowed;
    if ops != [] {
      StepKeeps(w, t, ops[0]);
      RunsAreRecoverable(w, Next(w, t, ops[0]), ops[1..]);
    }
  }
}
