/**
 * Runs of the ledger: any order of operations, failed saves and process restarts.
 * The state file is only changed by the ledger's own saves.
 */
module ApiStateRuns {
  import opened Wrappers
  import opened ApiState
  import opened ApiStateCodec
  import opened ApiStateLaws

  datatype Op =
    | Restart
    | TakeLock
    | DropLock
    | LoadFile(now: nat)
    | PruneTo(now: nat)
    | Exclude(name: string, now: nat)
    | Readmit(name: string, now: nat, fault: SaveFault)
    | Ask(now: nat, bypass: bool)
    | Gate(now: nat, bypass: bool, fault: SaveFault)
    | Attempt(now: nat, bypass: bool, fault: SaveFault)
    | Outcome(now: nat, outcome: string, retryAfter: string, failedServer: string, jitter: string, random: nat,
              fault: SaveFault)
    | Refresh(now: nat, device: string, installed: Option<Identity>)
    | SaveFile(fault: SaveFault)

  function StatusOf(ok: bool): Status {
    if ok then Done else Failed
  }

  function Perform(l: Ledger, op: Op): Reply {
    match op
    case Restart => Reply(l.(record := Blank, locked := false), Done)
    case TakeLock => Reply(l.(locked := true), Done)
    case DropLock => Reply(l.(locked := false), Done)
    case LoadFile(now) => Load(l, now)
    case PruneTo(now) => var e := Prune(l.record, now); Reply(l.(record := e.record), StatusOf(e.ok))
    case Exclude(name, now) => var e := AddExclusion(l.record, name, now); Reply(l.(record := e.record), StatusOf(e.ok))
    case Readmit(name, now, fault) => RemoveExclusion(l, name, now, fault)
    case Ask(now, bypass) => var v := AttemptAllowed(l.record, now, bypass); Reply(l.(record := v.record), v.status)
    case Gate(now, bypass, fault) => GateBeforePreflight(l, now, bypass, fault)
    case Attempt(now, bypass, fault) => RecordAttempt(l, now, bypass, fault)
    case Outcome(now, outcome, retryAfter, failedServer, jitter, random, fault) =>
      RecordOutcome(l, now, outcome, retryAfter, failedServer, jitter, random, fault)
    case Refresh(now, device, installed) =>
      var e := RefreshIdentity(l.record, now, device, installed); Reply(l.(record := e.record), StatusOf(e.ok))
    case SaveFile(fault) => Save(l, fault)
  }

  /** The ledger, the times at which an attempt was granted, and the deadline promised since the latest outcome. */
  datatype Trace = Trace(ledger: Ledger, granted: seq<nat>, hold: Option<nat>)

  predicate Grants(l: Ledger, op: Op) {
    op.Attempt? && Perform(l, op).status.Done?
  }

  predicate Holds(c: FailureClass) {
    c.Rate? || c.Transient?
  }

  /** An outcome refused before it changes the verdict: a bad time, a failed prune or no sentence. */
  predicate IsRefused(l: Ledger, op: Op) {
    && op.Outcome?
    && (|| !IsEpoch(op.now) || !Prune(l.record, op.now).ok
        || Sentence(Prune(l.record, op.now).record, op.now, op.outcome, op.retryAfter, op.failedServer, op.jitter,
                    op.random).Err?)
  }

  /** The promise after an outcome: gone with a verdict that holds nothing, the new deadline once saved, and with a
      save that failed, when file and variables may differ, the lesser of the two. */
  function HoldAfter(hold: Option<nat>, r: Record, saved: bool): Option<nat> {
    if !Holds(r.failureClass) then None
    else if saved then Some(r.backoffUntil)
    else if hold.Some? && r.backoffUntil < hold.value then Some(r.backoffUntil)
    else hold
  }

  function Next(t: Trace, op: Op): Trace {
    var reply := Perform(t.ledger, op);
    Trace(
      reply.ledger,
      if Grants(t.ledger, op) then t.granted + [op.now] else t.granted,
      if !op.Outcome? || IsRefused(t.ledger, op) then t.hold
      else HoldAfter(t.hold, reply.ledger.record, reply.status.Done?))
  }

  /** A first process starts over whatever file it finds. */
  function Start(file: Option<string>): Trace {
    Trace(Ledger(Blank, file, false), [], None)
  }

  function Play(file: Option<string>, ops: seq<Op>): Trace {
    if ops == [] then Start(file)
    else Next(Play(file, ops[..|ops| - 1]), ops[|ops| - 1])
  }

  // ------------------------------------------------------------- counting

  function CountSince(s: seq<nat>, t: int): nat {
    if s == [] then 0
    else CountSince(s[..|s| - 1], t) + if s[|s| - 1] >= t then 1 else 0
  }

  lemma CountSnoc(s: seq<nat>, n: nat, t: int)
    ensures CountSince(s + [n], t) == CountSince(s, t) + if n >= t then 1 else 0
  {
    assert (s + [n])[..|s|] == s;
  }

  lemma {:induction false} CountBounds(s: seq<nat>, t: int)
    ensures CountSince(s, t) <= |s|
  {
    if s != [] {
      CountBounds(s[..|s| - 1], t);
    }
  }

  /** The last `m` of an ordered history count from the first of them on. */
  lemma {:induction false} CountTail(s: seq<nat>, m: nat, t: int)
    requires Ordered(s) && m <= |s|
    requires m > 0 ==> s[|s| - m] >= t
    ensures CountSince(s, t) >= m
  {
    if m > 0 {
      var front := s[..|s| - 1];
      assert s[|s| - m] <= s[|s| - 1];
      assert m > 1 ==> front[|front| - (m - 1)] == s[|s| - m];
      CountTail(front, m - 1, t);
    }
  }

  lemma {:induction false} CountRecent(a: seq<nat>, now: nat, t: int)
    requires now < t + DAY
    ensures CountSince(KeepRecent(a, now), t) == CountSince(a, t)
  {
    if a != [] {
      var k := |a| - 1;
      CountRecent(a[..k], now, t);
      CountSnoc(KeepRecent(a[..k], now), a[k], t);
      assert KeepRecent(a[..k], now) + [] == KeepRecent(a[..k], now);
    }
  }

  // ------------------------------------------------------------- coverage

  ghost predicate CountsCovered(granted: seq<nat>, attempts: seq<nat>, observed: nat) {
    forall t: int :: observed < t + DAY ==> CountSince(granted, t) <= CountSince(attempts, t)
  }

  /** No grant is later than the record, and the record counts every grant inside its window. */
  ghost predicate Covers(granted: seq<nat>, r: Record) {
    && (forall i :: 0 <= i < |granted| ==> granted[i] <= r.observed)
    && CountsCovered(granted, r.attempts, r.observed)
  }

  predicate Held(hold: Option<nat>, r: Record) {
    hold.Some? ==> Holds(r.failureClass) && hold.value <= r.backoffUntil
  }

  ghost predicate Remembers(t: Trace, r: Record) {
    Covers(t.granted, r) && Held(t.hold, r)
  }

  /** No six grants lie within a day before another. */
  predicate Spaced(granted: seq<nat>) {
    forall i :: 0 <= i && i + 6 < |granted| ==> granted[i] + DAY <= granted[i + 6]
  }

  ghost predicate FileRemembers(t: Trace) {
    match t.ledger.file
    case None => t.granted == [] && t.hold.None?
    case Some(text) => Parse(text).Ok? ==> Remembers(t, Parse(text).value)
  }

  ghost predicate Inv(t: Trace) {
    && Ordered(t.granted) && Spaced(t.granted)
    && (t.ledger.record.loaded ==> Remembers(t, t.ledger.record))
    && FileRemembers(t)
  }

  lemma CoversLater(granted: seq<nat>, r: Record, p: Record)
    requires Covers(granted, r) && r.observed <= p.observed && p.attempts == KeepRecent(r.attempts, p.observed)
    ensures Covers(granted, p)
  {
    forall t: int | p.observed < t + DAY ensures CountSince(granted, t) <= CountSince(p.attempts, t) {
      CountRecent(r.attempts, p.observed, t);
    }
  }

  lemma CoversWithAttempt(granted: seq<nat>, r: Record, now: nat)
    requires Covers(granted, r) && r.observed <= now
    ensures Covers(granted, WithAttempt(r, now)) && Covers(granted + [now], WithAttempt(r, now))
  {
    forall t: int | now < t + DAY
      ensures CountSince(granted, t) <= CountSince(r.attempts + [now], t)
      ensures CountSince(granted + [now], t) <= CountSince(r.attempts + [now], t)
    {
      CountSnoc(r.attempts, now, t);
      CountSnoc(granted, now, t);
      assert CountSince(granted, t) <= CountSince(r.attempts, t);
    }
  }

  /** A grant at `now` over fewer than six recorded attempts keeps the spacing. */
  lemma GrantKeepsSpacing(granted: seq<nat>, r: Record, now: nat)
    requires Ordered(granted) && Spaced(granted) && Covers(granted, r)
    requires r.observed == now && |r.attempts| < MAX_ATTEMPTS
    ensures Ordered(granted + [now]) && Spaced(granted + [now])
  {
    var n := |granted|;
    if n >= 6 && granted[n - 6] + DAY > now {
      var t := granted[n - 6];
      CountTail(granted, 6, t);
      CountBounds(r.attempts, t);
      assert false;
    }
  }

  // ---------------------------------------------------- one step at a time

  /** The attempts and clock are untouched, or pruned to the new clock. */
  predicate OnlyPrunes(r: Record, s: Record) {
    && s.loaded == r.loaded
    && (|| (s.observed == r.observed && s.attempts == r.attempts)
        || (r.loaded && r.observed <= s.observed && s.attempts == KeepRecent(r.attempts, s.observed)))
  }

  predicate SameSentence(r: Record, s: Record) {
    s.failureClass == r.failureClass && s.backoffUntil == r.backoffUntil
  }

  /** The file is untouched, or holds the rendering of the new valid variables. */
  predicate FileFollows(l: Ledger, m: Ledger) {
    m.file == l.file || (MemoryIsValid(m.record, true) && m.file == Some(Render(m.record)))
  }

  lemma PruneOnlyPrunes(r: Record, now: nat)
    ensures OnlyPrunes(r, Prune(r, now).record) && SameSentence(r, Prune(r, now).record)
    ensures Prune(r, now).ok ==> Prune(r, now).record.observed == now && MemoryIsValid(Prune(r, now).record, false)
    ensures Prune(r, now).ok ==> r.loaded && r.observed <= now
  {
    hide MemoryIsValid;
  }

  lemma OnlyPrunesTwice(r: Record, s: Record, u: Record)
    requires OnlyPrunes(r, s) && OnlyPrunes(s, u)
    ensures OnlyPrunes(r, u)
  {
    if s.attempts == KeepRecent(r.attempts, s.observed) && s.observed <= u.observed {
      KeepRecentTwice(r.attempts, s.observed, u.observed);
    }
  }

  lemma SaveFollows(l: Ledger, m: Ledger, fault: SaveFault)
    requires m.file == l.file
    ensures var reply := Save(m, fault);
            FileFollows(l, reply.ledger) && reply.ledger.record == m.record && !reply.status.Deferred?
    ensures Save(m, fault).status.Done? ==>
              MemoryIsValid(m.record, true) && Save(m, fault).ledger.file == Some(Render(m.record))
  {
    hide MemoryIsValid, Render;
  }

  lemma AddOnlyPrunes(r: Record, name: string, now: nat)
    ensures OnlyPrunes(r, AddExclusion(r, name, now).record) && SameSentence(r, AddExclusion(r, name, now).record)
  {
    PruneOnlyPrunes(r, now);
    hide Prune;
  }

  lemma SentenceOnlyPrunes(r: Record, now: nat, outcome: string, retryAfter: string, failedServer: string,
                           jitter: string, random: nat)
    requires Sentence(r, now, outcome, retryAfter, failedServer, jitter, random).Ok?
    ensures OnlyPrunes(r, Sentence(r, now, outcome, retryAfter, failedServer, jitter, random).value)
  {
    hide ComputeBackoff;
  }

  lemma OutcomeOnlyPrunes(l: Ledger, now: nat, outcome: string, retryAfter: string, failedServer: string,
                          jitter: string, random: nat, fault: SaveFault)
    ensures var reply := RecordOutcome(l, now, outcome, retryAfter, failedServer, jitter, random, fault);
            && OnlyPrunes(l.record, reply.ledger.record)
            && FileFollows(l, reply.ledger)
            && (reply.status.Done? ==>
                  MemoryIsValid(reply.ledger.record, true) && reply.ledger.file == Some(Render(reply.ledger.record)))
  {
    hide Sentence, Save, Prune, Render;
    PruneOnlyPrunes(l.record, now);
    var p := Prune(l.record, now).record;
    var s := Sentence(p, now, outcome, retryAfter, failedServer, jitter, random);
    if s.Ok? {
      SentenceOnlyPrunes(p, now, outcome, retryAfter, failedServer, jitter, random);
      OnlyPrunesTwice(l.record, p, s.value);
      SaveFollows(l, l.(record := s.value), fault);
      AddOnlyPrunes(s.value, failedServer, now);
      var a := AddExclusion(s.value, failedServer, now).record;
      OnlyPrunesTwice(l.record, s.value, a);
      SaveFollows(l, l.(record := a), fault);
    }
    hide AddExclusion, MemoryIsValid, OnlyPrunes;
  }

  lemma RefreshOnlyPrunes(r: Record, now: nat, device: string, installed: Option<Identity>)
    ensures var s := RefreshIdentity(r, now, device, installed).record;
            OnlyPrunes(r, s) && (Holds(r.failureClass) ==> SameSentence(r, s))
  {
    PruneOnlyPrunes(r, now);
    hide Prune, MemoryIsValid, IdentityIsValid, IsDeviceName;
  }

  lemma RemoveOnlyPrunes(l: Ledger, name: string, now: nat, fault: SaveFault)
    ensures var reply := RemoveExclusion(l, name, now, fault);
            && OnlyPrunes(l.record, reply.ledger.record) && SameSentence(l.record, reply.ledger.record)
            && FileFollows(l, reply.ledger)
  {
    PruneOnlyPrunes(l.record, now);
    var p := Prune(l.record, now).record;
    var k := FindExclusion(p.exclusions, name);
    if k < |p.exclusions| {
      SaveFollows(l, l.(record := p.(exclusions := Without(p.exclusions, k))), fault);
    }
    hide Prune, Save, MemoryIsValid, Render, Without, FindExclusion;
  }

  lemma GateOnlyPrunes(l: Ledger, now: nat, bypass: bool, fault: SaveFault)
    ensures var reply := GateBeforePreflight(l, now, bypass, fault);
            && OnlyPrunes(l.record, reply.ledger.record) && SameSentence(l.record, reply.ledger.record)
            && FileFollows(l, reply.ledger)
  {
    PruneOnlyPrunes(l.record, now);
    var p := Prune(l.record, now).record;
    SaveFollows(l, l.(record := p), fault);
    hide Prune, Save, MemoryIsValid, Render;
  }

  /** Everything but a load, a restart and an attempt leaves the grants covered and, outcomes apart, the sentence in
      force. */
  lemma OrdinaryStep(l: Ledger, op: Op)
    requires !op.Restart? && !op.LoadFile? && !op.Attempt?
    ensures OnlyPrunes(l.record, Perform(l, op).ledger.record)
    ensures FileFollows(l, Perform(l, op).ledger)
    ensures !op.Outcome? && Holds(l.record.failureClass) ==> SameSentence(l.record, Perform(l, op).ledger.record)
  {
    match op
    case PruneTo(now) => PruneOnlyPrunes(l.record, now);
    case Exclude(name, now) => AddOnlyPrunes(l.record, name, now);
    case Readmit(name, now, fault) => RemoveOnlyPrunes(l, name, now, fault);
    case Ask(now, bypass) => PruneOnlyPrunes(l.record, now);
    case Gate(now, bypass, fault) => GateOnlyPrunes(l, now, bypass, fault);
    case Outcome(now, outcome, retryAfter, failedServer, jitter, random, fault) =>
      OutcomeOnlyPrunes(l, now, outcome, retryAfter, failedServer, jitter, random, fault);
    case Refresh(now, device, installed) => RefreshOnlyPrunes(l.record, now, device, installed);
    case SaveFile(fault) => SaveFollows(l, l, fault);
    case _ =>
    hide Prune, AddExclusion, RemoveExclusion, AttemptAllowed, GateBeforePreflight, RecordOutcome, RefreshIdentity,
      Save;
  }

  lemma CoversOnlyPruned(granted: seq<nat>, r: Record, s: Record)
    requires Covers(granted, r) && OnlyPrunes(r, s)
    ensures Covers(granted, s)
  {
    if s.attempts == KeepRecent(r.attempts, s.observed) && r.observed <= s.observed {
      CoversLater(granted, r, s);
    }
  }

  lemma FileRemembersSaved(t: Trace)
    requires MemoryIsValid(t.ledger.record, true) && t.ledger.file == Some(Render(t.ledger.record))
    requires Remembers(t, t.ledger.record)
    ensures FileRemembers(t)
  {
    RenderingIsReadable(t.ledger.record);
    hide Render;
  }

  lemma FileFollowsRemembers(t: Trace, u: Trace)
    requires FileFollows(t.ledger, u.ledger) && u.granted == t.granted
    requires FileRemembers(t) && (u.hold.Some? ==> t.hold.Some? && u.hold.value <= t.hold.value)
    requires u.ledger.record.loaded ==> Remembers(u, u.ledger.record)
    ensures FileRemembers(u)
  {
    if MemoryIsValid(u.ledger.record, true) && u.ledger.file == Some(Render(u.ledger.record)) {
      FileRemembersSaved(u);
    }
    hide Render, Parse, MemoryIsValid;
  }

  lemma OrdinaryKeeps(t: Trace, op: Op)
    requires Inv(t) && !op.Restart? && !op.LoadFile? && !op.Attempt? && !op.Outcome?
    ensures Inv(Next(t, op))
  {
    OrdinaryStep(t.ledger, op);
    var u := Next(t, op);
    hide Perform, FileRemembers, Ordered, Spaced, Covers;
    if u.ledger.record.loaded {
      CoversOnlyPruned(t.granted, t.ledger.record, u.ledger.record);
    }
    FileFollowsRemembers(t, u);
  }

  lemma OutcomeKeeps(t: Trace, op: Op)
    requires Inv(t) && op.Outcome?
    ensures Inv(Next(t, op))
  {
    OrdinaryStep(t.ledger, op);
    OutcomeOnlyPrunes(t.ledger, op.now, op.outcome, op.retryAfter, op.failedServer, op.jitter, op.random, op.fault);
    var u := Next(t, op);
    var reply := Perform(t.ledger, op);
    assert reply == RecordOutcome(t.ledger, op.now, op.outcome, op.retryAfter, op.failedServer, op.jitter, op.random,
                                  op.fault);
    hide Perform, RecordOutcome, FileRemembers, Ordered, Spaced, Covers;
    if u.ledger.record.loaded {
      CoversOnlyPruned(t.granted, t.ledger.record, u.ledger.record);
    }
    if reply.status.Done? {
      FileRemembersSaved(u);
    } else {
      FileFollowsRemembers(t, u);
    }
  }

  lemma LoadKeeps(t: Trace, op: Op)
    requires Inv(t) && op.LoadFile?
    ensures Inv(Next(t, op))
  {
    var l, m := t.ledger, Next(t, op).ledger;
    var u := Next(t, op);
    assert m == Load(l, op.now).ledger;
    if l.file.Some? && Parse(l.file.value).Ok? {
      var r := Parse(l.file.value).value;
      PruneOnlyPrunes(r, op.now);
      CoversOnlyPruned(t.granted, r, Prune(r, op.now).record);
    }
    hide Parse, Prune, MemoryIsValid, Covers, Ordered, Spaced;
    assert l.file.None? ==> Covers(t.granted, Defaults(op.now)) by {
      NothingGrantedIsCovered(Defaults(op.now));
    }
  }

  lemma NothingGrantedIsCovered(r: Record)
    ensures Covers([], r)
  {
  }

  lemma AttemptKeeps(t: Trace, op: Op)
    requires Inv(t) && op.Attempt?
    ensures Inv(Next(t, op))
  {
    hide Prune, Save, Ordered, Spaced, Covers;
    var l, now := t.ledger, op.now;
    var v := AttemptAllowed(l.record, now, op.bypass);
    PruneOnlyPrunes(l.record, now);
    var u := Next(t, op);
    assert u.ledger == RecordAttempt(l, now, op.bypass, op.fault).ledger;
    SaveFollows(l, l.(record := v.record), op.fault);
    SaveFollows(l, l.(record := WithAttempt(v.record, now)), op.fault);
    if l.record.loaded {
      CoversOnlyPruned(t.granted, l.record, v.record);
    }
    if v.status.Done? {
      CoversWithAttempt(t.granted, v.record, now);
      GrantKeepsSpacing(t.granted, v.record, now) by {
        assert v.record.attemptCount == |v.record.attempts|;
      }
    }
    var saved := Save(l.(record := WithAttempt(v.record, now)), op.fault);
    assert v.status.Done? ==> Grants(l, op) == saved.status.Done?;
    assert !v.status.Done? ==> !Grants(l, op);
    hide Perform, AttemptAllowed, MemoryIsValid, FileRemembers, Grants;
    if v.status.Done? && saved.status.Done? {
      FileRemembersSaved(u);
    } else {
      FileFollowsRemembers(t, u);
    }
  }

  lemma StepKeeps(t: Trace, op: Op)
    requires Inv(t)
    ensures Inv(Next(t, op))
  {
    if op.LoadFile? {
      LoadKeeps(t, op);
    } else if op.Attempt? {
      AttemptKeeps(t, op);
    } else if op.Outcome? {
      OutcomeKeeps(t, op);
    } else if !op.Restart? {
      OrdinaryKeeps(t, op);
    }
  }

  lemma {:induction false} PlayKeeps(file: Option<string>, ops: seq<Op>)
    ensures Inv(Play(file, ops))
  {
    if ops != [] {
      PlayKeeps(file, ops[..|ops| - 1]);
      StepKeeps(Play(file, ops[..|ops| - 1]), ops[|ops| - 1]);
    } else {
      hide Parse;
      forall r: Record ensures Covers([], r) {
        NothingGrantedIsCovered(r);
      }
    }
  }

  // --------------------------------------------------------- main theorems

  /** Over every run, grants come in time order and any seven in a row span at least a day. */
  lemma RollingLimit(file: Option<string>, ops: seq<Op>)
    ensures var granted := Play(file, ops).granted;
            forall i, j :: 0 <= i && i + 6 <= j < |granted| ==> granted[i] + DAY <= granted[j]
    ensures Ordered(Play(file, ops).granted)
  {
    PlayKeeps(file, ops);
    var granted := Play(file, ops).granted;
    forall i, j | 0 <= i && i + 6 <= j < |granted| ensures granted[i] + DAY <= granted[j] {
      assert granted[i + 6] <= granted[j];
    }
  }

  /** After a recorded rate or transient outcome nothing is granted before its deadline, even with the bypass, until
      another outcome is recorded. One that is refused changes nothing; one whose save failed leaves the lesser of the
      two deadlines, unless it is no failure, auth or device, which hold nothing. */
  lemma HoldIsRespected(file: Option<string>, ops: seq<Op>, op: Op)
    requires Play(file, ops).hold.Some?
    requires op.Attempt? || op.Ask? || op.Gate?
    requires Perform(Play(file, ops).ledger, op).status.Done?
    ensures Play(file, ops).hold.value <= op.now
  {
    hide Prune, Save, MemoryIsValid, Covers, Ordered, Spaced, FileRemembers;
    PlayKeeps(file, ops);
    var t := Play(file, ops);
    PruneOnlyPrunes(t.ledger.record, op.now);
    assert t.ledger.record.loaded;
  }
}
