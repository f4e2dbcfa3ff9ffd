/** Runs of private-file operations with a process or power crash after any system call. */
module StoreRuns {
  import opened StoreModel
  import opened StoreLaws
  import opened StoreTheorems

  datatype Op =
    | Write(target: string, payload: Bytes)
    | Copy(target: string, source: Bytes, expected: nat)
    | Take(from: string, backup: string)
    | PutBack(backup: string, target: string)
    | Remove(target: string)
    | Discard(target: string)
    | ClearSnapshot(backup: string)

  function Perform(m: Machine, op: Op): Flow {
    match op
    case Write(target, payload) => AtomicWrite(m, target, payload)
    case Copy(target, source, expected) => CopyDescriptorAtomic(m, target, source, expected)
    case Take(from, backup) => Snapshot(m, from, backup)
    case PutBack(backup, target) => Restore(m, backup, target)
    case Remove(target) => DurableUnlink(m, target)
    case Discard(target) => DiscardPrivateStaging(m, target)
    case ClearSnapshot(backup) => CleanSnapshotStaging(m, backup)
  }

  /** Backups are written by snapshots only, and snapshots write nothing else. */
  predicate Legal(op: Op, backups: set<string>) {
    match op
    case Write(target, _) => target !in backups
    case Copy(target, _, _) => target !in backups
    case Take(_, backup) => backup in backups
    case PutBack(_, target) => target !in backups
    case _ => true
  }

  /** An operation, how the system answered it, and what is found afterwards. */
  datatype Event = Event(op: Op, plan: seq<Answer>, found: Fs)

  ghost predicate Possible(fs: Fs, events: seq<Event>, backups: set<string>)
    decreases |events|
  {
    events == [] ||
    (&& Legal(events[0].op, backups)
     && Survives(Perform(Machine(fs, events[0].plan), events[0].op).m.fs, events[0].found)
     && Possible(events[0].found, events[1..], backups))
  }

  function Final(fs: Fs, events: seq<Event>): Fs
    decreases |events|
  {
    if events == [] then fs else Final(events[0].found, events[1..])
  }

  /** What an operation turns the files into when it takes effect. */
  ghost function Effect(now: map<string, Bytes>, op: Op): map<string, Bytes> {
    match op
    case Write(target, payload) => now[target := payload]
    case Copy(target, source, expected) => if |source| == expected then now[target := source] else now
    case Take(from, backup) => if from in now && backup !in now then now[backup := now[from]] else now
    case PutBack(backup, target) => if backup in now then now[target := now[backup]] else now
    case Remove(target) => now - {target}
    case Discard(_) | ClearSnapshot(_) => now
  }

  /** Sound, no conflict, and the files as before or as `after`. */
  ghost predicate Whole(fs: Fs, f: Flow, after: map<string, Bytes>, backups: set<string>) {
    && Sound(f.m.fs, backups)
    && (f.Raised? ==> !f.conflict)
    && Now(f.m.fs) in {Now(fs), after}
    && (f.Go? ==> Now(f.m.fs) == after)
    && Outlooks(f.m.fs) <= Outlooks(fs) + {after}
  }

  lemma ChangesAreWhole(fs: Fs, f: Flow, after: map<string, Bytes>, backups: set<string>)
    requires Changes(fs, f, after, backups)
    ensures Whole(fs, f, after, backups)
  {
    DurableNow(f.m.fs);
    hide Sound, Outlooks, Contents;
  }

  lemma KeepingIsWhole(fs: Fs, f: Flow, after: map<string, Bytes>, backups: set<string>)
    requires Keeps(fs, f, backups) && (f.Go? ==> after == Now(fs))
    ensures Whole(fs, f, after, backups)
  {
    hide Sound, Outlooks, Contents;
  }

  /** Every operation, at every cut: sound, no conflict, and the files as before or with its whole effect. */
  lemma PerformIsWhole(m: Machine, op: Op, backups: set<string>)
    requires Sound(m.fs, backups) && Legal(op, backups)
    ensures Whole(m.fs, Perform(m, op), Effect(Now(m.fs), op), backups)
  {
    hide Sound, Outlooks, Contents, Changes, Keeps, Whole;
    var f, after := Perform(m, op), Effect(Now(m.fs), op);
    RaisedKeeps(m, backups);
    match op
    case Write(target, payload) =>
      AtomicWriteChanges(m, target, payload, backups);
      ChangesAreWhole(m.fs, f, after, backups);
    case Copy(target, source, expected) =>
      AtomicWriteChanges(m, target, source, backups);
      if |source| == expected {
        ChangesAreWhole(m.fs, f, after, backups);
      } else {
        KeepingIsWhole(m.fs, f, after, backups);
      }
    case Take(from, backup) =>
      SnapshotChanges(m, from, backup, backups);
      if from in Now(m.fs) && backup !in Now(m.fs) {
        ChangesAreWhole(m.fs, f, after, backups);
      } else {
        KeepingIsWhole(m.fs, f, after, backups);
      }
    case PutBack(backup, target) =>
      RestoreChanges(m, backup, target, backups);
      if backup in Now(m.fs) {
        ChangesAreWhole(m.fs, f, after, backups);
      } else {
        KeepingIsWhole(m.fs, f, after, backups);
      }
    case Remove(target) =>
      DurableUnlinkChanges(m, target, backups);
      if target in Now(m.fs) {
        ChangesAreWhole(m.fs, f, after, backups);
      } else {
        assert Now(m.fs) - {target} == Now(m.fs);
        KeepingIsWhole(m.fs, f, after, backups);
      }
    case Discard(target) =>
      DiscardKeeps(m, target, backups);
      KeepingIsWhole(m.fs, f, after, backups);
    case ClearSnapshot(backup) =>
      CleanKeeps(m, backup, backups);
      KeepingIsWhole(m.fs, f, after, backups);
  }

  lemma RaisedKeeps(m: Machine, backups: set<string>)
    requires Sound(m.fs, backups)
    ensures Keeps(m.fs, Raised(m, false), backups)
  {
    Reflexive(m.fs, backups);
  }

  lemma DurableNow(fs: Fs)
    ensures Now(fs) in Outlooks(fs)
  {
    OutlookOf(fs, fs.entries);
  }

  /** Soundness survives every run, so the errors that ask for inspection are never raised in one. */
  lemma {:induction false} RunsStaySound(fs: Fs, events: seq<Event>, backups: set<string>)
    requires Sound(fs, backups) && Possible(fs, events, backups)
    ensures Sound(Final(fs, events), backups)
    ensures forall op, plan :: Legal(op, backups) && Perform(Machine(Final(fs, events), plan), op).Raised? ==>
              !Perform(Machine(Final(fs, events), plan), op).conflict
    decreases |events|
  {
    if events == [] {
      forall op, plan | Legal(op, backups) && Perform(Machine(fs, plan), op).Raised?
        ensures !Perform(Machine(fs, plan), op).conflict
      {
        PerformIsWhole(Machine(fs, plan), op, backups);
      }
    } else {
      var m := Machine(fs, events[0].plan);
      PerformIsWhole(m, events[0].op, backups);
      SurvivorsAreSound(Perform(m, events[0].op).m.fs, events[0].found, backups);
      RunsStaySound(events[0].found, events[1..], backups);
    }
  }

  // ------------------------------------------------------- nothing is torn

  ghost predicate WholeIn(fs: Fs, whole: set<Bytes>) {
    forall o, t :: o in Outlooks(fs) && t in o ==> o[t] in whole
  }

  predicate Offers(op: Op, whole: set<Bytes>) {
    match op
    case Write(_, payload) => payload in whole
    case Copy(_, source, _) => source in whole
    case _ => true
  }

  lemma EffectIsWhole(now: map<string, Bytes>, op: Op, whole: set<Bytes>)
    requires (forall t :: t in now ==> now[t] in whole) && Offers(op, whole)
    ensures var after := Effect(now, op); forall t :: t in after ==> after[t] in whole
  {
  }

  lemma WholeStep(fs: Fs, e: Event, backups: set<string>, whole: set<Bytes>)
    requires Sound(fs, backups) && Legal(e.op, backups) && Offers(e.op, whole) && WholeIn(fs, whole)
    requires Survives(Perform(Machine(fs, e.plan), e.op).m.fs, e.found)
    ensures Sound(e.found, backups) && WholeIn(e.found, whole)
  {
    hide Sound, Outlooks, Contents, Perform, Effect, Survives, Legal, Offers;
    var m := Machine(fs, e.plan);
    PerformIsWhole(m, e.op, backups);
    DurableNow(fs);
    EffectIsWhole(Now(fs), e.op, whole);
    SurvivorsAreSound(Perform(m, e.op).m.fs, e.found, backups);
  }

  /** Over every run each file, at any time and after any power loss, holds one of the payloads written or found at
      the start. */
  lemma {:induction false} NothingIsTorn(fs: Fs, events: seq<Event>, backups: set<string>, whole: set<Bytes>)
    requires Sound(fs, backups) && Possible(fs, events, backups) && WholeIn(fs, whole)
    requires forall i :: 0 <= i < |events| ==> Offers(events[i].op, whole)
    ensures WholeIn(Final(fs, events), whole)
    decreases |events|
  {
    hide Sound, WholeIn, Perform, Survives, Legal, Offers;
    if events != [] {
      WholeStep(fs, events[0], backups, whole);
      NothingIsTorn(events[0].found, events[1..], backups, whole);
    }
  }

  // --------------------------------------------------- repeated restores

  predicate Restoring(op: Op, backup: string, target: string) {
    op == PutBack(backup, target) || op == Discard(target) || op == ClearSnapshot(backup)
  }

  lemma RestoringEffect(now: map<string, Bytes>, op: Op, backup: string, target: string, was: map<string, Bytes>)
    requires backup in was && backup != target && Restoring(op, backup, target)
    requires now in {was, was[target := was[backup]]}
    ensures Effect(now, op) in {was, was[target := was[backup]]}
  {
    assert was[target := was[backup]][target := was[backup]] == was[target := was[backup]];
  }

  lemma RestoringStep(fs: Fs, e: Event, backups: set<string>, backup: string, target: string, was: map<string, Bytes>)
    requires Sound(fs, backups) && Legal(e.op, backups) && Restoring(e.op, backup, target)
    requires Survives(Perform(Machine(fs, e.plan), e.op).m.fs, e.found)
    requires backup in was && backup != target && Outlooks(fs) <= {was, was[target := was[backup]]}
    ensures Sound(e.found, backups) && Outlooks(e.found) <= {was, was[target := was[backup]]}
  {
    hide Sound, Outlooks, Contents, Perform, Effect, Survives, Legal, Restoring;
    var m := Machine(fs, e.plan);
    PerformIsWhole(m, e.op, backups);
    DurableNow(fs);
    RestoringEffect(Now(fs), e.op, backup, target, was);
    SurvivorsAreSound(Perform(m, e.op).m.fs, e.found, backups);
  }

  /** Restores cut any number of times leave the files as before or with the target restored. */
  lemma {:induction false} RestoresRepeat(fs: Fs, events: seq<Event>, backups: set<string>,
                                          backup: string, target: string, was: map<string, Bytes>)
    requires Sound(fs, backups) && Possible(fs, events, backups)
    requires target !in backups && backup in backups && backup in was
    requires Outlooks(fs) <= {was, was[target := was[backup]]}
    requires forall i :: 0 <= i < |events| ==> Restoring(events[i].op, backup, target)
    ensures Sound(Final(fs, events), backups)
    ensures Outlooks(Final(fs, events)) <= {was, was[target := was[backup]]}
    decreases |events|
  {
    hide Sound, Outlooks, Contents, Perform, Survives, Legal, Restoring;
    if events != [] {
      RestoringStep(fs, events[0], backups, backup, target, was);
      RestoresRepeat(events[0].found, events[1..], backups, backup, target, was);
    }
  }

  /** When nothing fails, an atomic write goes through unless a staging entry is in its way. */
  lemma {:induction false} CalmTransfer(m: Machine, i: nat, payload: Bytes, offset: nat)
    requires m.plan == [] && offset <= |payload|
    ensures var f := Transfer(m, i, payload, offset);
            f.Go? && f.m.plan == [] && f.m.fs.entries == m.fs.entries
    decreases |payload| - offset
  {
    if offset < |payload| {
      var g := Appended(m.fs, i, payload[offset..]);
      assert payload[offset..offset + (|payload| - offset)] == payload[offset..];
      CalmTransfer(Machine(g, []), i, payload, |payload|);
    }
  }

  lemma CalmWrite(m: Machine, target: string, payload: Bytes)
    requires m.plan == []
    ensures AtomicWrite(m, target, payload).Go? <==> PrivateStaging(target) !in m.fs.entries
    ensures AtomicWrite(m, target, payload).m.plan == []
  {
    var n := PrivateStaging(target);
    if n !in m.fs.entries {
      var o := Machine(Created(m.fs, n), []);
      CalmTransfer(o, o.fs.entries[n], payload, 0);
      assert Publish(o, target, payload).Go?;
    }
  }

  lemma CalmClean(m: Machine, backup: string, backups: set<string>)
    requires m.plan == [] && Sound(m.fs, backups)
    ensures CleanSnapshotStaging(m, backup).Go? && CleanSnapshotStaging(m, backup).m.plan == []
  {
  }

  lemma CalmDiscard(m: Machine, target: string)
    requires m.plan == []
    ensures DiscardPrivateStaging(m, target).Go? && DiscardPrivateStaging(m, target).m.plan == []
    ensures PrivateStaging(target) !in DiscardPrivateStaging(m, target).m.fs.entries
  {
  }

  lemma CalmRestore(m: Machine, backup: string, target: string, backups: set<string>)
    requires m.plan == [] && Sound(m.fs, backups) && backup in Now(m.fs)
    requires PrivateStaging(target) !in m.fs.entries
    ensures Restore(m, backup, target).Go?
  {
    ReadsNow(m.fs, backup);
    CalmClean(m, backup, backups);
    CleanKeeps(m, backup, backups);
    var c := CleanSnapshotStaging(m, backup).m;
    OneName(c.fs, backup, backups);
    hide CleanSnapshotStaging, AtomicWrite, Sound;
    CalmWrite(c, target, DataOf(c.fs, c.fs.entries[Plain(backup)]));
  }

  /** After any number of cut attempts, one undisturbed discard and restore puts exactly the backup back, for good. */
  lemma RestoreConverges(fs: Fs, events: seq<Event>, backups: set<string>,
                         backup: string, target: string, was: map<string, Bytes>)
    requires Sound(fs, backups) && Possible(fs, events, backups)
    requires target !in backups && backup in backups && backup in was
    requires Outlooks(fs) <= {was, was[target := was[backup]]}
    requires forall i :: 0 <= i < |events| ==> Restoring(events[i].op, backup, target)
    ensures var d := DiscardPrivateStaging(Machine(Final(fs, events), []), target);
            && d.Go? && Restore(d.m, backup, target).Go?
            && Outlooks(Restore(d.m, backup, target).m.fs) == {was[target := was[backup]]}
  {
    hide Sound, Outlooks, Contents, DiscardPrivateStaging, Restore, Possible, Restoring;
    RestoresRepeat(fs, events, backups, backup, target, was);
    var m := Machine(Final(fs, events), []);
    var restored := was[target := was[backup]];
    DurableNow(m.fs);
    CalmDiscard(m, target);
    DiscardKeeps(m, target, backups);
    var d := DiscardPrivateStaging(m, target);
    assert Now(d.m.fs) in {was, restored};
    CalmRestore(d.m, backup, target, backups);
    RestoreChanges(d.m, backup, target, backups);
    assert restored[target := was[backup]] == restored;
  }

  // ------------------------------------------------- the coarse transitions

  lemma AppendingKeepsEntries(m: Machine, i: nat, chunk: Bytes)
    ensures Call(m, Appended(m.fs, i, chunk)).m.fs.entries == m.fs.entries
    ensures Rest(m).fs.entries == m.fs.entries
  {
  }

  lemma {:induction false} TransferEntries(m: Machine, i: nat, payload: Bytes, offset: nat)
    requires offset <= |payload|
    ensures Transfer(m, i, payload, offset).m.fs.entries == m.fs.entries
    decreases |payload| - offset
  {
    if offset < |payload| {
      var a := Ask(m);
      var left := |payload| - offset;
      var sent := if a.Short? && a.n < left then a.n else left;
      var c := Call(m, Appended(m.fs, i, payload[offset..offset + sent]));
      AppendingKeepsEntries(m, i, payload[offset..offset + sent]);
      hide Call, Appended;
      if sent > 0 && c.Go? {
        TransferEntries(c.m, i, payload, offset + sent);
      }
    }
  }

  lemma PublishEntries(m: Machine, target: string, payload: Bytes)
    requires PrivateStaging(target) in m.fs.entries
    ensures var f := Publish(m, target, payload);
            var staging := PrivateStaging(target);
            f.m.fs.entries == if f.Go? then (m.fs.entries - {staging})[Plain(target) := m.fs.entries[staging]]
                              else m.fs.entries
  {
    StageEntries(m, m.fs.entries[PrivateStaging(target)], payload);
    hide Stage;
  }

  lemma CleanedEntries(f: Flow, n: Name)
    ensures f.Raised? ==> Cleaned(f, n).m.fs.entries in {f.m.fs.entries, f.m.fs.entries - {n}} && !Cleaned(f, n).Go?
    ensures !f.Raised? ==> Cleaned(f, n) == f
  {
  }

  lemma SettleEntries(m: Machine, target: string)
    ensures Settle(m, target).m.fs.entries == m.fs.entries
  {
  }

  /**
   * As directory entries an atomic write has three endings only: nothing happened, its staging entry was
   * left behind, or the target is the new file; and a staging entry already there refuses it.
   */
  lemma AtomicWriteEntries(m: Machine, target: string, payload: Bytes)
    ensures var f := AtomicWrite(m, target, payload);
            var staging := PrivateStaging(target);
            if staging in m.fs.entries then f == Raised(m, false)
            else if f.Go? then f.m.fs.entries == m.fs.entries[Plain(target) := m.fs.next]
            else f.m.fs.entries in {m.fs.entries, m.fs.entries[staging := m.fs.next],
                                    m.fs.entries[Plain(target) := m.fs.next]}
  {
    var n := PrivateStaging(target);
    var o := Open(m, n);
    if n !in m.fs.entries && o.Go? {
      var e := m.fs.entries[n := m.fs.next];
      assert (e - {n})[Plain(target) := m.fs.next] == m.fs.entries[Plain(target) := m.fs.next];
      assert e - {n} == m.fs.entries;
      hide Publish, Settle, Cleaned;
      PublishEntries(o.m, target, payload);
      var p := Publish(o.m, target, payload);
      CleanedEntries(p, n);
      if p.Go? {
        SettleEntries(p.m, target);
      }
    }
  }

  lemma StageEntries(m: Machine, i: nat, payload: Bytes)
    ensures Stage(m, i, payload).m.fs.entries == m.fs.entries
  {
    TransferEntries(m, i, payload, 0);
  }
}
