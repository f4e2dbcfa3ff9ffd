/** Each private-file operation changes one file as a whole, at every cut, and so does every run of them. */
module StoreTheorems {
  import opened StoreModel
  import opened StoreLaws

  /** However the operation ends, files read as before or as `after`, and as `after` for good when it completes. */
  ghost predicate Changes(fs: Fs, f: Flow, after: map<string, Bytes>, backups: set<string>) {
    && Sound(f.m.fs, backups)
    && (f.Raised? ==> !f.conflict)
    && Outlooks(f.m.fs) <= Outlooks(fs) + {after}
    && Now(f.m.fs) in {Now(fs), after}
    && (f.Go? ==> Outlooks(f.m.fs) == {after})
  }

  /** The operation changes no file at all. */
  ghost predicate Keeps(fs: Fs, f: Flow, backups: set<string>) {
    Shadows(fs, f.m.fs, backups) && (f.Raised? ==> !f.conflict)
  }

  // -------------------------------------------------------------- staging

  lemma {:induction false} TransferFills(m: Machine, n: Name, i: nat, payload: Bytes, offset: nat, backups: set<string>)
    requires Sound(m.fs, backups) && Private(m.fs, n, i) && !n.Plain?
    requires offset <= |payload| && DataOf(m.fs, i) == payload[..offset]
    ensures var f := Transfer(m, i, payload, offset);
            && Keeps(m.fs, f, backups) && Private(f.m.fs, n, i) && f.m.fs.entries == m.fs.entries
            && (f.Go? ==> DataOf(f.m.fs, i) == payload)
    decreases |payload| - offset
  {
    hide Shadows, Sound, Private;
    Reflexive(m.fs, backups);
    if offset == |payload| {
      assert payload[..offset] == payload;
      return;
    }
    var a := Ask(m);
    var left := |payload| - offset;
    var sent := if a.Short? && a.n < left then a.n else left;
    var chunk := payload[offset..offset + sent];
    var g := Appended(m.fs, i, chunk);
    ChangedFile(m.fs, n, i, File(DataOf(m.fs, i) + chunk, false), backups);
    assert payload[..offset] + chunk == payload[..offset + sent];
    assert DataOf(g, i) == payload[..offset + sent];
    assert g.entries == m.fs.entries;
    var c := Call(m, g);
    if sent > 0 && c.Go? {
      ShadowsSound(m.fs, g, backups);
      hide Appended, DataOf;
      TransferFills(c.m, n, i, payload, offset + sent, backups);
      ShadowsTransitive(m.fs, g, Transfer(c.m, i, payload, offset + sent).m.fs, backups);
    }
  }

  lemma ShadowsSound(fs: Fs, g: Fs, backups: set<string>)
    requires Shadows(fs, g, backups)
    ensures Sound(g, backups)
  {
  }

  lemma Reflexive(fs: Fs, backups: set<string>)
    requires Sound(fs, backups)
    ensures Shadows(fs, fs, backups)
  {
  }

  lemma StageFills(m: Machine, n: Name, i: nat, payload: Bytes, backups: set<string>)
    requires Sound(m.fs, backups) && Private(m.fs, n, i) && !n.Plain? && DataOf(m.fs, i) == []
    ensures var f := Stage(m, i, payload);
            && Keeps(m.fs, f, backups) && f.m.fs.entries == m.fs.entries
            && (f.Go? ==> Private(f.m.fs, n, i) && f.m.fs.files[i] == File(payload, true))
  {
    hide Shadows, Sound, Private, Transfer;
    TransferFills(m, n, i, payload, 0, backups);
    var t := Transfer(m, i, payload, 0);
    if t.Go? {
      ShadowsSound(m.fs, t.m.fs, backups);
      ChangedFile(t.m.fs, n, i, File(DataOf(t.m.fs, i), true), backups);
      var g := FileSynced(t.m.fs, i);
      ShadowsTransitive(m.fs, t.m.fs, g, backups);
    }
  }

  lemma RemoveKeeps(m: Machine, n: Name, backups: set<string>)
    requires Sound(m.fs, backups) && !n.Plain?
    ensures var f := RemoveDurably(m, n);
            && Keeps(m.fs, f, backups)
            && (f.Go? ==> f.m.fs.entries == m.fs.entries - {n} && Outlooks(f.m.fs) == {Now(m.fs)})
  {
    hide Sound, Outlooks, Contents, VersionSound;
    UnlinkedStaging(m.fs, n, backups);
    Reflexive(m.fs, backups);
    var c := if n in m.fs.entries then Call(m, Unlinked(m.fs, n)) else Go(m);
    var g := c.m.fs;
    DirSyncedShadows(g, backups);
    ShadowsTransitive(m.fs, g, DirSynced(g), backups);
    assert Now(g) == Now(m.fs);
  }

  lemma OpenKeeps(m: Machine, n: Name, backups: set<string>)
    requires Sound(m.fs, backups) && MayStage(m.fs, n, backups)
    ensures var f := Open(m, n);
            && Keeps(m.fs, f, backups)
            && (f.Go? ==> Private(f.m.fs, n, m.fs.next) && f.m.fs.entries == m.fs.entries[n := m.fs.next]
                          && DataOf(f.m.fs, m.fs.next) == [])
  {
    hide Shadows, Private, Sound;
    Reflexive(m.fs, backups);
    if n !in m.fs.entries {
      CreatedShadows(m.fs, n, backups);
    }
  }

  lemma CleanedChanges(fs: Fs, f: Flow, n: Name, after: map<string, Bytes>, backups: set<string>)
    requires Changes(fs, f, after, backups) && !n.Plain?
    ensures Changes(fs, Cleaned(f, n), after, backups)
    ensures Cleaned(f, n).Go? ==> Cleaned(f, n) == f
  {
    if f.Raised? {
      RemoveKeeps(f.m, n, backups);
    }
    hide Sound, Outlooks, Contents;
  }

  lemma KeepsChanges(fs: Fs, f: Flow, after: map<string, Bytes>, backups: set<string>)
    requires Keeps(fs, f, backups) && !f.Go?
    ensures Changes(fs, f, after, backups)
  {
  }

  lemma ChangesFrom(fs: Fs, g: Fs, f: Flow, after: map<string, Bytes>, backups: set<string>)
    requires Shadows(fs, g, backups) && Changes(g, f, after, backups)
    ensures Changes(fs, f, after, backups)
  {
  }

  // --------------------------------------------------------- atomic writes

  /** Nothing changed, or the staging file has become the target. */
  ghost predicate Published(fs: Fs, f: Flow, target: string, payload: Bytes, backups: set<string>) {
    if f.Go? then
      && Sound(f.m.fs, backups) && Now(f.m.fs) == Now(fs)[target := payload]
      && Outlooks(f.m.fs) <= Outlooks(fs) + {Now(fs)[target := payload]}
      && Plain(target) in f.m.fs.entries && PrivateStaging(target) !in f.m.fs.entries
    else Keeps(fs, f, backups)
  }

  lemma RenameCall(fs: Fs, m: Machine, target: string, payload: Bytes, backups: set<string>)
    requires Shadows(fs, m.fs, backups) && PrivateStaging(target) in m.fs.entries
    requires m.fs.entries[PrivateStaging(target)] in m.fs.files
    requires m.fs.files[m.fs.entries[PrivateStaging(target)]] == File(payload, true)
    ensures Published(fs, Call(m, Renamed(m.fs, PrivateStaging(target), Plain(target))), target, payload, backups)
  {
    RenamedInstalls(m.fs, target, payload, backups);
    hide Sound, Outlooks, Contents, VersionSound, Renamed, Now;
  }

  /** Before the rename nothing changed, after it the whole payload is there. */
  lemma PublishChanges(m: Machine, target: string, payload: Bytes, backups: set<string>)
    requires Sound(m.fs, backups) && PrivateStaging(target) in m.fs.entries
    requires Private(m.fs, PrivateStaging(target), m.fs.entries[PrivateStaging(target)])
    requires DataOf(m.fs, m.fs.entries[PrivateStaging(target)]) == []
    ensures Published(m.fs, Publish(m, target, payload), target, payload, backups)
  {
    var n := PrivateStaging(target);
    var i := m.fs.entries[n];
    StageFills(m, n, i, payload, backups);
    var s := Stage(m, i, payload);
    hide Sound, Stage, Renamed, Shadows;
    if s.Go? {
      hide Published;
      RenameCall(m.fs, s.m, target, payload, backups);
    }
  }

  lemma SyncCall(fs: Fs, m: Machine, backups: set<string>)
    requires Shadows(fs, m.fs, backups)
    ensures var f := Call(m, DirSynced(m.fs));
            && Keeps(fs, f, backups) && f.m.fs.entries == m.fs.entries
            && (f.Go? ==> Outlooks(f.m.fs) == {Now(fs)})
  {
    hide Sound, Outlooks, Now, Contents;
    DirSyncedShadows(m.fs, backups);
    ShadowsTransitive(fs, m.fs, DirSynced(m.fs), backups);
    assert Now(m.fs) == Now(fs);
    hide Shadows;
  }

  lemma SettleChanges(m: Machine, target: string, backups: set<string>)
    requires Sound(m.fs, backups) && Plain(target) in m.fs.entries
    ensures var f := Settle(m, target);
            && Keeps(m.fs, f, backups)
            && f.m.fs.entries == m.fs.entries
            && (f.Go? ==> Outlooks(f.m.fs) == {Now(m.fs)})
  {
    var i := m.fs.entries[Plain(target)];
    assert i in m.fs.files;
    SyncedAgain(m.fs, i, backups);
    Reflexive(m.fs, backups);
    var c := Call(m, FileSynced(m.fs, i));
    hide Sound, Outlooks, Shadows, Now, FileSynced, DirSynced;
    if c.Go? {
      SyncCall(m.fs, c.m, backups);
    }
  }

  lemma AtomicWriteBegun(m: Machine, target: string, payload: Bytes, backups: set<string>)
    requires Sound(m.fs, backups) && PrivateStaging(target) in m.fs.entries
    requires Private(m.fs, PrivateStaging(target), m.fs.entries[PrivateStaging(target)])
    requires DataOf(m.fs, m.fs.entries[PrivateStaging(target)]) == []
    ensures var p := Cleaned(Publish(m, target, payload), PrivateStaging(target));
            var f := if p.Go? then Settle(p.m, target) else p;
            && Changes(m.fs, f, Now(m.fs)[target := payload], backups)
            && (f.Go? ==> PrivateStaging(target) !in f.m.fs.entries)
  {
    PublishChanges(m, target, payload, backups);
    var p := Publish(m, target, payload);
    var after := Now(m.fs)[target := payload];
    hide Publish, Settle, Sound, Outlooks, Contents, Private;
    if p.Go? {
      SettleChanges(p.m, target, backups);
    } else {
      KeepsChanges(m.fs, p, after, backups);
      CleanedChanges(m.fs, p, PrivateStaging(target), after, backups);
    }
  }

  /** At every cut of an atomic write the target reads as the whole old or the whole new bytes. */
  lemma AtomicWriteChanges(m: Machine, target: string, payload: Bytes, backups: set<string>)
    requires Sound(m.fs, backups) && target !in backups
    ensures Changes(m.fs, AtomicWrite(m, target, payload), Now(m.fs)[target := payload], backups)
    ensures AtomicWrite(m, target, payload).Go? ==>
              PrivateStaging(target) !in AtomicWrite(m, target, payload).m.fs.entries
  {
    var n := PrivateStaging(target);
    OpenKeeps(m, n, backups);
    var o := Open(m, n);
    var after := Now(m.fs)[target := payload];
    hide Open, Publish, Settle, Sound, Outlooks, Contents, Private, Cleaned;
    if o.Go? {
      AtomicWriteBegun(o.m, target, payload, backups);
      var f := AtomicWrite(m, target, payload);
      ChangesFrom(m.fs, o.m.fs, f, after, backups);
    } else {
      KeepsChanges(m.fs, o, after, backups);
    }
  }

  // ------------------------------------------------------------ snapshots

  lemma LinkedPart(m: Machine, backup: string, payload: Bytes, backups: set<string>)
    requires Sound(m.fs, backups) && Plain(backup) !in m.fs.entries && SnapshotStaging(backup) in m.fs.entries
    requires Private(m.fs, SnapshotStaging(backup), m.fs.entries[SnapshotStaging(backup)])
    requires m.fs.files[m.fs.entries[SnapshotStaging(backup)]] == File(payload, true)
    ensures var i := m.fs.entries[SnapshotStaging(backup)];
            var l := Call(m, Linked(m.fs, Plain(backup), i));
            var d := if l.Go? then Call(l.m, DirSynced(l.m.fs)) else l;
            var f := if d.Go? then RemoveDurably(d.m, SnapshotStaging(backup)) else d;
            && Changes(m.fs, f, Now(m.fs)[backup := payload], backups)
            && (f.Go? ==> SnapshotStaging(backup) !in f.m.fs.entries)
  {
    hide Sound, Outlooks, Contents, VersionSound, Private, RemoveDurably, Linked;
    var i := m.fs.entries[SnapshotStaging(backup)];
    LinkedInstalls(m.fs, backup, payload, backups);
    var g := Linked(m.fs, Plain(backup), i);
    DirSyncedShadows(g, backups);
    var l := Call(m, g);
    if l.Go? {
      var d := Call(l.m, DirSynced(g));
      if d.Go? {
        RemoveKeeps(d.m, SnapshotStaging(backup), backups);
      }
    }
  }

  lemma CaptureChanges(m: Machine, backup: string, payload: Bytes, backups: set<string>)
    requires Sound(m.fs, backups) && Plain(backup) !in m.fs.entries && SnapshotStaging(backup) in m.fs.entries
    requires Private(m.fs, SnapshotStaging(backup), m.fs.entries[SnapshotStaging(backup)])
    requires DataOf(m.fs, m.fs.entries[SnapshotStaging(backup)]) == []
    ensures var f := Capture(m, backup, payload);
            && Changes(m.fs, f, Now(m.fs)[backup := payload], backups)
            && (f.Go? ==> SnapshotStaging(backup) !in f.m.fs.entries)
  {
    var n := SnapshotStaging(backup);
    var i := m.fs.entries[n];
    var after := Now(m.fs)[backup := payload];
    StageFills(m, n, i, payload, backups);
    var s := Stage(m, i, payload);
    hide Sound, Outlooks, Contents, Private, Stage, RemoveDurably, Linked, DirSynced;
    if s.Go? {
      LinkedPart(s.m, backup, payload, backups);
      ChangesFrom(m.fs, s.m.fs, Capture(m, backup, payload), after, backups);
    } else {
      KeepsChanges(m.fs, s, after, backups);
    }
  }

  lemma SnapshotBegun(m: Machine, backup: string, payload: Bytes, backups: set<string>)
    requires Sound(m.fs, backups) && backup in backups && Plain(backup) !in m.fs.entries
    ensures var staging := SnapshotStaging(backup);
            var o := Open(m, staging);
            var f := if !o.Go? then o else
                     Cleaned(if staging in o.m.fs.entries then Capture(o.m, backup, payload)
                             else Raised(o.m, false), staging);
            && Changes(m.fs, f, Now(m.fs)[backup := payload], backups)
            && (f.Go? ==> SnapshotStaging(backup) !in f.m.fs.entries)
  {
    var n := SnapshotStaging(backup);
    var after := Now(m.fs)[backup := payload];
    OpenKeeps(m, n, backups);
    var o := Open(m, n);
    hide Open, Capture, Sound, Outlooks, Contents, Private, Cleaned;
    if o.Go? {
      CaptureChanges(o.m, backup, payload, backups);
      var c := Capture(o.m, backup, payload);
      CleanedChanges(o.m.fs, c, n, after, backups);
      ChangesFrom(m.fs, o.m.fs, Cleaned(c, n), after, backups);
    } else {
      KeepsChanges(m.fs, o, after, backups);
    }
  }

  lemma ReadsNow(fs: Fs, t: string)
    ensures t in Now(fs) <==> Plain(t) in fs.entries
    ensures t in Now(fs) ==> Now(fs)[t] == DataOf(fs, fs.entries[Plain(t)])
  {
  }

  /** At every cut of a snapshot the backup is absent or a complete copy of the source. */
  lemma SnapshotChanges(m: Machine, source: string, backup: string, backups: set<string>)
    requires Sound(m.fs, backups) && backup in backups
    ensures source in Now(m.fs) && backup !in Now(m.fs) ==>
              Changes(m.fs, Snapshot(m, source, backup), Now(m.fs)[backup := Now(m.fs)[source]], backups)
    ensures !(source in Now(m.fs) && backup !in Now(m.fs)) ==>
              Snapshot(m, source, backup) == Raised(m, false)
    ensures Snapshot(m, source, backup).Go? ==>
              SnapshotStaging(backup) !in Snapshot(m, source, backup).m.fs.entries
  {
    ReadsNow(m.fs, source);
    ReadsNow(m.fs, backup);
    if source in Now(m.fs) && backup !in Now(m.fs) {
      var n := SnapshotStaging(backup);
      var payload := Now(m.fs)[source];
      var after := Now(m.fs)[backup := payload];
      RemoveKeeps(m, n, backups);
      Reflexive(m.fs, backups);
      var r := if n in m.fs.entries then RemoveDurably(m, n) else Go(m);
      hide RemoveDurably, Capture, Sound, Outlooks, Contents, Private, Cleaned, Open;
      if r.Go? {
        SnapshotBegun(r.m, backup, payload, backups);
        ChangesFrom(m.fs, r.m.fs, Snapshot(m, source, backup), after, backups);
      } else {
        KeepsChanges(m.fs, r, after, backups);
      }
    }
  }

  /** A staging entry found beside its backup is the same file, so clearing it never meets a conflict. */
  lemma CleanKeeps(m: Machine, backup: string, backups: set<string>)
    requires Sound(m.fs, backups)
    ensures var f := CleanSnapshotStaging(m, backup);
            && Keeps(m.fs, f, backups)
            && (f.Go? ==> f.m.fs.entries == m.fs.entries - {SnapshotStaging(backup)})
            && (f.Go? && SnapshotStaging(backup) in m.fs.entries ==> Outlooks(f.m.fs) == {Now(m.fs)})
  {
    var n := SnapshotStaging(backup);
    if n in m.fs.entries {
      assert Plain(backup) in m.fs.entries ==> m.fs.entries[Plain(backup)] == m.fs.entries[n];
      hide Sound, Outlooks, Shadows, RemoveDurably;
      RemoveKeeps(m, n, backups);
    } else {
      hide Sound, Outlooks, Shadows, RemoveDurably;
      Reflexive(m.fs, backups);
      assert m.fs.entries - {n} == m.fs.entries;
    }
  }

  /** Without its snapshot staging entry every file has a single name. */
  lemma OneName(fs: Fs, t: string, backups: set<string>)
    requires Sound(fs, backups) && Plain(t) in fs.entries && SnapshotStaging(t) !in fs.entries
    ensures SingleLink(fs.entries, Plain(t))
  {
    forall o | o in fs.entries && o != Plain(t) ensures fs.entries[o] != fs.entries[Plain(t)] {
      match o
      case Plain(_) =>
      case PrivateStaging(_) =>
      case SnapshotStaging(_) =>
    }
  }

  lemma SecureReadKeeps(m: Machine, t: string, backups: set<string>)
    requires Sound(m.fs, backups) && SnapshotStaging(t) !in m.fs.entries
    ensures Keeps(m.fs, SecureRead(m, Plain(t)), backups)
    ensures SecureRead(m, Plain(t)).Go? ==> Plain(t) in m.fs.entries && SecureRead(m, Plain(t)).m.fs == m.fs
    ensures Plain(t) !in m.fs.entries ==> SecureRead(m, Plain(t)) == Raised(m, false)
  {
    Reflexive(m.fs, backups);
    if Plain(t) in m.fs.entries {
      OneName(m.fs, t, backups);
    }
  }

  // ------------------------------------------------------------- restores

  /** A restore leaves the target as it was or exactly as the backup, and the backup untouched. */
  lemma RestoreChanges(m: Machine, backup: string, target: string, backups: set<string>)
    requires Sound(m.fs, backups) && target !in backups
    ensures backup in Now(m.fs) ==>
              Changes(m.fs, Restore(m, backup, target), Now(m.fs)[target := Now(m.fs)[backup]], backups)
    ensures backup !in Now(m.fs) ==>
              Keeps(m.fs, Restore(m, backup, target), backups) && !Restore(m, backup, target).Go?
  {
    ReadsNow(m.fs, backup);
    CleanKeeps(m, backup, backups);
    var c := CleanSnapshotStaging(m, backup);
    var f := Restore(m, backup, target);
    hide CleanSnapshotStaging, AtomicWrite, SecureRead;
    if c.Go? {
      SecureReadKeeps(c.m, backup, backups);
      var r := SecureRead(c.m, Plain(backup));
      ReadsNow(c.m.fs, backup);
      hide Sound, Outlooks, Contents;
      if r.Go? {
        var payload := DataOf(r.m.fs, r.m.fs.entries[Plain(backup)]);
        AtomicWriteChanges(r.m, target, payload, backups);
        ChangesFrom(m.fs, r.m.fs, f, Now(m.fs)[target := payload], backups);
      } else if backup in Now(m.fs) {
        ShadowsTransitive(m.fs, c.m.fs, r.m.fs, backups);
        KeepsChanges(m.fs, r, Now(m.fs)[target := Now(m.fs)[backup]], backups);
      }
    } else if backup in Now(m.fs) {
      KeepsChanges(m.fs, c, Now(m.fs)[target := Now(m.fs)[backup]], backups);
    }
  }

  lemma DiscardKeeps(m: Machine, target: string, backups: set<string>)
    requires Sound(m.fs, backups)
    ensures Keeps(m.fs, DiscardPrivateStaging(m, target), backups)
    ensures DiscardPrivateStaging(m, target).Go? ==>
              PrivateStaging(target) !in DiscardPrivateStaging(m, target).m.fs.entries
  {
    Reflexive(m.fs, backups);
    RemoveKeeps(m, PrivateStaging(target), backups);
    hide RemoveDurably;
  }

  // -------------------------------------------------------------- removal

  lemma UnlinkPart(m: Machine, target: string, backups: set<string>)
    requires Sound(m.fs, backups)
    ensures var u := Call(m, Unlinked(m.fs, Plain(target)));
            var f := if u.Go? then Call(u.m, DirSynced(u.m.fs)) else u;
            Changes(m.fs, f, Now(m.fs) - {target}, backups)
  {
    hide Sound, Outlooks, Contents, VersionSound;
    Reflexive(m.fs, backups);
    UnlinkedPlain(m.fs, target, backups);
    var g := Unlinked(m.fs, Plain(target));
    DirSyncedShadows(g, backups);
  }

  /** A present file is removed for good or still whole; for an absent one nothing is changed or synced. */
  lemma DurableUnlinkChanges(m: Machine, target: string, backups: set<string>)
    requires Sound(m.fs, backups)
    ensures target in Now(m.fs) ==> Changes(m.fs, DurableUnlink(m, target), Now(m.fs) - {target}, backups)
    ensures target !in Now(m.fs) ==> Keeps(m.fs, DurableUnlink(m, target), backups)
    ensures target !in Now(m.fs) && SnapshotStaging(target) !in m.fs.entries ==>
              DurableUnlink(m, target) == Go(m)
    ensures target !in Now(m.fs) && SnapshotStaging(target) in m.fs.entries && DurableUnlink(m, target).Go? ==>
              Outlooks(DurableUnlink(m, target).m.fs) == {Now(m.fs)}
  {
    ReadsNow(m.fs, target);
    CleanKeeps(m, target, backups);
    var c := CleanSnapshotStaging(m, target);
    var f := DurableUnlink(m, target);
    assert SnapshotStaging(target) !in m.fs.entries ==> c == Go(m);
    hide CleanSnapshotStaging, Unlinked, DirSynced;
    if target in Now(m.fs) {
      if c.Go? {
        OneName(c.m.fs, target, backups);
        UnlinkPart(c.m, target, backups);
        hide Sound, Outlooks, Contents;
        ChangesFrom(m.fs, c.m.fs, f, Now(m.fs) - {target}, backups);
      } else {
        KeepsChanges(m.fs, c, Now(m.fs) - {target}, backups);
      }
    }
  }

  /** The target is absent, and no power loss brings it back. */
  ghost predicate Gone(fs: Fs, target: string) {
    forall o :: o in Outlooks(fs) ==> target !in o
  }

  lemma GoneFor(fs: Fs, target: string, now: map<string, Bytes>)
    requires Outlooks(fs) == {now} && target !in now
    ensures Gone(fs, target)
  {
    hide Outlooks;
  }

  /** A completed removal is final exactly when it found something to remove or no earlier version could come back. */
  lemma RemovalIsFinalExactly(m: Machine, target: string, backups: set<string>)
    requires Sound(m.fs, backups) && DurableUnlink(m, target).Go?
    ensures Gone(DurableUnlink(m, target).m.fs, target) <==>
            Plain(target) in m.fs.entries || SnapshotStaging(target) in m.fs.entries || Gone(m.fs, target)
  {
    hide DurableUnlink, Sound, Outlooks, Contents, Keeps, Now, Gone;
    DurableUnlinkChanges(m, target, backups);
    ReadsNow(m.fs, target);
    var g := DurableUnlink(m, target).m.fs;
    if Plain(target) in m.fs.entries {
      GoneFor(g, target, Now(m.fs) - {target});
    } else if SnapshotStaging(target) in m.fs.entries {
      GoneFor(g, target, Now(m.fs));
    }
  }

  /** A removal whose directory sync failed, asked for again, reports success while a power loss still undoes it. */
  lemma RepeatedRemovalIsNotFinal(target: string, data: Bytes)
    ensures var v := map[Plain(target) := 0];
            var fs := Fs(map[0 := File(data, true)], v, {}, 1);
            var first := DurableUnlink(Machine(fs, [Success, Failure]), target);
            var again := DurableUnlink(Machine(first.m.fs, []), target);
            && Sound(fs, {}) && first.Raised? && again.Go?
            && PowerLoss(again.m.fs, fs) && target in Now(fs)
  {
    var v := map[Plain(target) := 0];
    var fs := Fs(map[0 := File(data, true)], v, {}, 1);
    assert SingleLink(v, Plain(target));
    ReadsNow(fs, target);
    var m := Machine(fs, [Success, Failure]);
    var u := Call(m, Unlinked(fs, Plain(target)));
    assert u == Go(Machine(Unlinked(fs, Plain(target)), [Failure]));
    assert Call(u.m, DirSynced(u.m.fs)) == Raised(Machine(Unlinked(fs, Plain(target)), []), false);
  }
}
