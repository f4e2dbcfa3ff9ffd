/** What every cut of every private-file operation leaves: whole files, paired snapshots, no conflicts. */
module StoreLaws {
  import opened StoreModel

  // ------------------------------------------------------------ invariant

  /**
   * One directory version: files exist and are synced under their own names, two names share a file
   * exactly when they are a backup and its snapshot staging entry, and staging entries sit beside the
   * right kind of target. `backups` are the names written by snapshots only.
   */
  ghost predicate VersionSound(v: Version, files: map<nat, File>, next: nat, backups: set<string>) {
    && (forall n :: n in v ==> v[n] in files && v[n] < next)
    && (forall t :: Plain(t) in v ==> files[v[Plain(t)]].synced)
    && (forall b :: Plain(b) in v && SnapshotStaging(b) in v ==> v[Plain(b)] == v[SnapshotStaging(b)])
    && (forall n, o :: n in v && o in v && n != o && v[n] == v[o] ==>
          n.target == o.target && !n.PrivateStaging? && !o.PrivateStaging?)
    && (forall n :: n in v && n.SnapshotStaging? ==> n.target in backups)
    && (forall n :: n in v && n.PrivateStaging? ==> n.target !in backups)
  }

  ghost predicate Sound(fs: Fs, backups: set<string>) {
    && VersionSound(fs.entries, fs.files, fs.next, backups)
    && forall v :: v in fs.earlier ==> VersionSound(v, fs.files, fs.next, backups)
  }

  /** Nothing a file reads as, now or after a power loss, has changed. */
  ghost predicate Shadows(fs: Fs, g: Fs, backups: set<string>) {
    && Sound(g, backups)
    && Now(g) == Now(fs)
    && Outlooks(g) <= Outlooks(fs)
  }

  /** File `i` is reachable under the name `n` alone, in every version. */
  ghost predicate Private(fs: Fs, n: Name, i: nat) {
    && n in fs.entries && fs.entries[n] == i && i in fs.files
    && (forall o :: o in fs.entries && fs.entries[o] == i ==> o == n)
    && (forall v, o :: v in fs.earlier && o in v && v[o] == i ==> o == n)
  }

  // ---------------------------------------------------------- power losses

  lemma SameContents(fs: Fs, g: Fs, v: Version)
    requires forall t :: Plain(t) in v ==> DataOf(fs, v[Plain(t)]) == DataOf(g, v[Plain(t)])
    ensures Contents(fs, v) == Contents(g, v)
  {
  }

  lemma OutlookOf(fs: Fs, v: Version)
    requires v in fs.earlier + {fs.entries}
    ensures Contents(fs, v) in Outlooks(fs)
  {
  }

  lemma PowerLossSound(fs: Fs, g: Fs, backups: set<string>)
    requires Sound(fs, backups) && PowerLoss(fs, g)
    ensures Sound(g, backups)
  {
    var v := g.entries;
    assert VersionSound(v, fs.files, fs.next, backups);
    assert VersionSound(v, g.files, g.next, backups);
  }

  lemma PowerLossKeepsData(fs: Fs, g: Fs, backups: set<string>, t: string)
    requires Sound(fs, backups) && PowerLoss(fs, g) && Plain(t) in g.entries
    ensures DataOf(fs, g.entries[Plain(t)]) == DataOf(g, g.entries[Plain(t)])
  {
    assert VersionSound(g.entries, fs.files, fs.next, backups);
  }

  lemma PowerLossShows(fs: Fs, g: Fs, backups: set<string>)
    requires Sound(fs, backups) && PowerLoss(fs, g)
    ensures Now(g) in Outlooks(fs) && Outlooks(g) == {Now(g)}
  {
    hide Sound, VersionSound, DataOf;
    var v := g.entries;
    forall t | Plain(t) in v ensures DataOf(fs, v[Plain(t)]) == DataOf(g, v[Plain(t)]) {
      PowerLossKeepsData(fs, g, backups, t);
    }
    SameContents(fs, g, v);
    hide Contents;
    OutlookOf(fs, v);
    assert g.earlier + {v} == {v};
    OutlookOf(g, v);
  }

  /** A power loss keeps the directory sound and shows the files as one of the outlooks. */
  lemma SurvivorsAreSound(fs: Fs, g: Fs, backups: set<string>)
    requires Sound(fs, backups) && Survives(fs, g)
    ensures Sound(g, backups)
    ensures Now(g) in Outlooks(fs) && Outlooks(g) <= Outlooks(fs)
  {
    hide Sound, Contents, PowerLoss, Outlooks;
    OutlookOf(fs, fs.entries);
    if g != fs {
      PowerLossSound(fs, g, backups);
      PowerLossShows(fs, g, backups);
    }
  }

  // ---------------------------------------------------- one call at a time

  lemma VersionSoundOver(v: Version, f: map<nat, File>, n: nat, g: map<nat, File>, m: nat, backups: set<string>)
    requires VersionSound(v, f, n, backups) && n <= m
    requires forall i :: i in f ==> i in g
    requires forall t :: Plain(t) in v ==> g[v[Plain(t)]].synced
    ensures VersionSound(v, g, m, backups)
  {
  }

  lemma ChangedFile(fs: Fs, n: Name, i: nat, file: File, backups: set<string>)
    requires Sound(fs, backups) && Private(fs, n, i) && !n.Plain?
    ensures Shadows(fs, fs.(files := fs.files[i := file]), backups)
    ensures Private(fs.(files := fs.files[i := file]), n, i)
  {
    var g := fs.(files := fs.files[i := file]);
    forall v | v in fs.earlier + {fs.entries}
      ensures VersionSound(v, g.files, g.next, backups) && Contents(g, v) == Contents(fs, v)
    {
      assert VersionSound(v, fs.files, fs.next, backups);
      forall t | Plain(t) in v ensures v[Plain(t)] != i {
      }
      VersionSoundOver(v, fs.files, fs.next, g.files, g.next, backups);
      SameContents(fs, g, v);
    }
  }

  lemma SyncedAgain(fs: Fs, i: nat, backups: set<string>)
    requires Sound(fs, backups) && i in fs.files
    ensures Shadows(fs, FileSynced(fs, i), backups)
    ensures FileSynced(fs, i).entries == fs.entries
  {
    var g := FileSynced(fs, i);
    forall v | v in fs.earlier + {fs.entries}
      ensures VersionSound(v, g.files, g.next, backups) && Contents(g, v) == Contents(fs, v)
    {
      assert VersionSound(v, fs.files, fs.next, backups);
      VersionSoundOver(v, fs.files, fs.next, g.files, g.next, backups);
      SameContents(fs, g, v);
    }
  }

  /** Moving the directory to a sound version adds only that version's reading. */
  lemma MovedOutlooks(fs: Fs, entries: Version, backups: set<string>)
    requires Sound(fs, backups) && VersionSound(entries, fs.files, fs.next, backups)
    ensures Sound(Moved(fs, entries), backups)
    ensures Now(Moved(fs, entries)) == Contents(fs, entries)
    ensures Outlooks(Moved(fs, entries)) <= Outlooks(fs) + {Contents(fs, entries)}
  {
    var g := Moved(fs, entries);
    forall v | v in g.earlier + {g.entries}
      ensures Contents(g, v) == Contents(fs, v)
      ensures Contents(g, v) in Outlooks(fs) + {Contents(fs, entries)}
    {
      SameContents(fs, g, v);
      if v != entries {
        OutlookOf(fs, v);
      }
    }
  }

  lemma ContentsAgree(fs: Fs, v: Version, w: Version)
    requires forall t :: Plain(t) in v <==> Plain(t) in w
    requires forall t :: Plain(t) in v ==> v[Plain(t)] == w[Plain(t)]
    ensures Contents(fs, v) == Contents(fs, w)
  {
  }

  lemma ContentsWith(fs: Fs, v: Version, w: Version, target: string)
    requires forall t :: Plain(t) in w <==> Plain(t) in v || t == target
    requires forall t :: Plain(t) in w && t != target ==> w[Plain(t)] == v[Plain(t)]
    ensures Contents(fs, w) == Contents(fs, v)[target := DataOf(fs, w[Plain(target)])]
  {
  }

  lemma ContentsWithout(fs: Fs, v: Version, target: string)
    ensures Contents(fs, v - {Plain(target)}) == Contents(fs, v) - {target}
  {
    var w := v - {Plain(target)};
    assert forall t :: Plain(t) in w <==> Plain(t) in v && t != target;
  }

  lemma MovedStaging(fs: Fs, entries: Version, backups: set<string>)
    requires Sound(fs, backups) && VersionSound(entries, fs.files, fs.next, backups)
    requires forall t :: Plain(t) in entries <==> Plain(t) in fs.entries
    requires forall t :: Plain(t) in entries ==> entries[Plain(t)] == fs.entries[Plain(t)]
    ensures Shadows(fs, Moved(fs, entries), backups)
  {
    hide Sound, VersionSound, Contents, Outlooks, Moved;
    MovedOutlooks(fs, entries, backups);
    ContentsAgree(fs, entries, fs.entries);
    OutlookOf(fs, fs.entries);
  }

  predicate MayStage(fs: Fs, n: Name, backups: set<string>) {
    match n
    case PrivateStaging(t) => t !in backups
    case SnapshotStaging(b) => b in backups && Plain(b) !in fs.entries
    case Plain(_) => false
  }

  /** A file not yet in any version. */
  lemma GrownShadows(fs: Fs, backups: set<string>)
    requires Sound(fs, backups)
    ensures var grown := fs.(files := fs.files[fs.next := File([], false)], next := fs.next + 1);
            Shadows(fs, grown, backups)
    ensures forall v, o :: v in fs.earlier + {fs.entries} && o in v ==> v[o] != fs.next
  {
    var grown := fs.(files := fs.files[fs.next := File([], false)], next := fs.next + 1);
    forall v | v in fs.earlier + {fs.entries}
      ensures VersionSound(v, grown.files, grown.next, backups) && Contents(grown, v) == Contents(fs, v)
      ensures forall o :: o in v ==> v[o] != fs.next
    {
      assert VersionSound(v, fs.files, fs.next, backups);
      VersionSoundOver(v, fs.files, fs.next, grown.files, grown.next, backups);
      SameContents(fs, grown, v);
    }
  }

  lemma CreatedPrivate(fs: Fs, n: Name)
    requires forall v, o :: v in fs.earlier + {fs.entries} && o in v ==> v[o] != fs.next
    ensures Private(Created(fs, n), n, fs.next)
  {
    assert forall o :: o in fs.entries ==> fs.entries[o] != fs.next;
  }

  lemma CreatedShadows(fs: Fs, n: Name, backups: set<string>)
    requires Sound(fs, backups) && MayStage(fs, n, backups) && n !in fs.entries
    ensures Shadows(fs, Created(fs, n), backups) && Private(Created(fs, n), n, fs.next)
  {
    hide Contents, Outlooks, VersionSound, Private, Now;
    GrownShadows(fs, backups);
    CreatedPrivate(fs, n);
    var grown := fs.(files := fs.files[fs.next := File([], false)], next := fs.next + 1);
    var entries := fs.entries[n := fs.next];
    assert forall o :: o in fs.entries ==> fs.entries[o] != fs.next;
    NewEntrySound(fs.entries, n, grown, fs.next, backups);
    assert Created(fs, n) == Moved(grown, entries);
    hide Moved, Created;
    MovedStaging(grown, entries, backups);
    ShadowsTransitive(fs, grown, Created(fs, n), backups);
  }

  lemma NewEntrySound(v: Version, n: Name, fs: Fs, i: nat, backups: set<string>)
    requires VersionSound(v, fs.files, fs.next, backups) && n !in v && !n.Plain?
    requires i in fs.files && i < fs.next && forall o :: o in v ==> v[o] != i
    requires match n
             case PrivateStaging(t) => t !in backups
             case SnapshotStaging(b) => b in backups && Plain(b) !in v
             case Plain(_) => false
    ensures VersionSound(v[n := i], fs.files, fs.next, backups)
  {
  }

  lemma WithoutSound(v: Version, n: Name, files: map<nat, File>, next: nat, backups: set<string>)
    requires VersionSound(v, files, next, backups)
    ensures VersionSound(v - {n}, files, next, backups)
  {
    var w := v - {n};
    assert forall o :: o in w ==> o in v && w[o] == v[o];
  }

  lemma UnlinkedStaging(fs: Fs, n: Name, backups: set<string>)
    requires Sound(fs, backups) && !n.Plain?
    ensures Shadows(fs, Unlinked(fs, n), backups)
  {
    WithoutSound(fs.entries, n, fs.files, fs.next, backups);
    MovedStaging(fs, fs.entries - {n}, backups);
  }

  lemma DirSyncedShadows(fs: Fs, backups: set<string>)
    requires Sound(fs, backups)
    ensures Shadows(fs, DirSynced(fs), backups)
    ensures Outlooks(DirSynced(fs)) == {Now(fs)}
  {
    var g := DirSynced(fs);
    SameContents(fs, g, fs.entries);
    OutlookOf(fs, fs.entries);
    assert g.earlier + {g.entries} == {g.entries};
  }

  lemma RenamedSound(v: Version, target: string, files: map<nat, File>, next: nat, backups: set<string>)
    requires VersionSound(v, files, next, backups)
    requires PrivateStaging(target) in v && files[v[PrivateStaging(target)]].synced
    ensures var w := (v - {PrivateStaging(target)})[Plain(target) := v[PrivateStaging(target)]];
            VersionSound(w, files, next, backups)
  {
    var n, o := PrivateStaging(target), Plain(target);
    var i := v[n];
    var w := v - {n};
    WithoutSound(v, n, files, next, backups);
    assert target !in backups;
    assert forall p :: p in w ==> w[p] == v[p] && w[p] != i;
    assert SnapshotStaging(target) !in w;
  }

  /** Renaming a finished staging file over its target changes that one file, as a whole. */
  lemma RenamedInstalls(fs: Fs, target: string, payload: Bytes, backups: set<string>)
    requires Sound(fs, backups)
    requires PrivateStaging(target) in fs.entries
    requires fs.files[fs.entries[PrivateStaging(target)]] == File(payload, true)
    ensures var g := Renamed(fs, PrivateStaging(target), Plain(target));
            && Sound(g, backups)
            && Now(g) == Now(fs)[target := payload]
            && Outlooks(g) <= Outlooks(fs) + {Now(fs)[target := payload]}
            && PrivateStaging(target) !in g.entries && Plain(target) in g.entries
  {
    var n, o := PrivateStaging(target), Plain(target);
    var entries := (fs.entries - {n})[o := fs.entries[n]];
    RenamedSound(fs.entries, target, fs.files, fs.next, backups);
    ContentsWith(fs, fs.entries, entries, target);
    MovedOutlooks(fs, entries, backups);
    hide VersionSound, Contents, Outlooks;
  }

  /** Linking a finished snapshot under its backup name makes it appear complete, beside its staging entry. */
  lemma LinkedInstalls(fs: Fs, backup: string, payload: Bytes, backups: set<string>)
    requires Sound(fs, backups) && Plain(backup) !in fs.entries
    requires SnapshotStaging(backup) in fs.entries
    requires Private(fs, SnapshotStaging(backup), fs.entries[SnapshotStaging(backup)])
    requires fs.files[fs.entries[SnapshotStaging(backup)]] == File(payload, true)
    ensures var g := Linked(fs, Plain(backup), fs.entries[SnapshotStaging(backup)]);
            && Sound(g, backups)
            && Now(g) == Now(fs)[backup := payload]
            && Outlooks(g) <= Outlooks(fs) + {Now(fs)[backup := payload]}
  {
    var i := fs.entries[SnapshotStaging(backup)];
    var entries := fs.entries[Plain(backup) := i];
    assert VersionSound(entries, fs.files, fs.next, backups);
    ContentsWith(fs, fs.entries, entries, backup);
    MovedOutlooks(fs, entries, backups);
    hide VersionSound, Contents, Outlooks;
  }

  lemma UnlinkedPlain(fs: Fs, target: string, backups: set<string>)
    requires Sound(fs, backups)
    ensures var g := Unlinked(fs, Plain(target));
            && Sound(g, backups)
            && Now(g) == Now(fs) - {target}
            && Outlooks(g) <= Outlooks(fs) + {Now(fs) - {target}}
  {
    var entries := fs.entries - {Plain(target)};
    WithoutSound(fs.entries, Plain(target), fs.files, fs.next, backups);
    ContentsWithout(fs, fs.entries, target);
    MovedOutlooks(fs, entries, backups);
    hide VersionSound, Contents, Outlooks;
  }

  lemma ShadowsTransitive(fs: Fs, g: Fs, h: Fs, backups: set<string>)
    requires Shadows(fs, g, backups) && Shadows(g, h, backups)
    ensures Shadows(fs, h, backups)
  {
  }
}
