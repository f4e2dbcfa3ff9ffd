/** Static rotation is undone or checked: what every cut of a rotation or a reconciliation leaves. */
module RotationLaws {
  import opened Wrappers
  import opened ProfileText
  import opened Rotation

  // ----------------------------------------------------------- one cut of a rotation

  /** The transaction a rotation runs: from profile `was` with stamp `stamp` to the candidate's endpoint. */
  datatype Job = Job(was: Profile, stamp: Option<nat>, candidate: string, speed: bool)

  function Target(job: Job): Profile {
    WithEndpoint(job.was, job.candidate)
  }

  /** Under the marker the backup is the profile before the rotation, and its endpoint is the marker. */
  predicate Pending(s: Setting, d: Disk, was: Profile) {
    d.marker.Some? && d.backup == Some(was) && ConfiguredEndpoint(s.canon, was) == d.marker
  }

  /** Without a marker nothing happened, or everything was undone, or the candidate passed every check. */
  predicate Closed(s: Setting, m: Machine, job: Job) {
    m.disk.marker.None? &&
    (|| (m.disk.profile == job.was && m.disk.stamp in {job.stamp, None})
     || (m.disk.profile == Target(job) && Check(Target(job), job.candidate, job.speed) in m.passed
         && m.disk.stamp == Some(s.now)))
  }

  predicate Safe(s: Setting, m: Machine, job: Job) {
    Closed(s, m, job) || (Pending(s, m.disk, job.was) && m.disk.profile in {job.was, Target(job)})
  }

  /** The candidate is in place, checked and stamped. */
  predicate Checked(s: Setting, m: Machine, job: Job) {
    && m.disk.profile == Target(job) && Check(Target(job), job.candidate, job.speed) in m.passed
    && m.disk.stamp == Some(s.now)
  }

  /** The old profile is back and the stamp is gone. */
  predicate Undone(m: Machine, was: Profile) {
    m.disk.profile == was && m.disk.stamp == None
  }

  predicate JobFits(s: Setting, job: Job) {
    && ConfiguredEndpoint(s.canon, job.was).Some?
    && s.canon(job.candidate) == Some(job.candidate)
  }

  // -------------------------------------------------------------- markers

  lemma PendingIsRead(s: Setting, d: Disk, was: Profile)
    requires Canonicalizes(s.canon) && Pending(s, d, was)
    ensures ReadPending(s, d) == d.marker
  {
  }

  /** Dropping the marker keeps the four files otherwise; it is gone, or back as it was. */
  lemma RemovePendingLaw(s: Setting, m: Machine, was: Profile)
    requires Canonicalizes(s.canon) && Pending(s, m.disk, was)
    ensures var f := RemovePending(s, m);
            && f.m.disk in {m.disk, m.disk.(marker := None)}
            && f.m.passed == m.passed
            && (f.Go? ==> f.m.disk == m.disk.(marker := None))
  {
    PendingIsRead(s, m.disk, was);
    var e := m.disk.marker.value;
    assert s.canon(e) == Some(e);
    hide ReadPending, ConfiguredEndpoint, Step, Barrier;
  }

  lemma BeginLaw(s: Setting, m: Machine, was: Profile)
    requires Canonicalizes(s.canon) && m.disk.marker.None? && m.disk.profile == was
    requires ConfiguredEndpoint(s.canon, was).Some?
    ensures var f := Begin(s, m, ConfiguredEndpoint(s.canon, was).value);
            && f.m.disk.profile == was && f.m.disk.stamp == m.disk.stamp && f.m.passed == m.passed
            && (f.m.disk.marker.None? || Pending(s, f.m.disk, was))
            && (f.Go? ==> Pending(s, f.m.disk, was))
  {
    var e := ConfiguredEndpoint(s.canon, was).value;
    assert s.canon(e) == Some(e);
    hide ConfiguredEndpoint, Step, Barrier;
    var b := BackupConfig(s, m);
    assert b.m.disk in {m.disk, m.disk.(backup := Some(was))};
    if b.Go? {
      hide BackupConfig;
      var w := WritePending(s, b.m, e);
      assert w.m.disk in {b.m.disk, b.m.disk.(marker := Some(e))};
    }
  }

  // ----------------------------------------------------------------- undo

  /** The undo's part before the marker goes: always still pending; complete, it has the old profile and no stamp. */
  lemma RestoredLaw(s: Setting, m: Machine, was: Profile, prior: string)
    requires Pending(s, m.disk, was)
    ensures var f := RestoreBackup(m);
            && f.m.disk in {m.disk, m.disk.(profile := was)} && f.m.passed == m.passed
            && (f.Go? ==> f.m.disk == m.disk.(profile := was))
  {
  }

  /** Undoing leaves the marker with its backup, or no marker with the old profile and no stamp. */
  predicate Undoing(s: Setting, m: Machine, f: Flow, was: Profile) {
    && (|| (Pending(s, f.m.disk, was) && f.m.disk.profile in {m.disk.profile, was})
        || (f.m.disk.marker.None? && Undone(f.m, was)))
    && f.m.passed >= m.passed
    && (f.Go? ==> f.m.disk.marker.None? && Undone(f.m, was))
  }

  lemma FinishUndo(s: Setting, m: Machine, was: Profile)
    requires Canonicalizes(s.canon) && Pending(s, m.disk, was) && Undone(m, was)
    ensures Undoing(s, m, Finish(s, m), was)
  {
    hide ConfiguredEndpoint, RemovePending, Reported, Barrier, ReadPending;
    var b := Barrier(m);
    if b.Go? {
      RemovePendingLaw(s, b.m, was);
    }
  }

  lemma DropAndFinish(s: Setting, m: Machine, was: Profile)
    requires Canonicalizes(s.canon) && Pending(s, m.disk, was) && m.disk.profile == was
    ensures var d := Reported(RemoveStamp(m));
            Undoing(s, m, if d.Go? then Finish(s, d.m) else d, was)
  {
    hide Reported, ConfiguredEndpoint, Finish, Step;
    var d := Reported(RemoveStamp(m));
    if d.Go? {
      FinishUndo(s, d.m, was);
    }
  }

  lemma RestartUndo(s: Setting, m: Machine, was: Profile, prior: string)
    requires Canonicalizes(s.canon) && Pending(s, m.disk, was) && m.disk.profile == was
    ensures Undoing(s, m, RestartAndFinish(s, m, prior), was)
  {
    hide Reported, ConfiguredEndpoint, Finish, Restart, RemoveStamp;
    var restart := Reported(Restart(s, m, prior, false));
    if restart.Go? {
      DropAndFinish(s, restart.m, was);
    }
  }

  lemma UndoLaw(s: Setting, m: Machine, was: Profile, prior: string)
    requires Canonicalizes(s.canon) && Pending(s, m.disk, was)
    ensures Undoing(s, m, Undo(s, m, prior), was)
  {
    hide Reported, ConfiguredEndpoint, RestartAndFinish, RestoreBackup;
    var restored := Reported(RestoreBackup(m));
    RestoredLaw(s, m, was, prior);
    if restored.Go? {
      RestartUndo(s, restored.m, was, prior);
    }
  }

  /** Reconciling a pending rotation restores exactly the backed-up profile; cut, it stays pending. */
  lemma ReconcileLaw(s: Setting, m: Machine, was: Profile)
    requires Canonicalizes(s.canon) && Pending(s, m.disk, was)
    ensures Undoing(s, m, Reconcile(s, m), was)
  {
    PendingIsRead(s, m.disk, was);
    UndoLaw(s, m, was, m.disk.marker.value);
    hide Undo, ConfiguredEndpoint;
  }

  /** Undisturbed, it completes. */
  lemma CalmReconcile(s: Setting, m: Machine, was: Profile)
    requires Canonicalizes(s.canon) && Pending(s, m.disk, was) && m.plan == []
    ensures Reconcile(s, m).Go?
  {
    PendingIsRead(s, m.disk, was);
    assert s.canon(m.disk.marker.value).Some?;
    var n := m.(disk := m.disk.(profile := was));
    assert RestoreBackup(m) == Go(n);
    var n2 := n.(passed := n.passed + {Check(was, m.disk.marker.value, false)});
    assert Restart(s, n, m.disk.marker.value, false) == Go(n2);
    var n3 := n2.(disk := n2.disk.(stamp := None));
    assert Pending(s, n3.disk, was);
    PendingIsRead(s, n3.disk, was);
    assert RemovePending(s, n3) == Go(n3.(disk := n3.disk.(marker := None)));
  }

  // ------------------------------------------------------------- rotation

  /** Under the marker: still pending, over the old profile or the candidate; complete, checked and stamped. */
  predicate Applying(s: Setting, f: Flow, job: Job) {
    && Pending(s, f.m.disk, job.was) && f.m.disk.profile in {job.was, Target(job)}
    && (f.Go? ==> Checked(s, f.m, job))
  }

  lemma SetEndpointLaw(s: Setting, m: Machine, job: Job)
    requires JobFits(s, job) && m.disk.profile == job.was
    ensures var f := SetEndpoint(s, m, job.candidate);
            && f.m.disk in {m.disk, m.disk.(profile := Target(job))}
            && (f.Go? ==> f.m.disk == m.disk.(profile := Target(job)))
  {
    hide ConfiguredEndpoint, SinglePeer, WithEndpoint, Step, Barrier;
  }

  lemma StampLaw(s: Setting, m: Machine, job: Job)
    requires Pending(s, m.disk, job.was) && m.disk.profile == Target(job)
    requires Check(Target(job), job.candidate, job.speed) in m.passed
    ensures var w := WriteStamp(s, m);
            Applying(s, if w.Go? then Barrier(w.m) else w, job)
  {
    hide ConfiguredEndpoint, Target, Step, Barrier;
  }

  lemma ApplyLaw(s: Setting, m: Machine, job: Job)
    requires Canonicalizes(s.canon) && JobFits(s, job) && Pending(s, m.disk, job.was) && m.disk.profile == job.was
    ensures Applying(s, Apply(s, m, job.candidate, job.speed), job)
  {
    hide ConfiguredEndpoint, Target, Restart, WriteStamp, Barrier, SetEndpoint;
    SetEndpointLaw(s, m, job);
    var a := SetEndpoint(s, m, job.candidate);
    assert Pending(s, a.m.disk, job.was);
    if a.Go? {
      var b := Restart(s, a.m, job.candidate, job.speed);
      if b.Go? {
        StampLaw(s, b.m, job);
      }
    }
  }

  lemma RolledBackLaw(s: Setting, f: Flow, job: Job, prior: string)
    requires Canonicalizes(s.canon) && Applying(s, f, job)
    ensures var r := RolledBack(s, f, prior);
            && (Applying(s, r, job) || (!r.Go? && Closed(s, r.m, job)))
            && (r.Go? ==> r == f)
  {
    hide ConfiguredEndpoint, WithEndpoint, Undo;
    if f.Raised? {
      UndoLaw(s, f.m, job.was, prior);
    }
  }

  lemma FinishLaw(s: Setting, m: Machine, job: Job)
    requires Canonicalizes(s.canon) && Pending(s, m.disk, job.was) && Checked(s, m, job)
    ensures var f := Reported(RemovePending(s, m));
            && Safe(s, f.m, job)
            && (f.Go? ==> f.m.disk.marker.None? && Checked(s, f.m, job))
  {
    RemovePendingLaw(s, m, job.was);
    hide ConfiguredEndpoint, WithEndpoint, RemovePending, Reported;
  }

  lemma TransactLaw(s: Setting, m: Machine, job: Job)
    requires Canonicalizes(s.canon) && JobFits(s, job)
    requires m.disk.marker.None? && m.disk.profile == job.was && m.disk.stamp == job.stamp
    ensures var f := Transact(s, m, ConfiguredEndpoint(s.canon, job.was).value, job.candidate, job.speed);
            && Safe(s, f.m, job)
            && (f.Go? ==> f.m.disk.marker.None? && Checked(s, f.m, job))
  {
    var prior := ConfiguredEndpoint(s.canon, job.was).value;
    var b := Begin(s, m, prior);
    BeginLaw(s, m, job.was);
    hide ConfiguredEndpoint, WithEndpoint, Begin, Reported, Apply, RolledBack, RemovePending;
    if b.Go? {
      ApplyLaw(s, b.m, job);
      var a := Apply(s, b.m, job.candidate, job.speed);
      RolledBackLaw(s, a, job, prior);
      var r := RolledBack(s, a, prior);
      if r.Go? {
        FinishLaw(s, r.m, job);
      }
    }
  }

  /**
   * From a disk without a marker, every cut of a rotation leaves the marker over an exact backup, or no marker and
   * the old profile, or no marker and a candidate that passed every demanded check; this rotation's stamp
   * stays without a marker only in the last case.
   */
  lemma RotateIsSafe(s: Setting, m: Machine, candidate: Option<string>, speed: bool)
    requires Canonicalizes(s.canon) && m.disk.marker.None?
    requires candidate.Some? ==> s.canon(candidate.value) == candidate
    ensures var f := Rotate(s, m, candidate, speed);
            if candidate.None? || !s.enabled || ConfiguredEndpoint(s.canon, m.disk.profile).None?
            then f.m.disk == m.disk
            else Safe(s, f.m, Job(m.disk.profile, m.disk.stamp, candidate.value, speed))
                 && (f.Go? ==> f.m.disk.marker.None?
                               && Checked(s, f.m, Job(m.disk.profile, m.disk.stamp, candidate.value, speed)))
  {
    var prior := ConfiguredEndpoint(s.canon, m.disk.profile);
    hide ConfiguredEndpoint, WithEndpoint, Reported, Report, Barrier, Transact, CooldownAllows;
    if candidate.Some? && s.enabled && prior.Some? {
      var job := Job(m.disk.profile, m.disk.stamp, candidate.value, speed);
      var b := Reported(Barrier(m));
      assert Closed(s, b.m, job);
      if b.Go? && CooldownAllows(s, b.m.disk.stamp) {
        TransactLaw(s, b.m, job);
      }
    }
  }

  /** Inside the cooldown of an earlier rotation nothing is touched. */
  lemma RotationWaits(s: Setting, m: Machine, candidate: Option<string>, speed: bool)
    requires m.disk.stamp.Some? && s.now < m.disk.stamp.value + s.cooldown
    ensures Rotate(s, m, candidate, speed).m.disk == m.disk
  {
    hide ConfiguredEndpoint, Transact;
  }

  /** The candidate's profile is configured for the candidate, so a later rotation away from it can be undone too. */
  lemma TargetIsConfigured(s: Setting, job: Job)
    requires Canonicalizes(s.canon) && JobFits(s, job)
    ensures ConfiguredEndpoint(s.canon, Target(job)) == Some(job.candidate)
  {
    RewriteIsConfigured(s.canon, job.was, job.candidate);
  }

  // ----------------------------------------------------------------- runs

  datatype Event =
    | Rotation(setting: Setting, candidate: Option<string>, speed: bool, plan: seq<Answer>)
    | Reconciliation(setting: Setting, plan: seq<Answer>)

  /** Every invocation reconciles first; a rotation is tried only when no marker is left. */
  function Invoke(m: Machine, e: Event): Flow {
    match e
    case Reconciliation(s, plan) => Reconcile(s, m.(plan := plan))
    case Rotation(s, candidate, speed, plan) =>
      if m.disk.marker.Some? then Raised(m) else Rotate(s, m.(plan := plan), candidate, speed)
  }

  function Play(m: Machine, events: seq<Event>): Machine {
    if events == [] then m else Invoke(Play(m, events[..|events| - 1]), events[|events| - 1]).m
  }

  ghost predicate EventFits(e: Event, canon: string -> Option<string>) {
    e.setting.canon == canon && (e.Rotation? && e.candidate.Some? ==> canon(e.candidate.value) == e.candidate)
  }

  /** A profile found at the start or checked since. */
  predicate Trusted(first: Profile, p: Profile, passed: set<Check>) {
    p == first || exists c :: c in passed && c.profile == p
  }

  /** Over every run: a trusted profile, or a marker over a trusted backup configured for it. */
  predicate Recoverable(canon: string -> Option<string>, first: Profile, m: Machine) {
    if m.disk.marker.None? then Trusted(first, m.disk.profile, m.passed)
    else m.disk.backup.Some? && Trusted(first, m.disk.backup.value, m.passed)
         && ConfiguredEndpoint(canon, m.disk.backup.value) == m.disk.marker
  }

  lemma UndoPasses(s: Setting, m: Machine, prior: string)
    ensures Undo(s, m, prior).m.passed >= m.passed
  {
    hide RestoreBackup, Reported, RemoveStamp, Finish, Barrier;
    var b := Reported(RestoreBackup(m));
    if b.Go? {
      var r := Reported(Restart(s, b.m, prior, false));
      assert r.m.passed >= b.m.passed;
      assert RestartAndFinish(s, b.m, prior).m.passed >= b.m.passed;
    }
  }

  lemma TransactPasses(s: Setting, m: Machine, prior: string, candidate: string, speed: bool)
    ensures Transact(s, m, prior, candidate, speed).m.passed >= m.passed
  {
    hide Undo, Reported, Begin, SetEndpoint, WriteStamp, Barrier, RemovePending;
    var b := Reported(Begin(s, m, prior));
    if b.Go? {
      var a := Apply(s, b.m, candidate, speed);
      assert a.m.passed >= m.passed;
      UndoPasses(s, a.m, prior);
    }
  }

  lemma PassedGrows(s: Setting, m: Machine, candidate: Option<string>, speed: bool)
    ensures Rotate(s, m, candidate, speed).m.passed >= m.passed
    ensures Reconcile(s, m).m.passed >= m.passed
  {
    hide Undo, Transact, Reported, Report, Barrier, ConfiguredEndpoint, ReadPending, CooldownAllows;
    var prior := ReadPending(s, m.disk);
    if prior.Some? {
      UndoPasses(s, m, prior.value);
    }
    var b := Reported(Barrier(m));
    var current := ConfiguredEndpoint(s.canon, m.disk.profile);
    if current.Some? && candidate.Some? {
      TransactPasses(s, b.m, current.value, candidate.value, speed);
    }
  }

  lemma InvokeKeeps(canon: string -> Option<string>, first: Profile, m: Machine, e: Event)
    requires Canonicalizes(canon) && Recoverable(canon, first, m) && EventFits(e, canon)
    ensures Recoverable(canon, first, Invoke(m, e).m)
  {
    var n := m.(plan := e.plan);
    match e
    case Reconciliation(s, plan) =>
      PassedGrows(s, n, None, false);
      if m.disk.marker.Some? {
        ReconcileLaw(s, n, m.disk.backup.value);
      }
      hide Reconcile, ConfiguredEndpoint;
    case Rotation(s, candidate, speed, plan) =>
      if m.disk.marker.None? {
        PassedGrows(s, n, candidate, speed);
        RotateIsSafe(s, n, candidate, speed);
      }
      hide Rotate, ConfiguredEndpoint, WithEndpoint;
  }

  lemma {:induction false} RunsStayRecoverable(canon: string -> Option<string>, m: Machine, events: seq<Event>)
    requires Canonicalizes(canon) && m.disk.marker.None?
    requires forall i :: 0 <= i < |events| ==> EventFits(events[i], canon)
    ensures Recoverable(canon, m.disk.profile, Play(m, events))
  {
    if events != [] {
      RunsStayRecoverable(canon, m, events[..|events| - 1]);
      InvokeKeeps(canon, m.disk.profile, Play(m, events[..|events| - 1]), events[|events| - 1]);
    }
  }

  /** A rotation cut anywhere, then reconciliations cut anywhere: once the marker is gone, the old profile or a
      checked candidate. */
  lemma {:induction false} InterruptedRotationResolves(s: Setting, m: Machine, job: Job, later: seq<Event>)
    requires Canonicalizes(s.canon) && Safe(s, m, job)
    requires forall i :: 0 <= i < |later| ==> later[i].Reconciliation? && later[i].setting == s
    ensures Safe(s, Play(m, later), job)
    ensures m.disk.marker.Some? && Play(m, later).disk.marker.None? ==> Undone(Play(m, later), job.was)
  {
    if later != [] {
      var k := |later| - 1;
      InterruptedRotationResolves(s, m, job, later[..k]);
      var before := Play(m, later[..k]);
      var n := before.(plan := later[k].plan);
      if before.disk.marker.Some? {
        ReconcileLaw(s, n, job.was);
      }
      hide ConfiguredEndpoint, WithEndpoint;
    }
  }
}
