/** What an interrupted setup will recover to, as the credential prompt predicts it. */
module SetupPrediction {
  import opened Wrappers
  import opened SetupJournals
  import opened SetupMachine
  import opened SetupClearance
  import opened SetupInvariant
  import opened SetupBounds

  // ------------------------------------------------------- the decisions

  /** `credential_state_after_recovery`: the source and whether a credential will be present. */
  function CredentialStateAfterRecovery(disk: Disk, j: SetupJournal): Result<(Source, bool)> {
    if j.phase.Verified? || j.phase.RolledBack? then Ok((disk.config.source, disk.credential.Some?))
    else if j.phase.Activated? || j.phase.Verifying? then
      Ok((if j.operation.ApiUpdate? then Api else Static, j.hadKey))
    else if disk.configPrevious.Some? then Ok((disk.configPrevious.value.source, j.hadKey))
    else if j.phase.Prepared? then Ok((disk.config.source, j.hadKey))
    else Err
  }

  /** `api_requires_proposed_credential`. */
  function RequiresProposedCredential(disk: Disk, replace: bool): Result<bool> {
    var state :- if disk.journal.Some? then CredentialStateAfterRecovery(disk, disk.journal.value)
                 else Ok((disk.config.source, disk.credential.Some?));
    if replace && !state.1 then Err
    else Ok(replace || !state.1 || state.0 != Api)
  }

  /** `precheck_api_credential`: whether these choices can be applied to this disk. */
  predicate PrecheckPasses(disk: Disk, supplied: Option<Key>, replace: bool, allowMatching: bool) {
    if disk.config.source.Api? && disk.credential.Some? then
      && (supplied.Some? && !replace ==> allowMatching && supplied == disk.credential)
      && !(replace && supplied.None?)
    else
      supplied.Some? && !(replace && disk.credential.None?)
  }

  // ------------------------------------------------------------ soundness

  predicate NeedsNoCredential(disk: Disk) {
    disk.config.source.Api? && disk.credential.Some?
  }

  /** A completed static rollback puts the old settings back. */
  lemma StaticIsRolledBack(p: Plan, m: Machine)
    requires Undoing(p, m.disk, m.local) && p.operation.IsStatic()
    ensures var f := RollbackStatic(m);
            f.Go? ==> f.m.disk.config == p.before.config && f.m.disk.credential == p.before.credential
  {
    hide RollbackConfig, PersistJournal, Cleanup, Undoing;
    RollbackConfigStays(p, m);
    StaticKeepsKey(p, RollbackConfig(m).m);
    var f := RollbackConfig(m);
    if f.Go? {
      SealTouchesNoFile(f.m);
    }
  }

  lemma StaticKeepsKey(p: Plan, m: Machine)
    requires Undoing(p, m.disk, m.local) && p.operation.IsStatic()
    ensures m.disk.credential == p.before.credential
  {
  }

  lemma SealTouchesNoFile(m: Machine)
    ensures SealRollback(m).m.disk.config == m.disk.config
    ensures SealRollback(m).m.disk.credential == m.disk.credential
  {
    hide Cleanup;
    CleanupTouchesNoFile(PersistJournal(m, RolledBackOf(m.local)).m);
  }

  lemma CleanupTouchesNoFile(m: Machine)
    ensures Cleanup(m).m.disk.config == m.disk.config
    ensures Cleanup(m).m.disk.credential == m.disk.credential
  {
  }

  lemma DiscardsTouchStagingOnly(m: Machine)
    ensures var f := DiscardPrivate(m);
            && f.m.notes == m.notes
            && (f.Go? ==> f.m.disk == m.disk.(staging := f.m.disk.staging))
    ensures DiscardPrivate(m).Go? ==>
      Recover(m) == (if m.disk.journal.Some? then RecoverJournal(DiscardPrivate(m).m)
                     else if ArtifactsClear(DiscardPrivate(m).m.disk) then Go(DiscardPrivate(m).m)
                     else AskInspection(DiscardPrivate(m).m))
    ensures Recover(m).Go? ==> DiscardPrivate(m).Go?
  {
    hide RecoverJournal;
  }

  /** Whatever state an api-update over an installed key is in, no credential is needed. */
  lemma UpdatesNeedNoCredential(p: Plan, d: Disk)
    requires WellPlanned(p) && Kept(p, d) && p.operation.ApiUpdate? && p.key.had
    ensures NeedsNoCredential(d)
  {
  }

  /** What a promise of no credential says about the interrupted transaction. */
  lemma PromiseMeans(p: Plan, d: Disk)
    requires WellPlanned(p) && Kept(p, d)
    requires RequiresProposedCredential(d, false) == Ok(false)
    ensures d.journal.None? || IsFinal(d.journal.value.phase) ==> NeedsNoCredential(d)
    ensures d.journal.Some? && !IsFinal(d.journal.value.phase) ==>
              && p.before.config.source.Api? && p.before.credential.Some? && p.key.had
              && (p.operation.IsApi() <==> p.operation.ApiUpdate?)
              && (p.operation.IsStatic() ==> d.journal.value.phase.Prepared? || d.journal.value.phase.Activating?)
  {
  }

  /** When the code says no new credential is needed, recovery ends with an API source and an
      installed credential, so the check after recovery passes without one; for an API transaction that
      is so even when the recovery is cut. The one exception is a static restore cut at `activating`. */
  lemma PredictionIsSound(p: Plan, m: Machine)
    requires WellPlanned(p) && Kept(p, m.disk)
    requires RequiresProposedCredential(m.disk, false) == Ok(false)
    requires m.disk.journal.Some? ==> !m.disk.journal.value.phase.Activating?
    ensures var f := Recover(m);
            f.Go? || p.operation.IsApi() ==>
              NeedsNoCredential(f.m.disk) && PrecheckPasses(f.m.disk, None, false, true)
  {
    hide Recover, RecoverJournal, DiscardPrivate, Kept, WellPlanned, RequiresProposedCredential, ArtifactsClear;
    PromiseMeans(p, m.disk);
    RecoverKeepsBounds(p, m);
    var f := Recover(m);
    if m.disk.journal.None? || IsFinal(m.disk.journal.value.phase) {
      SettledFilesStay(m);
    } else if p.operation.ApiUpdate? {
      UpdatesNeedNoCredential(p, f.m.disk);
    } else if f.Go? {
      PreparedStaticIsRolledBack(p, m);
    }
  }

  /** Without a record, or with a final one, recovery removes snapshots and staging entries only. */
  lemma SettledFilesStay(m: Machine)
    requires m.disk.journal.None? || IsFinal(m.disk.journal.value.phase)
    ensures Recover(m).m.disk.config == m.disk.config && Recover(m).m.disk.credential == m.disk.credential
  {
    hide DiscardStaging, Cleanup;
    DiscardsTouchNoFile(m);
    var f := DiscardPrivate(m);
    if f.Go? && m.disk.journal.Some? {
      CleanupTouchesNoFile(f.m.(local := m.disk.journal.value));
    }
  }

  lemma DiscardsTouchNoFile(m: Machine)
    ensures var f := DiscardPrivate(m);
            && f.m.disk == m.disk.(staging := f.m.disk.staging, status := f.m.disk.status)
            && f.m.notes == m.notes
  {
    hide RemovalSteps;
    RemovalsTouchNoFile();
  }

  lemma RemovalsTouchNoFile()
    ensures forall m: Machine, first, both ::
              var f := RemovalSteps(m, first, both);
              && f.m.notes == m.notes
              && (|| f.m.disk == m.disk.(status := f.m.disk.status) || f.m.disk == first.(status := f.m.disk.status)
                  || f.m.disk == both.(status := f.m.disk.status))
  {
  }

  lemma PreparedStaticIsRolledBack(p: Plan, m: Machine)
    requires WellPlanned(p) && Kept(p, m.disk) && p.operation.IsStatic()
    requires m.disk.journal.Some? && m.disk.journal.value.phase.Prepared?
    ensures Recover(m).Go? ==>
              Recover(m).m.disk.config == p.before.config && Recover(m).m.disk.credential == p.before.credential
  {
    DiscardsTouchStagingOnly(m);
    DiscardsKeepBounds(p, m);
    var n := DiscardPrivate(m).m;
    if Recover(m).Go? {
      var k := n.(local := n.disk.journal.value);
      UnfinishedIsUndoing(p, k);
      StaticIsRolledBack(p, k);
      assert Matches(p, k.local);
      assert RecoverJournal(n) == RollbackStatic(k) by {
        hide RollbackStatic;
      }
    }
    hide Recover, RecoverJournal, DiscardPrivate, Kept, Undoing, RollbackStatic;
  }

  /** At that exception the prediction is right exactly when the restore is not yet visible: source
      static with the profile equal to the pre-managed one. */
  lemma ActivatingPredictionIsExact(p: Plan, m: Machine)
    requires WellPlanned(p) && Kept(p, m.disk)
    requires RequiresProposedCredential(m.disk, false) == Ok(false)
    requires m.disk.journal.Some? && m.disk.journal.value.phase.Activating?
    ensures var f := Recover(m);
            f.Go? ==> (NeedsNoCredential(f.m.disk) <==> StaticRestoreVisible(m.disk) != Ok(true))
  {
    PromiseMeans(p, m.disk);
    hide Recover, RecoverJournal, DiscardPrivate, WellPlanned, RequiresProposedCredential;
    DiscardsTouchStagingOnly(m);
    DiscardsKeepBounds(p, m);
    var n := DiscardPrivate(m).m;
    if Recover(m).Go? {
      ActivatingIsDecidedByVisibility(p, n);
      assert StaticRestoreVisible(n.disk) == StaticRestoreVisible(m.disk);
    }
  }

  /** A record at `activating` is rolled back unless the static restore is visible, in which case it
      is kept. */
  lemma ActivatingIsDecidedByVisibility(p: Plan, m: Machine)
    requires WellPlanned(p) && Kept(p, m.disk)
    requires m.disk.journal.Some? && m.disk.journal.value.phase.Activating?
    ensures var f := RecoverJournal(m);
            f.Go? ==>
              if StaticRestoreVisible(m.disk) == Ok(true)
              then f.m.disk.config == m.disk.config && f.m.disk.credential == m.disk.credential
              else f.m.disk.config == p.before.config && f.m.disk.credential == p.before.credential
  {
    hide RollbackStatic, Undoing, Cleanup, RestoreTookEffect;
    var n := m.(local := m.disk.journal.value);
    assert p.operation.StaticRestore?;
    VisibleTookEffect(p, m.disk);
    if StaticRestoreVisible(m.disk) == Ok(true) {
      CleanupTouchesNoFile(n);
    } else if StaticRestoreVisible(m.disk).Ok? {
      UnfinishedIsUndoing(p, n);
      StaticIsRolledBack(p, n);
    }
    hide StaticRestoreVisible;
  }

  /** Choices the precheck lets through can still be refused later in one case only: entering API mode from static
      with a key that differs from the retained one and no leave to replace it. */
  lemma PrecheckMissesExactly(req: ApiRequest, disk: Disk)
    ensures EffectiveCredential(req, disk).Ok? <==>
            && PrecheckPasses(disk, req.supplied, req.replace, req.allowMatching)
            && !(disk.config.source.Static? && disk.credential.Some? && !req.replace && req.supplied != disk.credential)
    ensures EffectiveCredential(req, disk).Ok? ==>
            var key := EffectiveCredential(req, disk).value;
            && key.had == disk.credential.Some?
            && (key.changed <==> req.replace || disk.credential.None?)
            && Some(key.key) == (if key.changed then req.supplied else disk.credential)
  {
  }

  // ----------------------------------------------------- write-ahead facts

  /** In every state a transaction can leave, a phase past `prepared` and not final has both
      snapshots in place, unless a static restore has already taken effect. */
  lemma SnapshotsAreWrittenAhead(p: Plan, d: Disk)
    requires WellPlanned(p) && Kept(p, d) && d.journal.Some?
    requires !d.journal.value.phase.Prepared? && !IsFinal(d.journal.value.phase)
    ensures HasSnapshots(p, d) || RestoreTookEffect(p, d)
    ensures !p.operation.StaticRestore? ==>
      d.configPrevious == Some(p.before.config)
      && (d.credentialPrevious.Some? <==> p.key.changed && p.before.credential.Some?)
      && (d.credentialPrevious.Some? ==> d.credentialPrevious == p.before.credential)
  {
  }

  /** With no record left nothing asks for inspection: recovery is the three discards. */
  lemma NoRecordNeedsNoInspection(p: Plan, m: Machine)
    requires Kept(p, m.disk) && m.disk.journal.None?
    ensures Recover(m) == DiscardPrivate(m)
    ensures Recover(m).Go? ==> ArtifactsClear(Recover(m).m.disk)
  {
    DiscardsKeepBounds(p, m);
    DiscardsRemove(m);
    var f := DiscardPrivate(m);
    if f.Go? {
      NothingIsLeft(p, f.m.disk);
    }
    hide RecoverJournal, DiscardStaging;
  }
}
