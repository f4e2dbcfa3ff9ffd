/** The private directory changed in place, one system call after another, with the cleanup flags of the program. */
module StoreDirectory {
  import opened Wrappers
  import opened StoreModel
  import Spec = StoreModel

  datatype Outcome = Completed | Failed(conflict: bool) | Died
  {
    predicate IsFailure() { !Completed? }
    function PropagateFailure(): Outcome
      requires !Completed?
    {
      this
    }
  }

  function Report(outcome: Outcome, m: Machine): Flow {
    match outcome
    case Completed => Go(m)
    case Failed(conflict) => Raised(m, conflict)
    case Died => Cut(m)
  }

  class PrivateDirectory {
    var files: map<nat, File>
    var entries: Version
    ghost var earlier: set<Version>
    var next: nat
    var plan: seq<Answer>

    ghost function State(): Machine
      reads this
    {
      Machine(Fs(files, entries, earlier, next), plan)
    }

    constructor (ghost fs: Fs, files: map<nat, File>, entries: Version, next: nat, plan: seq<Answer>)
      requires fs.files == files && fs.entries == entries && fs.next == next
      ensures State() == Machine(fs, plan)
    {
      this.files, this.entries, this.next, this.plan := files, entries, next, plan;
      this.earlier := fs.earlier;
    }

    // ------------------------------------------------------- system calls

    method Answered() returns (a: Answer)
      modifies this`plan
      ensures a == Ask(old(State())) && State() == Rest(old(State()))
    {
      a := Success;
      if plan != [] {
        a := plan[0];
        plan := plan[1..];
      }
    }

    /** The outcome of a call whose answer is `a`; its effect is the caller's. */
    static function Ending(a: Answer): Outcome {
      match a
      case Success | Short(_) => Completed
      case Failure => Failed(false)
      case Crash => Died
    }

    method OpenExclusive(name: Name) returns (r: Outcome)
      modifies this
      ensures Report(r, State()) == Spec.Open(old(State()), name)
    {
      if name in entries {
        return Failed(false);
      }
      var a := Answered();
      r := Ending(a);
      if r == Completed {
        earlier := earlier + {entries};
        files, entries, next := files[next := File([], false)], entries[name := next], next + 1;
      }
    }

    method Unlink(name: Name) returns (r: Outcome)
      modifies this
      ensures Report(r, State()) == Spec.Call(old(State()), Unlinked(old(State()).fs, name))
    {
      var a := Answered();
      r := Ending(a);
      if r == Completed {
        earlier := earlier + {entries};
        entries := entries - {name};
      }
    }

    method Link(i: nat, name: Name) returns (r: Outcome)
      modifies this
      ensures Report(r, State()) == Spec.Call(old(State()), Linked(old(State()).fs, name, i))
    {
      var a := Answered();
      r := Ending(a);
      if r == Completed {
        earlier := earlier + {entries};
        entries := entries[name := i];
      }
    }

    method Rename(from: Name, to: Name) returns (r: Outcome)
      requires from in entries
      modifies this
      ensures Report(r, State()) == Spec.Call(old(State()), Renamed(old(State()).fs, from, to))
    {
      var a := Answered();
      r := Ending(a);
      if r == Completed {
        earlier := earlier + {entries};
        entries := (entries - {from})[to := entries[from]];
      }
    }

    method SyncDirectory() returns (r: Outcome)
      modifies this
      ensures Report(r, State()) == Spec.Call(old(State()), DirSynced(old(State()).fs))
    {
      var a := Answered();
      r := Ending(a);
      if r == Completed {
        earlier := {};
      }
    }

    method SyncFile(i: nat) returns (r: Outcome)
      modifies this
      ensures Report(r, State()) == Spec.Call(old(State()), FileSynced(old(State()).fs, i))
    {
      var a := Answered();
      r := Ending(a);
      if r == Completed {
        files := files[i := File(if i in files then files[i].data else [], true)];
      }
    }

    /** A metadata check that changes nothing. */
    method Inspect() returns (r: Outcome)
      modifies this`plan
      ensures Report(r, State()) == Spec.Call(old(State()), old(State()).fs)
    {
      var a := Answered();
      r := Ending(a);
    }

    // --------------------------------------------------------- write loops

    /** One write or copy of at most what is left; `sent` is the count the system returns. */
    method Move(i: nat, payload: Bytes, offset: nat) returns (r: Outcome, sent: nat)
      requires offset < |payload|
      modifies this
      ensures sent <= |payload| - offset
      ensures var m := old(State());
              var a, left := Ask(m), |payload| - offset;
              && sent == (if a.Short? && a.n < left then a.n else left)
              && Report(r, State()) == if sent == 0 then Raised(Rest(m), false)
                 else Spec.Call(m, Appended(m.fs, i, payload[offset..offset + sent]))
    {
      var a := Answered();
      sent := |payload| - offset;
      if a.Short? && a.n < sent {
        sent := a.n;
      }
      r := if sent == 0 then Failed(false) else Ending(a);
      if r == Completed {
        var data := if i in files then files[i].data else [];
        files := files[i := File(data + payload[offset..offset + sent], false)];
      }
    }

    /** Writes the payload however short the single writes are. */
    method WriteAll(i: nat, payload: Bytes) returns (r: Outcome)
      modifies this
      ensures Report(r, State()) == Spec.Transfer(old(State()), i, payload, 0)
    {
      var offset := 0;
      while offset < |payload|
        invariant 0 <= offset <= |payload|
        invariant Spec.Transfer(State(), i, payload, offset) == Spec.Transfer(old(State()), i, payload, 0)
      {
        var written;
        r, written := Move(i, payload, offset);
        if r != Completed {
          return;
        }
        offset := offset + written;
      }
      return Completed;
    }

    /** Copies `length` bytes of a descriptor that holds exactly that many. */
    method CopyExact(source: Bytes, i: nat, length: nat) returns (r: Outcome)
      requires length == |source|
      modifies this
      ensures Report(r, State()) == Spec.Transfer(old(State()), i, source, 0)
    {
      var offset := 0;
      while offset < length
        invariant 0 <= offset <= length
        invariant Spec.Transfer(State(), i, source, offset) == Spec.Transfer(old(State()), i, source, 0)
      {
        var sent;
        r, sent := Move(i, source, offset);
        if r != Completed {
          return;
        }
        offset := offset + sent;
      }
      return Completed;
    }

    // --------------------------------------------------------- operations

    method RemoveNameDurably(name: Name) returns (r: Outcome)
      modifies this
      ensures Report(r, State()) == Spec.RemoveDurably(old(State()), name)
    {
      if name in entries {
        :- Unlink(name);
      }
      r := SyncDirectory();
    }

    /** The `finally` clause: an error removes the staging entry that was created and not installed. */
    method CleanUp(failed: Outcome, staging: Name) returns (r: Outcome)
      modifies this
      ensures Report(r, State()) == Spec.Cleaned(Report(failed, old(State())), staging)
    {
      if !failed.Failed? {
        return failed;
      }
      r := RemoveNameDurably(staging);
      if r == Completed {
        r := failed;
      }
    }

    /** Fills, syncs, checks and renames a created staging file. */
    method Install(target: string, payload: Bytes, copying: bool) returns (r: Outcome)
      requires PrivateStaging(target) in entries
      modifies this
      ensures Report(r, State()) == Spec.Publish(old(State()), target, payload)
    {
      hide Spec.Transfer;
      var temporary := PrivateStaging(target);
      var i := entries[temporary];
      if copying {
        :- CopyExact(payload, i, |payload|);
      } else {
        :- WriteAll(i, payload);
      }
      :- SyncFile(i);
      :- Inspect();
      if temporary !in entries {
        return Failed(false);
      }
      r := Rename(temporary, Plain(target));
    }

    method WriteStaged(target: string, payload: Bytes, copying: bool) returns (r: Outcome)
      modifies this
      ensures Report(r, State()) == Spec.AtomicWrite(old(State()), target, payload)
    {
      hide Spec.Publish, Spec.Cleaned;
      var temporary := PrivateStaging(target);
      :- OpenExclusive(temporary);
      var installed := Failed(false);
      if temporary in entries {
        installed := Install(target, payload, copying);
      }
      :- CleanUp(installed, temporary);
      if Plain(target) !in entries {
        return Failed(false);
      }
      :- SyncFile(entries[Plain(target)]);
      r := SyncDirectory();
    }

    method AtomicWrite(target: string, payload: Bytes) returns (r: Outcome)
      modifies this
      ensures Report(r, State()) == Spec.AtomicWrite(old(State()), target, payload)
    {
      r := WriteStaged(target, payload, false);
    }

    method CopyDescriptorAtomic(target: string, source: Bytes, expected: nat) returns (r: Outcome)
      modifies this
      ensures Report(r, State()) == Spec.CopyDescriptorAtomic(old(State()), target, source, expected)
    {
      if |source| != expected {
        return Failed(false);
      }
      r := WriteStaged(target, source, true);
    }

    method CaptureStaged(backup: string, payload: Bytes) returns (r: Outcome)
      requires SnapshotStaging(backup) in entries
      modifies this
      ensures Report(r, State()) == Spec.Capture(old(State()), backup, payload)
    {
      hide Spec.Transfer;
      var staging := SnapshotStaging(backup);
      var i := entries[staging];
      :- CopyExact(payload, i, |payload|);
      :- SyncFile(i);
      :- Inspect();
      if Plain(backup) in entries {
        return Failed(false);
      }
      :- Link(i, Plain(backup));
      :- SyncDirectory();
      r := RemoveNameDurably(staging);
    }

    method SnapshotFile(source: string, backup: string) returns (r: Outcome)
      modifies this
      ensures Report(r, State()) == Spec.Snapshot(old(State()), source, backup)
    {
      hide Spec.Capture, Spec.Cleaned, Spec.RemoveDurably;
      if Plain(backup) in entries || Plain(source) !in entries {
        return Failed(false);
      }
      var i := entries[Plain(source)];
      var payload := if i in files then files[i].data else [];
      var staging := SnapshotStaging(backup);
      if staging in entries {
        :- RemoveNameDurably(staging);
      }
      :- OpenExclusive(staging);
      var captured := Failed(false);
      if staging in entries {
        captured := CaptureStaged(backup, payload);
      }
      r := CleanUp(captured, staging);
    }

    method CleanSnapshotStaging(backup: string) returns (r: Outcome)
      modifies this
      ensures Report(r, State()) == Spec.CleanSnapshotStaging(old(State()), backup)
    {
      var staging := SnapshotStaging(backup);
      if staging !in entries {
        return Completed;
      }
      if Plain(backup) in entries && entries[Plain(backup)] != entries[staging] {
        return Failed(true);
      }
      r := RemoveNameDurably(staging);
    }

    method DiscardPrivateStaging(target: string) returns (r: Outcome)
      modifies this
      ensures Report(r, State()) == Spec.DiscardPrivateStaging(old(State()), target)
    {
      if PrivateStaging(target) !in entries {
        return Completed;
      }
      r := RemoveNameDurably(PrivateStaging(target));
    }

    method RestoreSnapshot(backup: string, target: string) returns (r: Outcome)
      modifies this
      ensures Report(r, State()) == Spec.Restore(old(State()), backup, target)
    {
      hide Spec.CleanSnapshotStaging, Spec.AtomicWrite;
      :- CleanSnapshotStaging(backup);
      if Plain(backup) !in entries {
        return Failed(false);
      }
      if !SingleLink(entries, Plain(backup)) {
        return Failed(true);
      }
      :- Inspect();
      var i := entries[Plain(backup)];
      var payload := if i in files then files[i].data else [];
      r := AtomicWrite(target, payload);
    }

    method DurableUnlink(target: string) returns (r: Outcome)
      modifies this
      ensures Report(r, State()) == Spec.DurableUnlink(old(State()), target)
    {
      hide Spec.CleanSnapshotStaging;
      :- CleanSnapshotStaging(target);
      if Plain(target) !in entries {
        return Completed;
      }
      if !SingleLink(entries, Plain(target)) {
        return Failed(true);
      }
      :- Unlink(Plain(target));
      r := SyncDirectory();
    }
  }
}
