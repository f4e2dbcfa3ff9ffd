/** The ledger's variables as the runtime keeps them, updated in place by its functions. */
module ApiLedger {
  import opened Wrappers
  import opened Text
  import opened ApiState
  import Spec = ApiState

  function Zip(names: seq<string>, expiries: seq<nat>): (x: seq<Exclusion>)
    requires |names| == |expiries|
    ensures |x| == |names|
  {
    seq(|names|, i requires 0 <= i < |names| => Exclusion(names[i], expiries[i]))
  }

  lemma ZipSnoc(names: seq<string>, expiries: seq<nat>, name: string, expiry: nat)
    requires |names| == |expiries|
    ensures Zip(names + [name], expiries + [expiry]) == Zip(names, expiries) + [Exclusion(name, expiry)]
  {
  }

  lemma ZipWithout(names: seq<string>, expiries: seq<nat>, k: nat)
    requires |names| == |expiries| && k < |names|
    ensures Zip(names[..k] + names[k + 1..], expiries[..k] + expiries[k + 1..]) == Without(Zip(names, expiries), k)
  {
  }

  lemma FindIs(x: seq<Exclusion>, name: string, k: nat)
    requires k <= |x|
    requires forall i :: 0 <= i < k ==> x[i].name != name
    requires k < |x| ==> x[k].name == name
    ensures FindExclusion(x, name) == k
  {
  }

  lemma KeepRecentSnoc(a: seq<nat>, k: nat, now: nat)
    requires k < |a|
    ensures KeepRecent(a[..k + 1], now) == KeepRecent(a[..k], now) + if now < a[k] + DAY then [a[k]] else []
  {
    assert a[..k + 1][..k] == a[..k];
  }

  lemma KeepLiveSnoc(x: seq<Exclusion>, k: nat, now: nat)
    requires k < |x|
    ensures KeepLive(x[..k + 1], now) == KeepLive(x[..k], now) + if x[k].expiry > now then [x[k]] else []
  {
    assert x[..k + 1][..k] == x[..k];
  }

  function NamesOf(x: seq<Exclusion>): (names: seq<string>)
    ensures |names| == |x|
  {
    seq(|x|, i requires 0 <= i < |x| => x[i].name)
  }

  function ExpiriesOf(x: seq<Exclusion>): (expiries: seq<nat>)
    ensures |expiries| == |x|
  {
    seq(|x|, i requires 0 <= i < |x| => x[i].expiry)
  }

  lemma UnzippedZips(x: seq<Exclusion>)
    ensures Zip(NamesOf(x), ExpiriesOf(x)) == x
  {
  }

  class Ledger {
    var loaded: bool
    var observed: nat
    var windowStart: nat
    var attemptCount: nat
    var attempts: seq<nat>
    var backoffUntil: nat
    var failureClass: FailureClass
    var credential: Identity
    var configuredDevice: string
    var names: seq<string>
    var expiries: seq<nat>
    var file: Option<string>
    var locked: bool

    ghost predicate Valid()
      reads this
    {
      |names| == |expiries|
    }

    ghost function Variables(): Record
      reads this
      requires Valid()
    {
      Record(loaded, observed, windowStart, attemptCount, attempts, backoffUntil, failureClass,
             credential, configuredDevice, Zip(names, expiries))
    }

    ghost function State(): Spec.Ledger
      reads this
      requires Valid()
    {
      Spec.Ledger(Variables(), file, locked)
    }

    constructor (file: Option<string>, locked: bool)
      ensures Valid() && State() == Spec.Ledger(Blank, file, locked)
    {
      hide Zip, NamesOf, ExpiriesOf;
      loaded, observed, windowStart, attemptCount, attempts := false, 0, 0, 0, [];
      backoffUntil, failureClass, credential, configuredDevice := 0, NoFailure, Identity(0, 0, 0, 0), "";
      names, expiries := [], [];
      this.file, this.locked := file, locked;
      new;
      assert Zip(names, expiries) == [];
    }

    // ----------------------------------------------------------- validity

    method CheckAttempts() returns (ok: bool)
      requires Valid()
      ensures ok == AttemptsAreValid(attempts, observed)
    {
      var index, previous := 0, 0;
      while index < |attempts|
        invariant 0 <= index <= |attempts|
        invariant AttemptsAreValid(attempts[..index], observed)
        invariant previous == if index == 0 then 0 else attempts[index - 1]
      {
        var epoch := attempts[index];
        if epoch > observed || observed - epoch >= DAY || epoch < previous {
          return false;
        }
        assert attempts[..index + 1] == attempts[..index] + [epoch];
        previous := epoch;
        index := index + 1;
      }
      assert attempts[..index] == attempts;
      return true;
    }

    method CheckExclusions() returns (ok: bool)
      requires Valid()
      ensures ok == ExclusionsAreValid(Zip(names, expiries), observed)
    {
      ghost var x := Zip(names, expiries);
      if |names| > MAX_EXCLUSIONS {
        return false;
      }
      var index, seen := 0, {};
      while index < |names|
        invariant 0 <= index <= |names|
        invariant forall s :: s in seen <==> s in names[..index]
        invariant ExclusionsAreValid(x[..index], observed)
      {
        var name, expiry := names[index], expiries[index];
        assert x[index] == Exclusion(name, expiry);
        if !IsServerName(name) || expiry > EPOCH_MAX || expiry > observed + EXCLUSION_LIFE {
          return false;
        }
        if name in seen {
          var i :| 0 <= i < index && names[i] == name;
          assert x[i].name == x[index].name;
          return false;
        }
        forall i | 0 <= i < index ensures x[i].name != name {
          assert names[i] in names[..index];
        }
        seen := seen + {name};
        assert names[..index + 1] == names[..index] + [name];
        assert x[..index + 1] == x[..index] + [x[index]];
        index := index + 1;
      }
      assert x[..index] == x;
      return true;
    }

    method CheckMemory(persistent: bool) returns (ok: bool)
      requires Valid()
      ensures ok == MemoryIsValid(Variables(), persistent)
    {
      var attemptsOk := CheckAttempts();
      var exclusionsOk := CheckExclusions();
      hide AttemptsAreValid, ExclusionsAreValid, IsDeviceName;
      if !loaded || observed + DAY > EPOCH_MAX || backoffUntil > observed + DAY {
        return false;
      }
      if attemptCount > MAX_ATTEMPTS || attemptCount != |attempts| {
        return false;
      }
      if attemptCount == 0 {
        if windowStart != observed {
          return false;
        }
      } else if windowStart != attempts[0] {
        return false;
      }
      if !attemptsOk || (failureClass == NoFailure) != (backoffUntil == 0) {
        return false;
      }
      if !IdentityIsValid(credential) || (credential.size == KEY_RECORD_SIZE && credential.mtime > observed + 300) {
        return false;
      }
      if configuredDevice != "" && !IsDeviceName(configuredDevice) {
        return false;
      }
      if persistent && (credential.size != KEY_RECORD_SIZE || configuredDevice == "") {
        return false;
      }
      return exclusionsOk;
    }

    // ------------------------------------------------------------ pruning

    method Prune(now: nat) returns (ok: bool)
      requires Valid()
      modifies this
      ensures Valid() && file == old(file) && locked == old(locked)
      ensures Edit(Variables(), ok) == Spec.Prune(old(Variables()), now)
    {
      hide KeepRecent, KeepLive, MemoryIsValid;
      if now > EPOCH_MAX || !loaded || observed > EPOCH_MAX || now < observed {
        return false;
      }
      PruneAttempts(now);
      PruneExclusions(now);
      observed := now;
      assert Variables() == Pruned(old(Variables()), now);
      ok := CheckMemory(false);
    }

    method PruneAttempts(now: nat)
      requires Valid()
      modifies this`attempts, this`attemptCount, this`windowStart
      ensures attempts == KeepRecent(old(attempts), now)
      ensures attemptCount == |attempts| && windowStart == WindowStart(attempts, now)
    {
      var kept, index := [], 0;
      while index < |attempts|
        invariant 0 <= index <= |attempts|
        invariant unchanged(this)
        invariant kept == KeepRecent(attempts[..index], now)
      {
        KeepRecentSnoc(attempts, index, now);
        if now - attempts[index] < DAY {
          kept := kept + [attempts[index]];
        }
        index := index + 1;
      }
      assert attempts[..index] == attempts;
      attempts := kept;
      attemptCount := |attempts|;
      windowStart := if attemptCount == 0 then now else attempts[0];
    }

    method PruneExclusions(now: nat)
      requires Valid()
      modifies this`names, this`expiries
      ensures Valid() && Zip(names, expiries) == KeepLive(old(Zip(names, expiries)), now)
    {
      ghost var x := Zip(names, expiries);
      var keptNames, keptExpiries, index := [], [], 0;
      while index < |names|
        invariant 0 <= index <= |names|
        invariant unchanged(this) && |keptNames| == |keptExpiries|
        invariant Zip(keptNames, keptExpiries) == KeepLive(x[..index], now)
      {
        KeepLiveSnoc(x, index, now);
        if expiries[index] > now {
          ZipSnoc(keptNames, keptExpiries, names[index], expiries[index]);
          keptNames, keptExpiries := keptNames + [names[index]], keptExpiries + [expiries[index]];
        }
        index := index + 1;
      }
      assert x[..index] == x;
      names, expiries := keptNames, keptExpiries;
    }

    // --------------------------------------------------------- exclusions

    method OldestIndex() returns (oldest: nat)
      requires Valid() && names != []
      ensures oldest == Oldest(Zip(names, expiries))
    {
      ghost var x := Zip(names, expiries);
      oldest := 0;
      var oldestExpiry, index := expiries[0], 1;
      while index < |names|
        invariant 1 <= index <= |names| && oldest < index
        invariant oldestExpiry == expiries[oldest]
        invariant oldest == Oldest(x[..index])
      {
        assert x[..index + 1][..index] == x[..index];
        if expiries[index] < oldestExpiry {
          oldest, oldestExpiry := index, expiries[index];
        }
        index := index + 1;
      }
      assert x[..index] == x;
    }

    method DropExclusion(k: nat)
      requires Valid() && k < |names|
      modifies this`names, this`expiries
      ensures Valid() && Zip(names, expiries) == Without(old(Zip(names, expiries)), k)
    {
      ZipWithout(names, expiries, k);
      names, expiries := names[..k] + names[k + 1..], expiries[..k] + expiries[k + 1..];
    }

    method IndexOfName(name: string) returns (k: nat)
      requires Valid()
      ensures k == FindExclusion(Zip(names, expiries), name)
    {
      k := 0;
      while k < |names| && names[k] != name
        invariant 0 <= k <= |names|
        invariant forall i :: 0 <= i < k ==> names[i] != name
      {
        k := k + 1;
      }
      FindIs(Zip(names, expiries), name, k);
    }

    method AddExclusion(name: string, now: nat) returns (ok: bool)
      requires Valid()
      modifies this
      ensures Valid() && file == old(file) && locked == old(locked)
      ensures Edit(Variables(), ok) == Spec.AddExclusion(old(Variables()), name, now)
    {
      hide Spec.Prune, WithExclusion, IsServerName, MemoryIsValid;
      if !IsServerName(name) || now > EPOCH_MAX {
        return false;
      }
      ok := Prune(now);
      if !ok {
        return;
      }
      var expiry := now + EXCLUSION_LIFE;
      if expiry > EPOCH_MAX {
        return false;
      }
      PutExclusion(name, expiry);
    }

    /** Renews the entry of that name, or appends one after making room. */
    method PutExclusion(name: string, expiry: nat)
      requires Valid()
      modifies this`names, this`expiries
      ensures Valid() && Zip(names, expiries) == WithExclusion(old(Zip(names, expiries)), name, expiry)
    {
      ghost var x := Zip(names, expiries);
      var k := IndexOfName(name);
      hide Oldest, FindExclusion, Without;
      if k < |names| {
        expiries := expiries[k := expiry];
        assert Zip(names, expiries) == x[k := Exclusion(name, expiry)];
        return;
      }
      if |names| >= MAX_EXCLUSIONS {
        var oldest := OldestIndex();
        DropExclusion(oldest);
      }
      ZipSnoc(names, expiries, name, expiry);
      names, expiries := names + [name], expiries + [expiry];
    }

    method RemoveExclusion(name: string, now: nat, fault: SaveFault) returns (status: Status)
      requires Valid()
      modifies this
      ensures Valid() && Reply(State(), status) == Spec.RemoveExclusion(old(State()), name, now, fault)
    {
      hide FindExclusion, IsServerName, Spec.Save, MemoryIsValid;
      if !IsServerName(name) || now > EPOCH_MAX {
        return Failed;
      }
      var ok := Prune(now);
      if !ok {
        return Failed;
      }
      var found := IndexOfName(name);
      if found == |names| {
        return Failed;
      }
      DropExclusion(found);
      observed := now;
      status := Save(fault);
    }

    // ----------------------------------------------------------- attempts

    method AttemptAllowed(now: nat, bypass: bool) returns (status: Status)
      requires Valid()
      modifies this
      ensures Valid() && file == old(file) && locked == old(locked)
      ensures Verdict(Variables(), status) == Spec.AttemptAllowed(old(Variables()), now, bypass)
    {
      var ok := Prune(now);
      if !ok {
        return Failed;
      }
      if attemptCount >= MAX_ATTEMPTS {
        return Deferred;
      }
      if backoffUntil > now {
        match failureClass {
          case Auth | Device =>
            if !bypass {
              return Deferred;
            }
          case Rate | Transient => return Deferred;
          case NoFailure => return Failed;
        }
      }
      return Done;
    }

    method RecordAttempt(now: nat, bypass: bool, fault: SaveFault) returns (status: Status)
      requires Valid()
      modifies this
      ensures Valid() && Reply(State(), status) == Spec.RecordAttempt(old(State()), now, bypass, fault)
    {
      hide Spec.AttemptAllowed, Spec.Save;
      var allowed := AttemptAllowed(now, bypass);
      if allowed == Deferred {
        var saved := Save(fault);
        return if saved == Done then Deferred else saved;
      }
      if allowed != Done {
        return allowed;
      }
      attempts := attempts + [now];
      attemptCount := |attempts|;
      windowStart := attempts[0];
      observed := now;
      status := Save(fault);
    }

    method GateBeforePreflight(now: nat, bypass: bool, fault: SaveFault) returns (status: Status)
      requires Valid()
      modifies this
      ensures Valid() && Reply(State(), status) == Spec.GateBeforePreflight(old(State()), now, bypass, fault)
    {
      status := AttemptAllowed(now, bypass);
      hide Spec.AttemptAllowed, Spec.Save;
      if status == Deferred {
        var saved := Save(fault);
        return if saved == Done then Deferred else saved;
      }
    }

    // ----------------------------------------------------------- outcomes

    static method ComputeBackoff(attempt: nat, jitter: string, random: nat, retryAfter: string) returns (r: Result<nat>)
      ensures r == Spec.ComputeBackoff(attempt, jitter, random, retryAfter)
    {
      if attempt > 100 || attempt < 1 {
        return Err;
      }
      var base, index := 300, 1;
      while index < attempt && base < BACKOFF_CAP
        invariant 1 <= index <= attempt
        invariant base == BackoffBase(index)
      {
        base := base * 2;
        if base > BACKOFF_CAP {
          base := BACKOFF_CAP;
        }
        index := index + 1;
      }
      BaseStaysCapped(index, attempt);
      var spread := base / 10;
      var extra := random % (spread + 1);
      if jitter != "" {
        if !IsCanonical(jitter) || DecimalValue(jitter) > spread {
          return Err;
        }
        extra := DecimalValue(jitter);
      }
      var computed := base + extra;
      if computed > BACKOFF_CAP {
        computed := BACKOFF_CAP;
      }
      if retryAfter != "" {
        if !IsCanonical(retryAfter) || DecimalValue(retryAfter) > DAY {
          return Err;
        }
        if DecimalValue(retryAfter) > computed {
          computed := DecimalValue(retryAfter);
        }
      }
      return Ok(computed);
    }

    static lemma {:induction false} BaseStaysCapped(index: nat, attempt: nat)
      requires 1 <= index <= attempt
      requires index == attempt || BackoffBase(index) == BACKOFF_CAP
      ensures BackoffBase(index) == BackoffBase(attempt)
    {
      if index < attempt {
        BaseStaysCapped(index, attempt - 1);
      }
    }

    /** Sets the failure class and deadline an outcome asks for. */
    method SetSentence(now: nat, outcome: string, retryAfter: string, failedServer: string,
                       jitter: string, random: nat) returns (ok: bool)
      requires Valid()
      modifies this`failureClass, this`backoffUntil
      ensures Valid()
      ensures var s := Sentence(old(Variables()), now, outcome, retryAfter, failedServer, jitter, random);
              ok == s.Ok? && Variables() == if ok then s.value else old(Variables())
    {
      hide Spec.ComputeBackoff;
      match ClassNamed(outcome) {
        case None => return false;
        case Some(NoFailure) =>
          if retryAfter != "" || failedServer != "" {
            return false;
          }
          failureClass, backoffUntil := NoFailure, 0;
        case Some(Auth) | Some(Device) =>
          if retryAfter != "" {
            return false;
          }
          failureClass, backoffUntil := ClassNamed(outcome).value, now + DAY;
        case Some(Rate) | Some(Transient) =>
          if attemptCount < 1 {
            return false;
          }
          var backoff := ComputeBackoff(attemptCount, jitter, random, retryAfter);
          if backoff.Err? {
            return false;
          }
          failureClass, backoffUntil := ClassNamed(outcome).value, now + backoff.value;
      }
      return true;
    }

    method RecordOutcome(now: nat, outcome: string, retryAfter: string, failedServer: string,
                         jitter: string, random: nat, fault: SaveFault) returns (status: Status)
      requires Valid()
      modifies this
      ensures Valid()
      ensures Reply(State(), status)
              == Spec.RecordOutcome(old(State()), now, outcome, retryAfter, failedServer, jitter, random, fault)
    {
      hide Spec.Prune, Spec.Save, Spec.AddExclusion, Sentence, MemoryIsValid;
      if now > EPOCH_MAX {
        return Failed;
      }
      var ok := Prune(now);
      if !ok {
        return Failed;
      }
      ok := SetSentence(now, outcome, retryAfter, failedServer, jitter, random);
      if !ok {
        return Failed;
      }
      if failedServer != "" {
        ok := AddExclusion(failedServer, now);
        if !ok {
          return Failed;
        }
      }
      status := Save(fault);
    }

    method RefreshIdentity(now: nat, device: string, installed: Option<Identity>) returns (ok: bool)
      requires Valid()
      modifies this
      ensures Valid() && file == old(file) && locked == old(locked)
      ensures Edit(Variables(), ok) == Spec.RefreshIdentity(old(Variables()), now, device, installed)
    {
      hide Spec.Prune, IsDeviceName, MemoryIsValid, IdentityIsValid;
      if now > EPOCH_MAX || !IsDeviceName(device) {
        return false;
      }
      ok := Prune(now);
      if !ok {
        return;
      }
      if installed.None? || !IdentityIsValid(installed.value) || installed.value.size != KEY_RECORD_SIZE {
        return false;
      }
      var changed := installed.value != credential || device != configuredDevice;
      credential, configuredDevice := installed.value, device;
      if changed && (failureClass == Auth || failureClass == Device) {
        failureClass, backoffUntil := NoFailure, 0;
      }
      ok := CheckMemory(false);
    }

    // --------------------------------------------------------- state file

    method RenderFile() returns (text: string)
      requires Valid() && Countable(Variables())
      ensures text == Render(Variables())
    {
      ghost var r := Variables();
      var lines := ["version=1", NumberField("observed_at", observed), NumberField("window_start", windowStart),
                    NumberField("attempt_count", attemptCount)];
      assert lines == HeadLines(r);
      var index := 0;
      while index < |attempts|
        invariant 0 <= index <= |attempts|
        invariant lines == HeadLines(r) + AttemptLines(attempts)[..index]
      {
        lines := lines + [AttemptLine(index + 1, attempts[index])];
        index := index + 1;
      }
      lines := lines + [NumberField("backoff_until", backoffUntil), Field("failure_class", ClassName(failureClass)),
                        NumberField("credential_device", credential.device),
                        NumberField("credential_inode", credential.inode),
                        NumberField("credential_mtime", credential.mtime),
                        NumberField("credential_size", credential.size),
                        Field("configured_device", configuredDevice), NumberField("exclude_count", |names|)];
      ghost var x := Zip(names, expiries);
      ghost var front := HeadLines(r) + AttemptLines(attempts) + BodyLines(r);
      assert lines == front;
      index := 0;
      while index < |names|
        invariant 0 <= index <= |names|
        invariant lines == front + ExclusionLines(x)[..index]
      {
        lines := lines + [ExclusionLine(index + 1, Exclusion(names[index], expiries[index]))];
        index := index + 1;
      }
      assert lines == RecordLines(r);
      text := JoinLines(lines);
    }

    method Save(fault: SaveFault) returns (status: Status)
      requires Valid()
      modifies this`file
      ensures Valid() && Reply(State(), status) == Spec.Save(old(State()), fault)
    {
      var ok := CheckMemory(true);
      if !ok || !locked || fault == BeforeRename {
        return Failed;
      }
      var text := RenderFile();
      file := Some(text);
      return if fault == Calm then Done else Failed;
    }

    static method CheckBytes(text: string) returns (ok: bool)
      ensures ok == BytesAreStrict(text)
    {
      var count, last := 0, ' ';
      while count < |text|
        invariant 0 <= count <= |text|
        invariant forall i :: 0 <= i < count ==> IsStrict(text[i])
        invariant count > 0 ==> last == text[count - 1]
      {
        if !IsStrict(text[count]) {
          return false;
        }
        last := text[count];
        count := count + 1;
      }
      return count > 0 && last == NEWLINE;
    }

    static method DecodeAttempts(lines: seq<string>) returns (r: Result<seq<nat>>)
      requires |lines| < 100
      ensures r == ReadAttempts(lines)
    {
      var epochs, index := [], 1;
      while index <= |lines|
        invariant 1 <= index <= |lines| + 1
        invariant ReadAttempts(lines[..index - 1]) == Ok(epochs)
      {
        var epoch := ReadNumber(lines[index - 1], "attempt_" + TwoDigits(index));
        assert lines[..index][..index - 1] == lines[..index - 1];
        if epoch.Err? {
          AttemptsFail(lines, index);
          return Err;
        }
        epochs := epochs + [epoch.value];
        index := index + 1;
      }
      assert lines[..index - 1] == lines;
      return Ok(epochs);
    }

    static lemma {:induction false} AttemptsFail(lines: seq<string>, k: nat)
      requires |lines| < 100 && k <= |lines| && ReadAttempts(lines[..k]).Err?
      ensures ReadAttempts(lines).Err?
    {
      if k < |lines| {
        var front := lines[..|lines| - 1];
        assert front[..k] == lines[..k];
        AttemptsFail(front, k);
      } else {
        assert lines[..k] == lines;
      }
    }

    static method DecodeExclusions(lines: seq<string>) returns (r: Result<seq<Exclusion>>)
      requires |lines| < 99
      ensures r == ReadExclusions(lines)
    {
      var found: seq<Exclusion>, seen: set<string>, index := [], {}, 1;
      while index <= |lines|
        invariant 1 <= index <= |lines| + 1
        invariant ReadExclusions(lines[..index - 1]) == Ok(found)
        invariant forall s :: s in seen <==> FindExclusion(found, s) < |found|
      {
        var x := ReadExclusion(lines[index - 1], index);
        assert lines[..index][..index - 1] == lines[..index - 1];
        if x.Err? || x.value.name in seen {
          ExclusionsFail(lines, index);
          return Err;
        }
        forall s ensures s in seen + {x.value.name} <==> FindExclusion(found + [x.value], s) < |found| + 1 {
          FindInSnoc(found, x.value, s);
        }
        seen := seen + {x.value.name};
        found := found + [x.value];
        index := index + 1;
      }
      assert lines[..index - 1] == lines;
      return Ok(found);
    }

    static lemma FindInSnoc(x: seq<Exclusion>, last: Exclusion, s: string)
      ensures FindExclusion(x + [last], s) < |x| + 1 <==> FindExclusion(x, s) < |x| || s == last.name
    {
      var k := FindExclusion(x, s);
      var y := x + [last];
      if k < |x| || s == last.name {
        FindIs(y, s, k);
      } else {
        FindIs(y, s, |x| + 1);
      }
    }

    static lemma {:induction false} ExclusionsFail(lines: seq<string>, k: nat)
      requires |lines| < 99 && k <= |lines| && ReadExclusions(lines[..k]).Err?
      ensures ReadExclusions(lines).Err?
    {
      if k < |lines| {
        var front := lines[..|lines| - 1];
        assert front[..k] == lines[..k];
        ExclusionsFail(front, k);
      } else {
        assert lines[..k] == lines;
      }
    }

    static method DecodeLines(lines: seq<string>) returns (r: Result<Record>)
      ensures r == Decode(lines)
    {
      if |lines| < MIN_LINES || |lines| > MAX_LINES {
        return Err;
      }
      var i := 0;
      while i < |lines|
        invariant 0 <= i <= |lines|
        invariant forall j :: 0 <= j < i ==> |lines[j]| <= MAX_LINE
      {
        if |lines[i]| > MAX_LINE {
          return Err;
        }
        i := i + 1;
      }
      hide ReadHead, ReadBody, ReadAttempts, ReadExclusions;
      var head :- ReadHead(lines[..4]);
      var offset := 4 + head.attemptCount;
      if |lines| < offset + 8 {
        return Err;
      }
      var epochs :- DecodeAttempts(lines[4..offset]);
      var body :- ReadBody(lines[offset..offset + 8]);
      if |lines| != offset + 8 + body.excludeCount {
        return Err;
      }
      var exclusions :- DecodeExclusions(lines[offset + 8..]);
      return Ok(head.(attempts := epochs, backoffUntil := body.backoffUntil, failureClass := body.failureClass,
                      credential := body.credential, configuredDevice := body.configuredDevice,
                      exclusions := exclusions));
    }

    method Assign(r: Record)
      requires Valid()
      modifies this
      ensures Valid() && Variables() == r && file == old(file) && locked == old(locked)
    {
      loaded, observed, windowStart, attemptCount, attempts :=
        r.loaded, r.observed, r.windowStart, r.attemptCount, r.attempts;
      backoffUntil, failureClass := r.backoffUntil, r.failureClass;
      credential, configuredDevice := r.credential, r.configuredDevice;
      names, expiries := NamesOf(r.exclusions), ExpiriesOf(r.exclusions);
      UnzippedZips(r.exclusions);
    }

    method Load(now: nat) returns (status: Status)
      requires Valid()
      modifies this
      ensures Valid() && Reply(State(), status) == Spec.Load(old(State()), now)
    {
      if now > EPOCH_MAX {
        return Failed;
      }
      if file.None? {
        Assign(Defaults(now));
        return Done;
      }
      var text := file.value;
      if |text| > MAX_TEXT {
        return Failed;
      }
      var strict := CheckBytes(text);
      if !strict {
        return Failed;
      }
      var decoded := DecodeLines(Lines(text));
      hide Decode, Spec.Prune, MemoryIsValid, BytesAreStrict;
      if decoded.Err? {
        return Failed;
      }
      Assign(decoded.value);
      var ok := CheckMemory(true);
      if !ok || now < observed {
        return Failed;
      }
      ok := Prune(now);
      return if ok then Done else Failed;
    }
  }
}
