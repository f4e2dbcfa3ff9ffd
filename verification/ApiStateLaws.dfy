/** What each ledger operation keeps, drops and refuses. */
module ApiStateLaws {
  import opened Wrappers
  import opened Text
  import opened ApiState
  import opened ApiStateCodec

  // -------------------------------------------------------------- pruning

  predicate Ordered(a: seq<nat>) {
    forall i, j :: 0 <= i < j < |a| ==> a[i] <= a[j]
  }

  /** From `k` on, and only there, attempts are inside the window. */
  predicate CutsAt(a: seq<nat>, now: nat, k: nat) {
    k <= |a| && forall i :: 0 <= i < |a| ==> (now < a[i] + DAY <==> k <= i)
  }

  lemma CutGrows(front: seq<nat>, x: nat, now: nat, k: nat)
    requires CutsAt(front, now, k) && forall i :: 0 <= i < |front| ==> front[i] <= x
    ensures if now < x + DAY then CutsAt(front + [x], now, k)
            else k == |front| && CutsAt(front + [x], now, |front| + 1)
  {
    if k < |front| {
      assert now < front[k] + DAY;
    }
  }

  lemma FrontIsOrdered(front: seq<nat>, x: nat)
    requires Ordered(front + [x])
    ensures Ordered(front) && forall i :: 0 <= i < |front| ==> front[i] <= x
  {
    var a := front + [x];
    assert forall i :: 0 <= i < |front| ==> a[i] == front[i];
    assert a[|front|] == x;
  }

  lemma NothingRecent(now: nat)
    ensures KeepRecent([], now) == []
  {
  }

  lemma KeepRecentGrows(front: seq<nat>, x: nat, now: nat)
    ensures KeepRecent(front + [x], now) == KeepRecent(front, now) + if now < x + DAY then [x] else []
  {
    assert (front + [x])[..|front|] == front;
  }

  /** From ordered attempts, pruning keeps exactly the tail inside the window. */
  lemma {:induction false} KeepRecentIsTail(a: seq<nat>, now: nat) returns (k: nat)
    requires Ordered(a)
    ensures k <= |a| && KeepRecent(a, now) == a[k..]
    ensures forall i :: 0 <= i < |a| ==> (now < a[i] + DAY <==> k <= i)
  {
    hide Ordered, KeepRecent;
    if a == [] {
      NothingRecent(now);
      return 0;
    }
    var front, x := a[..|a| - 1], a[|a| - 1];
    assert a == front + [x];
    FrontIsOrdered(front, x);
    KeepRecentGrows(front, x, now);
    k := KeepRecentIsTail(front, now);
    CutGrows(front, x, now, k);
    if now < x + DAY {
      assert front[k..] + [x] == a[k..];
    } else {
      assert front[k..] == [] && a[|a|..] == [];
      k := |a|;
    }
  }

  /** Pruning exclusions keeps exactly the live ones. */
  lemma {:induction false} KeepLiveMembers(x: seq<Exclusion>, now: nat)
    ensures forall e :: e in KeepLive(x, now) <==> e in x && e.expiry > now
    ensures |KeepLive(x, now)| <= |x|
  {
    if x != [] {
      var k := |x| - 1;
      KeepLiveMembers(x[..k], now);
      assert x == x[..k] + [x[k]];
    }
  }

  predicate Named(x: seq<Exclusion>, name: string) {
    exists i :: 0 <= i < |x| && x[i].name == name
  }

  /** Pruning works entry by entry, so the live entries keep their order and multiplicity. */
  lemma NothingLive(now: nat)
    ensures KeepLive([], now) == []
  {
  }

  lemma KeepLiveLast(x: seq<Exclusion>, last: Exclusion, now: nat)
    ensures KeepLive(x + [last], now) == KeepLive(x, now) + if last.expiry > now then [last] else []
  {
    assert (x + [last])[..|x|] == x;
  }

  lemma {:induction false} KeepLiveAppend(x: seq<Exclusion>, y: seq<Exclusion>, now: nat)
    ensures KeepLive(x + y, now) == KeepLive(x, now) + KeepLive(y, now)
  {
    hide KeepLive;
    if y == [] {
      NothingLive(now);
      assert x + y == x && KeepLive(x, now) + [] == KeepLive(x, now);
    } else {
      var front, last := y[..|y| - 1], y[|y| - 1];
      KeepLiveAppend(x, front, now);
      KeepLiveLast(x + front, last, now);
      KeepLiveLast(front, last, now);
      assert x + y == (x + front) + [last] && y == front + [last];
    }
  }

  lemma {:induction false} KeepLiveDistinct(x: seq<Exclusion>, now: nat)
    requires Distinct(x)
    ensures Distinct(KeepLive(x, now))
  {
    if x != [] {
      var k := |x| - 1;
      var front := KeepLive(x[..k], now);
      KeepLiveDistinct(x[..k], now);
      KeepLiveMembers(x[..k], now);
      forall i | 0 <= i < |front| ensures front[i].name != x[k].name {
        assert front[i] in x[..k];
      }
    }
  }

  predicate InRange(r: Record, now: nat) {
    r.observed <= now && now + DAY <= EPOCH_MAX
  }

  lemma PrunedExclusions(x: seq<Exclusion>, observed: nat, now: nat)
    requires ExclusionsAreValid(x, observed) && observed <= now
    ensures ExclusionsAreValid(KeepLive(x, now), now)
  {
    KeepLiveMembers(x, now);
    KeepLiveDistinct(x, now);
    var y := KeepLive(x, now);
    hide KeepLive, Distinct, IsServerName;
    forall i | 0 <= i < |y|
      ensures IsServerName(y[i].name) && IsEpoch(y[i].expiry) && y[i].expiry <= now + EXCLUSION_LIFE
    {
      assert y[i] in y;
    }
  }

  lemma PrunedWindow(r: Record, now: nat)
    requires WindowIsValid(r) && InRange(r, now)
    ensures WindowIsValid(Pruned(r, now))
  {
    var k := KeepRecentIsTail(r.attempts, now);
    hide KeepRecent;
    var tail := r.attempts[k..];
    assert AttemptsAreValid(tail, now);
  }

  /** Pruning a valid record succeeds exactly at a later time in range, and keeps validity. */
  lemma PruneKeepsValidity(r: Record, now: nat, persistent: bool)
    requires MemoryIsValid(r, persistent)
    ensures Prune(r, now).ok <==> InRange(r, now)
    ensures Prune(r, now).ok ==> MemoryIsValid(Prune(r, now).record, persistent)
    ensures Prune(r, now).ok ==> Prune(r, now).record == Pruned(r, now)
  {
    if InRange(r, now) {
      PrunedWindow(r, now);
      PrunedExclusions(r.exclusions, r.observed, now);
      hide KeepRecent, KeepLive, IsServerName, IsDeviceName, AttemptsAreValid, ExclusionsAreValid;
    }
  }

  lemma {:induction false} KeepRecentTwice(a: seq<nat>, t: nat, now: nat)
    requires t <= now
    ensures KeepRecent(KeepRecent(a, t), now) == KeepRecent(a, now)
  {
    if a != [] {
      var k := |a| - 1;
      var front := KeepRecent(a[..k], t);
      KeepRecentTwice(a[..k], t, now);
      assert (front + [a[k]])[..|front|] == front;
      assert front + [] == front;
    }
  }

  lemma {:induction false} KeepLiveTwice(x: seq<Exclusion>, t: nat, now: nat)
    requires t <= now
    ensures KeepLive(KeepLive(x, t), now) == KeepLive(x, now)
  {
    if x != [] {
      var k := |x| - 1;
      var front := KeepLive(x[..k], t);
      KeepLiveTwice(x[..k], t, now);
      assert (front + [x[k]])[..|front|] == front;
      assert front + [] == front;
    }
  }

  /** Pruning on the way to a time does not change what pruning at that time leaves. */
  lemma PruneComposes(r: Record, t: nat, now: nat)
    requires t <= now
    ensures Pruned(Pruned(r, t), now) == Pruned(r, now)
  {
    KeepRecentTwice(r.attempts, t, now);
    KeepLiveTwice(r.exclusions, t, now);
  }

  // ----------------------------------------------------------- exclusions

  lemma WithoutMembers(x: seq<Exclusion>, k: nat)
    requires k < |x| && Distinct(x)
    ensures Distinct(Without(x, k)) && |Without(x, k)| == |x| - 1
    ensures forall e :: e in Without(x, k) <==> e in x && e != x[k]
    ensures !Named(Without(x, k), x[k].name)
  {
    var w := Without(x, k);
    assert forall i :: 0 <= i < |w| ==> w[i] == x[if i < k then i else i + 1];
    assert x == x[..k] + [x[k]] + x[k + 1..];
  }

  /** Every entry of `x` except `x[k]` survives in `y`, and no entry of `x` expires before `x[k]`. */
  predicate DropsOnlyLeast(x: seq<Exclusion>, k: nat, y: seq<Exclusion>) {
    && k < |x|
    && (forall i :: 0 <= i < |x| ==> x[k].expiry <= x[i].expiry)
    && (forall e :: e in x && e != x[k] ==> e in y)
    && x[k] !in y
  }

  lemma AppendNew(x: seq<Exclusion>, added: Exclusion)
    requires Distinct(x) && !Named(x, added.name)
    ensures Distinct(x + [added])
    ensures forall e :: e in x + [added] <==> e in x || e == added
  {
  }

  lemma RenewNamed(x: seq<Exclusion>, k: nat, expiry: nat)
    requires Distinct(x) && k < |x|
    ensures var y := x[k := Exclusion(x[k].name, expiry)];
            && Distinct(y)
            && (forall e :: e in y <==> (e in x && e.name != x[k].name) || e == Exclusion(x[k].name, expiry))
  {
    var added := Exclusion(x[k].name, expiry);
    var y := x[k := added];
    forall i, j | 0 <= i < j < |y| ensures y[i].name != y[j].name {
      assert y[i].name == x[i].name && y[j].name == x[j].name;
    }
    assert y[k] == added;
    forall e | e in x && e.name != x[k].name ensures e in y {
      var i :| 0 <= i < |x| && x[i] == e;
      assert y[i] == e;
    }
  }

  /** The renewed or new entry is present, and every other entry survives unless room was needed. */
  lemma WithExclusionMembers(x: seq<Exclusion>, name: string, expiry: nat)
    requires Distinct(x) && |x| <= MAX_EXCLUSIONS
    ensures var y := WithExclusion(x, name, expiry);
            && Distinct(y) && |y| <= MAX_EXCLUSIONS
            && Exclusion(name, expiry) in y
            && (forall e :: e in y && e != Exclusion(name, expiry) ==> e in x && e.name != name)
    ensures var y := WithExclusion(x, name, expiry);
            if Named(x, name) || |x| < MAX_EXCLUSIONS
            then forall e :: e in x && e.name != name ==> e in y
            else exists k :: DropsOnlyLeast(x, k, y)
  {
    var added := Exclusion(name, expiry);
    var k := FindExclusion(x, name);
    assert Named(x, name) <==> k < |x|;
    if k < |x| {
      RenewNamed(x, k, expiry);
      hide Distinct, FindExclusion;
    } else if |x| < MAX_EXCLUSIONS {
      AppendNew(x, added);
      hide Distinct, FindExclusion;
    } else {
      var o := Oldest(x);
      WithoutMembers(x, o);
      var base := Without(x, o);
      assert !Named(base, name) by {
        assert forall e :: e in base ==> e in x;
        forall i | 0 <= i < |base| ensures base[i].name != name {
          assert base[i] in base;
        }
      }
      AppendNew(base, added);
      assert x[o].name != name;
      hide Distinct, Named, Without;
      assert DropsOnlyLeast(x, o, base + [added]);
    }
  }

  lemma ExclusionValidity(x: seq<Exclusion>, name: string, now: nat)
    requires ExclusionsAreValid(x, now) && IsServerName(name) && now + EXCLUSION_LIFE <= EPOCH_MAX
    ensures ExclusionsAreValid(WithExclusion(x, name, now + EXCLUSION_LIFE), now)
  {
    WithExclusionMembers(x, name, now + EXCLUSION_LIFE);
    var y := WithExclusion(x, name, now + EXCLUSION_LIFE);
    hide WithExclusion;
    forall i | 0 <= i < |y|
      ensures IsServerName(y[i].name) && IsEpoch(y[i].expiry) && y[i].expiry <= now + EXCLUSION_LIFE
    {
      assert y[i] in y;
      if y[i] != Exclusion(name, now + EXCLUSION_LIFE) {
        var j :| 0 <= j < |x| && x[j] == y[i];
      }
    }
  }

  /** An exclusion is added exactly when its name is well formed and the time is in range. */
  lemma AddExclusionLaw(r: Record, name: string, now: nat, persistent: bool)
    requires MemoryIsValid(r, persistent)
    ensures AddExclusion(r, name, now).ok <==> IsServerName(name) && InRange(r, now)
    ensures AddExclusion(r, name, now).ok ==>
              && MemoryIsValid(AddExclusion(r, name, now).record, persistent)
              && AddExclusion(r, name, now).record
                 == Pruned(r, now).(exclusions :=
                     WithExclusion(KeepLive(r.exclusions, now), name, now + EXCLUSION_LIFE))
  {
    PruneKeepsValidity(r, now, persistent);
    if IsServerName(name) && InRange(r, now) {
      ExclusionValidity(Pruned(r, now).exclusions, name, now);
    }
  }

  lemma PersistentIsValid(r: Record)
    requires MemoryIsValid(r, true)
    ensures MemoryIsValid(r, false)
  {
  }

  /** Removing a live exclusion saves a record without it and with every other entry. */
  lemma RemoveExclusionLaw(l: Ledger, name: string, now: nat)
    requires MemoryIsValid(l.record, true) && l.locked
    ensures var live := KeepLive(l.record.exclusions, now);
            var reply := RemoveExclusion(l, name, now, Calm);
            && (reply.status.Done? <==> IsServerName(name) && InRange(l.record, now) && Named(live, name))
            && !reply.status.Deferred?
            && (reply.status.Done? ==>
                  && MemoryIsValid(reply.ledger.record, true)
                  && reply.ledger.file == Some(Render(reply.ledger.record))
                  && !Named(reply.ledger.record.exclusions, name)
                  && (forall e :: e in live && e.name != name <==> e in reply.ledger.record.exclusions)
                  && reply.ledger.record == Pruned(l.record, now).(exclusions := reply.ledger.record.exclusions))
  {
    PruneKeepsValidity(l.record, now, true);
    var live := KeepLive(l.record.exclusions, now);
    if IsServerName(name) && InRange(l.record, now) && Named(live, name) {
      var k := FindExclusion(live, name);
      WithoutMembers(live, k);
      var w := Without(live, k);
      hide Without, KeepRecent, KeepLive, IsServerName, IsDeviceName;
      forall i | 0 <= i < |w| ensures w[i] in live {
        assert w[i] in w;
      }
      assert ExclusionsAreValid(live, now);
      assert ExclusionsAreValid(w, now);
    }
  }

  // ------------------------------------------------------------- attempts

  /** Whether a valid record defers an attempt. */
  predicate MustWait(r: Record, now: nat, bypass: bool) {
    || |KeepRecent(r.attempts, now)| == MAX_ATTEMPTS
    || (r.backoffUntil > now && (r.failureClass.Rate? || r.failureClass.Transient? || !bypass))
  }

  lemma AttemptAllowedLaw(r: Record, now: nat, bypass: bool)
    requires MemoryIsValid(r, false) && InRange(r, now)
    ensures AttemptAllowed(r, now, bypass).record == Pruned(r, now)
    ensures AttemptAllowed(r, now, bypass).status == if MustWait(r, now, bypass) then Deferred else Done
  {
    PruneKeepsValidity(r, now, false);
  }

  /** With the lock and a calm disk an attempt is granted or deferred, never failed, and the record stays valid. */
  lemma RecordAttemptLaw(l: Ledger, now: nat, bypass: bool)
    requires MemoryIsValid(l.record, true) && l.locked && InRange(l.record, now)
    ensures var reply := RecordAttempt(l, now, bypass, Calm);
            && reply.status == (if MustWait(l.record, now, bypass) then Deferred else Done)
            && MemoryIsValid(reply.ledger.record, true)
            && reply.ledger.file == Some(Render(reply.ledger.record))
            && reply.ledger.record.attempts
               == KeepRecent(l.record.attempts, now) + if reply.status.Done? then [now] else []
  {
    PruneKeepsValidity(l.record, now, true);
    PersistentIsValid(l.record);
    AttemptAllowedLaw(l.record, now, bypass);
    var p := Pruned(l.record, now);
    if !MustWait(l.record, now, bypass) {
      hide KeepRecent, KeepLive, IsServerName, IsDeviceName;
      assert MemoryIsValid(WithAttempt(p, now), true);
    }
  }

  /** The gate answers as an attempt would, records nothing, and saves exactly when it defers. */
  lemma GateLaw(l: Ledger, now: nat, bypass: bool)
    requires MemoryIsValid(l.record, true) && l.locked && InRange(l.record, now)
    ensures var reply := GateBeforePreflight(l, now, bypass, Calm);
            && reply.status == (if MustWait(l.record, now, bypass) then Deferred else Done)
            && reply.ledger.record == Pruned(l.record, now)
            && reply.ledger.file == (if reply.status.Deferred? then Some(Render(Pruned(l.record, now))) else l.file)
  {
    PruneKeepsValidity(l.record, now, true);
    PersistentIsValid(l.record);
    AttemptAllowedLaw(l.record, now, bypass);
    hide AttemptAllowed, MemoryIsValid, MustWait, Pruned;
  }

  // -------------------------------------------------------------- backoff

  lemma {:induction false} PowerAtLeast(n: nat)
    requires n >= 7
    ensures Power2(n) >= 128
  {
    if n == 7 {
      assert Power2(3) == 8;
      assert Power2(5) == 32;
    } else {
      PowerAtLeast(n - 1);
    }
  }

  /** The result lies between five minutes and a day, and within six hours without Retry-After. */
  lemma BackoffRange(attempt: nat, jitter: string, random: nat, retryAfter: string)
    requires ComputeBackoff(attempt, jitter, random, retryAfter).Ok?
    ensures var b := ComputeBackoff(attempt, jitter, random, retryAfter).value;
            && BackoffBase(attempt) <= b <= DAY && 300 <= b
            && (retryAfter == "" ==> b <= BACKOFF_CAP && b <= BackoffBase(attempt) + BackoffBase(attempt) / 10)
            && (retryAfter != "" ==> DecimalValue(retryAfter) <= b)
  {
    assert Power2(attempt - 1) >= 1;
  }

  /** Without Retry-After no jitter makes an earlier failure wait longer than a later one. */
  lemma BackoffIsMonotone(attempt: nat, jitter: string, random: nat, laterJitter: string, laterRandom: nat)
    requires ComputeBackoff(attempt, jitter, random, "").Ok?
    requires ComputeBackoff(attempt + 1, laterJitter, laterRandom, "").Ok?
    ensures ComputeBackoff(attempt, jitter, random, "").value
            <= ComputeBackoff(attempt + 1, laterJitter, laterRandom, "").value
  {
    BackoffRange(attempt, jitter, random, "");
    BackoffRange(attempt + 1, laterJitter, laterRandom, "");
    assert Power2(attempt) == 2 * Power2(attempt - 1);
    assert BackoffBase(attempt) + BackoffBase(attempt) / 10 <= BackoffBase(attempt + 1)
           || BackoffBase(attempt + 1) == BACKOFF_CAP;
  }

  /** A supplied jitter is accepted exactly up to a tenth of the base, a Retry-After up to a day. */
  lemma BackoffAccepts(attempt: nat, jitter: string, random: nat, retryAfter: string)
    ensures ComputeBackoff(attempt, jitter, random, retryAfter).Ok? <==>
            && 1 <= attempt <= 100
            && (jitter != "" ==> UintIsCanonical(jitter, ToDecimal(BackoffBase(attempt) / 10)))
            && (retryAfter != "" ==> UintIsCanonical(retryAfter, "86400"))
  {
    if 1 <= attempt {
      DecimalRoundTrip(BackoffBase(attempt) / 10);
      UintIsNumericBound(jitter, ToDecimal(BackoffBase(attempt) / 10));
    }
    DecimalRoundTrip(86400);
    assert ToDecimal(86400) == "86400" by {
      assert ToDecimal(864) == "864";
    }
    UintIsNumericBound(retryAfter, "86400");
  }

  // ------------------------------------------------------------- outcomes

  /** The outcomes that may be recorded from a pruned record. */
  predicate OutcomeIsWellFormed(r: Record, now: nat, outcome: string, retryAfter: string, failedServer: string,
                                jitter: string) {
    && ClassNamed(outcome).Some?
    && (failedServer != "" ==> IsServerName(failedServer) && outcome != "none")
    && (if outcome in ["rate", "transient"] then
          && var n := |KeepRecent(r.attempts, now)|;
          && n >= 1
          && (jitter != "" ==> UintIsCanonical(jitter, ToDecimal(BackoffBase(n) / 10)))
          && (retryAfter != "" ==> UintIsCanonical(retryAfter, "86400"))
        else retryAfter == "")
  }

  lemma VerdictKeepsValidity(r: Record, c: FailureClass, until: nat)
    requires MemoryIsValid(r, true) && until <= r.observed + DAY && (c.NoFailure? <==> until == 0)
    ensures MemoryIsValid(r.(failureClass := c, backoffUntil := until), true)
  {
  }

  lemma ClassNames(outcome: string)
    ensures outcome == "none" <==> ClassNamed(outcome) == Some(NoFailure)
    ensures outcome in ["rate", "transient"] <==> ClassNamed(outcome) in [Some(Rate), Some(Transient)]
  {
  }

  /** Which outcomes get a sentence from a pruned record. */
  lemma SentenceAccepts(r: Record, now: nat, outcome: string, retryAfter: string, failedServer: string,
                        jitter: string, random: nat)
    requires r.attemptCount == |r.attempts| <= MAX_ATTEMPTS && KeepRecent(r.attempts, now) == r.attempts
    ensures var s := Sentence(r, now, outcome, retryAfter, failedServer, jitter, random);
            s.Ok? && (failedServer != "" ==> IsServerName(failedServer)) <==>
              OutcomeIsWellFormed(r, now, outcome, retryAfter, failedServer, jitter)
  {
    hide ComputeBackoff, BackoffBase, UintIsCanonical, IsServerName, KeepRecent, ClassNamed;
    ClassNames(outcome);
    BackoffAccepts(r.attemptCount, jitter, random, retryAfter);
  }

  /** What a sentence says. */
  lemma SentenceSays(r: Record, now: nat, outcome: string, retryAfter: string, failedServer: string,
                     jitter: string, random: nat)
    requires r.attemptCount <= MAX_ATTEMPTS
    requires Sentence(r, now, outcome, retryAfter, failedServer, jitter, random).Ok?
    ensures var s := Sentence(r, now, outcome, retryAfter, failedServer, jitter, random).value;
            && Some(s.failureClass) == ClassNamed(outcome)
            && s == r.(failureClass := s.failureClass, backoffUntil := s.backoffUntil)
            && (if outcome == "none" then s.backoffUntil == 0 else now + 300 <= s.backoffUntil <= now + DAY)
            && (s.failureClass.NoFailure? <==> outcome == "none")
  {
    hide ComputeBackoff, BackoffBase, ClassNamed;
    ClassNames(outcome);
    BackoffAccepts(r.attemptCount, jitter, random, retryAfter);
    if ComputeBackoff(r.attemptCount, jitter, random, retryAfter).Ok? {
      BackoffRange(r.attemptCount, jitter, random, retryAfter);
    }
  }

  lemma SentenceLaw(r: Record, now: nat, outcome: string, retryAfter: string, failedServer: string, jitter: string,
                    random: nat)
    requires MemoryIsValid(r, true) && r.observed == now
    requires KeepRecent(r.attempts, now) == r.attempts
    ensures var s := Sentence(r, now, outcome, retryAfter, failedServer, jitter, random);
            && (s.Ok? && (failedServer != "" ==> IsServerName(failedServer)) <==>
                OutcomeIsWellFormed(r, now, outcome, retryAfter, failedServer, jitter))
            && (s.Ok? ==>
                  && MemoryIsValid(s.value, true)
                  && Some(s.value.failureClass) == ClassNamed(outcome)
                  && s.value == r.(failureClass := s.value.failureClass, backoffUntil := s.value.backoffUntil)
                  && (outcome == "none" || now + 300 <= s.value.backoffUntil <= now + DAY))
  {
    assert r.attemptCount == |r.attempts| <= MAX_ATTEMPTS;
    hide MemoryIsValid, Sentence, OutcomeIsWellFormed, ClassNamed, IsServerName, KeepRecent;
    SentenceAccepts(r, now, outcome, retryAfter, failedServer, jitter, random);
    var s := Sentence(r, now, outcome, retryAfter, failedServer, jitter, random);
    if s.Ok? {
      SentenceSays(r, now, outcome, retryAfter, failedServer, jitter, random);
      VerdictKeepsValidity(r, s.value.failureClass, s.value.backoffUntil);
    }
  }

  /** The record a well-formed outcome leaves. */
  predicate Sentenced(r: Record, was: Record, now: nat, outcome: string, failedServer: string) {
    && MemoryIsValid(r, true)
    && r.observed == now
    && Some(r.failureClass) == ClassNamed(outcome)
    && (outcome == "none" || now + 300 <= r.backoffUntil <= now + DAY)
    && r.attempts == KeepRecent(was.attempts, now)
    && r.credential == was.credential && r.configuredDevice == was.configuredDevice
    && r.exclusions == (if failedServer == "" then KeepLive(was.exclusions, now)
                        else WithExclusion(KeepLive(was.exclusions, now), failedServer, now + EXCLUSION_LIFE))
  }

  lemma ExclusionAfterSentence(s: Record, failedServer: string, now: nat)
    requires MemoryIsValid(s, true) && s.observed == now
    requires KeepRecent(s.attempts, now) == s.attempts && KeepLive(s.exclusions, now) == s.exclusions
    ensures AddExclusion(s, failedServer, now)
            == if IsServerName(failedServer)
               then Edit(s.(exclusions := WithExclusion(s.exclusions, failedServer, now + EXCLUSION_LIFE)), true)
               else Edit(s, false)
    ensures IsServerName(failedServer) ==> MemoryIsValid(AddExclusion(s, failedServer, now).record, true)
  {
    AddExclusionLaw(s, failedServer, now, true);
    PruneKeepsValidity(s, now, true);
    hide KeepRecent, KeepLive, IsServerName, WithExclusion;
    assert Pruned(s, now) == s;
  }

  /** A well-formed outcome is recorded and saved with its class and deadline; anything else is refused unsaved. */
  lemma RecordOutcomeLaw(l: Ledger, now: nat, outcome: string, retryAfter: string, failedServer: string,
                         jitter: string, random: nat)
    requires MemoryIsValid(l.record, true) && l.locked && InRange(l.record, now)
    ensures var reply := RecordOutcome(l, now, outcome, retryAfter, failedServer, jitter, random, Calm);
            && reply.status == (if OutcomeIsWellFormed(l.record, now, outcome, retryAfter, failedServer, jitter)
                                then Done else Failed)
            && (reply.status.Failed? ==> reply.ledger.file == l.file)
            && (reply.status.Done? ==>
                  && Sentenced(reply.ledger.record, l.record, now, outcome, failedServer)
                  && reply.ledger.file == Some(Render(reply.ledger.record)))
  {
    PruneKeepsValidity(l.record, now, true);
    var p := Pruned(l.record, now);
    PruneComposes(l.record, now, now);
    assert Pruned(p, now) == p;
    hide Sentence, AddExclusion, MemoryIsValid, IsServerName, KeepRecent, KeepLive, WithExclusion, ClassNamed;
    var s := Sentence(p, now, outcome, retryAfter, failedServer, jitter, random);
    var wellFormed := OutcomeIsWellFormed(l.record, now, outcome, retryAfter, failedServer, jitter);
    assert (s.Ok? && (failedServer != "" ==> IsServerName(failedServer)) <==> wellFormed)
           && (s.Ok? ==> Sentenced(s.value, l.record, now, outcome, ""))
    by {
      SentenceLaw(p, now, outcome, retryAfter, failedServer, jitter, random);
      assert OutcomeIsWellFormed(p, now, outcome, retryAfter, failedServer, jitter) == wellFormed;
    }
    if s.Ok? {
      assert s.value.exclusions == p.exclusions && s.value.attempts == p.attempts;
      ExclusionAfterSentence(s.value, failedServer, now);
    }
    hide OutcomeIsWellFormed;
  }

  // ------------------------------------------------------------- identity

  /** A readable key file whose clock is not ahead completes the record; only its failures are forgiven. */
  lemma RefreshIdentityLaw(r: Record, now: nat, device: string, installed: Option<Identity>, persistent: bool)
    requires MemoryIsValid(r, persistent)
    ensures var e := RefreshIdentity(r, now, device, installed);
            && (e.ok <==>
                && IsDeviceName(device) && InRange(r, now) && installed.Some? && IdentityIsValid(installed.value)
                && installed.value.size == KEY_RECORD_SIZE && installed.value.mtime <= now + 300)
            && (e.ok ==>
                  && MemoryIsValid(e.record, true)
                  && e.record.credential == installed.value && e.record.configuredDevice == device
                  && e.record.attempts == KeepRecent(r.attempts, now)
                  && (if (r.failureClass.Auth? || r.failureClass.Device?)
                         && (r.credential != installed.value || r.configuredDevice != device)
                      then e.record.failureClass == NoFailure
                      else e.record.failureClass == r.failureClass && e.record.backoffUntil == r.backoffUntil))
  {
    PruneKeepsValidity(r, now, persistent);
    hide KeepRecent, KeepLive, IsServerName, IsDeviceName, Distinct;
  }

  // ---------------------------------------------------------------- loads

  /** Loading a saved record later gives that record pruned to the new time. */
  lemma LoadAfterSave(r: Record, l: Ledger, now: nat)
    requires MemoryIsValid(r, true) && l.file == Some(Render(r))
    ensures Load(l, now).status.Done? <==> InRange(r, now)
    ensures InRange(r, now) ==> Load(l, now) == Reply(l.(record := Pruned(r, now)), Done)
    ensures InRange(r, now) ==> MemoryIsValid(Pruned(r, now), true)
  {
    RenderingIsReadable(r);
    PruneKeepsValidity(r, now, true);
  }

  /** A load that succeeds leaves a valid record, and a complete one whenever there was a file. */
  lemma LoadIsValid(l: Ledger, now: nat)
    requires Load(l, now).status.Done?
    ensures now + DAY <= EPOCH_MAX || l.file.None?
    ensures l.file.Some? ==>
              && Parse(l.file.value).Ok?
              && MemoryIsValid(Parse(l.file.value).value, true)
              && Load(l, now).ledger.record == Pruned(Parse(l.file.value).value, now)
              && MemoryIsValid(Load(l, now).ledger.record, true)
    ensures l.file.None? && now + DAY <= EPOCH_MAX ==> MemoryIsValid(Load(l, now).ledger.record, false)
  {
    if l.file.Some? {
      var r := Parse(l.file.value).value;
      PruneKeepsValidity(r, now, true);
    }
  }
}
