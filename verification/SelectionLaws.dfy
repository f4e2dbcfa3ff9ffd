/** The server chosen does not depend on the order of the list, except through the sign of a zero. */
module SelectionLaws {
  import opened Wrappers
  import opened Selection

  lemma EvaluatedIsShaped(e: Env, q: Query, s: Server)
    ensures Evaluate(e, q, s).Eligible? ==> WellShaped(Evaluate(e, q, s).candidate.key)
  {
    hide Score, EntryAddresses, Display, ShownName, PositionOf;
  }

  predicate AnyRefused(e: Env, q: Query, servers: seq<Server>) {
    exists i :: 0 <= i < |servers| && Evaluate(e, q, servers[i]) == Refused
  }

  lemma OffersSnoc(e: Env, q: Query, servers: seq<Server>, c: Candidate)
    requires servers != []
    ensures var k := |servers| - 1;
            Offers(e, q, servers, c) <==> Offers(e, q, servers[..k], c) || Evaluate(e, q, servers[k]) == Eligible(c)
    ensures var k := |servers| - 1;
            AnyRefused(e, q, servers) <==> AnyRefused(e, q, servers[..k]) || Evaluate(e, q, servers[k]) == Refused
  {
    hide Evaluate;
    var k := |servers| - 1;
    assert forall i :: 0 <= i < k ==> servers[..k][i] == servers[i];
  }

  lemma {:induction false} OffersAreShaped(e: Env, q: Query, servers: seq<Server>, c: Candidate)
    requires Offers(e, q, servers, c)
    ensures WellShaped(c.key)
  {
    var i :| 0 <= i < |servers| && Evaluate(e, q, servers[i]) == Eligible(c);
    EvaluatedIsShaped(e, q, servers[i]);
  }

  /** Selection fails exactly on a refused server, finds nothing exactly without offers, else finds a least offer. */
  lemma {:induction false} SelectIsLeast(e: Env, q: Query, servers: seq<Server>)
    ensures Select(e, q, servers).Err? <==> AnyRefused(e, q, servers)
    ensures Select(e, q, servers).Ok? ==>
              && (Select(e, q, servers).value.None? <==> forall c :: !Offers(e, q, servers, c))
              && (Select(e, q, servers).value.Some? ==> IsLeast(e, q, servers, Select(e, q, servers).value.value))
  {
    if servers != [] {
      var k := |servers| - 1;
      var front := servers[..k];
      SelectIsLeast(e, q, front);
      var verdict := Evaluate(e, q, servers[k]);
      hide Evaluate, Offers, AnyRefused, KeyLess;
      forall c ensures Offers(e, q, servers, c) <==> Offers(e, q, front, c) || verdict == Eligible(c) {
        OffersSnoc(e, q, servers, c);
      }
      if verdict.Eligible? {
        OffersSnoc(e, q, servers, verdict.candidate);
        if Select(e, q, front).Ok? {
          LeastOfTwo(e, q, servers, front, Select(e, q, front).value, verdict.candidate);
        }
      } else {
        OffersSnoc(e, q, servers,
            Candidate(Key([], []), Record("", "", 0, "", "", Number(false, 0), Number(false, 0), Number(false, 0))));
      }
    } else {
      assert forall c :: !Offers(e, q, servers, c);
    }
  }

  lemma LeastOfTwo(e: Env, q: Query, servers: seq<Server>, front: seq<Server>, best: Option<Candidate>,
                   added: Candidate)
    requires forall c :: Offers(e, q, servers, c) <==> Offers(e, q, front, c) || c == added
    requires if best.None? then forall c :: !Offers(e, q, front, c) else IsLeast(e, q, front, best.value)
    ensures var next := if best.None? || KeyLess(added.key, best.value.key) then added else best.value;
            IsLeast(e, q, servers, next)
  {
    hide Offers, KeyLess;
    assert Offers(e, q, servers, added);
    OffersAreShaped(e, q, servers, added);
    KeyOrder(added.key, added.key, added.key);
    if best.Some? {
      OffersAreShaped(e, q, front, best.value);
      KeyOrder(added.key, best.value.key, added.key);
      KeyOrder(best.value.key, best.value.key, best.value.key);
      forall d | Offers(e, q, front, d) ensures KeyLess(added.key, best.value.key) ==> !KeyLess(d.key, added.key) {
        OffersAreShaped(e, q, front, d);
        KeyOrder(d.key, added.key, best.value.key);
      }
    }
  }

  predicate Permuted(a: seq<Server>, b: seq<Server>) {
    multiset(a) == multiset(b)
  }

  lemma PermutedOffers(e: Env, q: Query, a: seq<Server>, b: seq<Server>, c: Candidate)
    requires Permuted(a, b)
    ensures Offers(e, q, a, c) == Offers(e, q, b, c)
    ensures AnyRefused(e, q, a) == AnyRefused(e, q, b)
  {
    hide Evaluate;
    forall s ensures s in a <==> s in b {
      assert s in multiset(a) <==> s in multiset(b);
    }
    if Offers(e, q, a, c) {
      var i :| 0 <= i < |a| && Evaluate(e, q, a[i]) == Eligible(c);
      assert a[i] in b;
    }
    if Offers(e, q, b, c) {
      var i :| 0 <= i < |b| && Evaluate(e, q, b[i]) == Eligible(c);
      assert b[i] in a;
    }
    if AnyRefused(e, q, a) {
      var i :| 0 <= i < |a| && Evaluate(e, q, a[i]) == Refused;
      assert a[i] in b;
    }
    if AnyRefused(e, q, b) {
      var i :| 0 <= i < |b| && Evaluate(e, q, b[i]) == Refused;
      assert b[i] in a;
    }
  }

  /** Any two orders fail together, find nothing together, or choose candidates of the same key. */
  lemma KeyIsOrderFree(e: Env, q: Query, a: seq<Server>, b: seq<Server>)
    requires Permuted(a, b)
    ensures var x, y := Select(e, q, a), Select(e, q, b);
            && x.Ok? == y.Ok?
            && (x.Ok? ==> x.value.Some? == y.value.Some?)
            && (x.Ok? && x.value.Some? ==> x.value.value.key == y.value.value.key && Offers(e, q, a, y.value.value))
  {
    SelectIsLeast(e, q, a);
    SelectIsLeast(e, q, b);
    hide Select, Offers, AnyRefused, KeyLess;
    forall c ensures Offers(e, q, a, c) == Offers(e, q, b, c) && AnyRefused(e, q, a) == AnyRefused(e, q, b) {
      PermutedOffers(e, q, a, b, c);
    }
    assert AnyRefused(e, q, a) == AnyRefused(e, q, b) by {
      PermutedOffers(e, q, a, b,
          Candidate(Key([], []), Record("", "", 0, "", "", Number(false, 0), Number(false, 0), Number(false, 0))));
    }
    var x, y := Select(e, q, a), Select(e, q, b);
    if x.Ok? && x.value.Some? {
      OffersAreShaped(e, q, a, x.value.value);
      OffersAreShaped(e, q, a, y.value.value);
      KeyOrder(x.value.value.key, y.value.value.key, x.value.value.key);
    }
  }

  // ----------------------------------------------------------- signed zeros

  predicate Unsigned(n: Option<Number>) {
    n.Some? ==> !n.value.negative
  }

  /** No number of the server is a zero written with a minus sign. */
  predicate NoSignedZero(s: Server) {
    Unsigned(s.load) && Unsigned(s.users) && Unsigned(s.bandwidth)
  }

  predicate SameNumbers(a: Record, b: Record) {
    a.load.units == b.load.units && a.users.units == b.users.units && a.bandwidth.units == b.bandwidth.units
  }

  predicate SameButSigns(a: Record, b: Record) {
    && a.name == b.name && a.ip == b.ip && a.port == b.port && a.country == b.country && a.location == b.location
    && SameNumbers(a, b)
  }

  /** An offer's key repeats its whole record, up to the signs of its numbers. */
  predicate KeyTells(c: Candidate, port: nat) {
    && |c.key.numbers| == 5 && |c.key.texts| == 5
    && c.key.numbers[1] == c.record.load.units && c.key.numbers[2] == -(c.record.bandwidth.units as int)
    && c.key.numbers[3] == c.record.users.units
    && c.key.texts[1] == c.record.name && c.key.texts[2] == c.record.ip && c.key.texts[3] == c.record.country
    && c.key.texts[4] == c.record.location && c.record.port == port
  }

  lemma EvaluatedTells(e: Env, q: Query, s: Server)
    ensures Evaluate(e, q, s).Eligible? ==> KeyTells(Evaluate(e, q, s).candidate, q.port)
    ensures Evaluate(e, q, s).Eligible? ==>
              var r := Evaluate(e, q, s).candidate.record;
              s.load == Some(r.load) && s.users == Some(r.users) && s.bandwidth == Some(r.bandwidth)
  {
    hide Score, EntryAddresses, Display, ShownName, PositionOf;
  }

  lemma SameKeySameRecord(a: Candidate, b: Candidate, port: nat)
    requires KeyTells(a, port) && KeyTells(b, port) && a.key == b.key
    ensures SameButSigns(a.record, b.record)
  {
  }

  /** When no zero is signed every order of the list gives the same answer. */
  lemma SelectionIsOrderFree(e: Env, q: Query, a: seq<Server>, b: seq<Server>)
    requires Permuted(a, b) && forall i :: 0 <= i < |a| ==> NoSignedZero(a[i])
    ensures Select(e, q, a) == Select(e, q, b)
  {
    KeyIsOrderFree(e, q, a, b);
    SelectIsLeast(e, q, a);
    var x, y := Select(e, q, a), Select(e, q, b);
    hide Select;
    if x.Ok? && x.value.Some? {
      var i :| 0 <= i < |a| && Evaluate(e, q, a[i]) == Eligible(x.value.value);
      var j :| 0 <= j < |a| && Evaluate(e, q, a[j]) == Eligible(y.value.value);
      EvaluatedTells(e, q, a[i]);
      EvaluatedTells(e, q, a[j]);
      hide Evaluate;
      SameKeySameRecord(x.value.value, y.value.value, q.port);
    }
  }

  /** The choice scores least among the servers that are healthy, allowed, not excluded and not current. */
  lemma SelectionScoresLeast(e: Env, q: Query, servers: seq<Server>, i: nat)
    requires Select(e, q, servers).Ok? && i < |servers| && Evaluate(e, q, servers[i]).Eligible?
    ensures Select(e, q, servers).value.Some?
    ensures WellShaped(Select(e, q, servers).value.value.key) && WellShaped(Evaluate(e, q, servers[i]).candidate.key)
    ensures Select(e, q, servers).value.value.key.numbers[0] <= Evaluate(e, q, servers[i]).candidate.key.numbers[0]
  {
    SelectIsLeast(e, q, servers);
    var c := Evaluate(e, q, servers[i]).candidate;
    assert Offers(e, q, servers, c);
    var best := Select(e, q, servers).value.value;
    OffersAreShaped(e, q, servers, best);
    OffersAreShaped(e, q, servers, c);
    hide Select, Evaluate, Offers, TextsLess;
    assert !KeyLess(c.key, best.key);
  }

  /** An eligible server is healthy, allowed, not excluded and has no current address, and its score is exact. */
  lemma EligibleMeans(e: Env, q: Query, s: Server)
    requires Evaluate(e, q, s).Eligible?
    ensures s.health == Content("ok")
    ensures NameField(s).Content? ==> NameField(s).text !in q.excluded
    ensures var c := Evaluate(e, q, s).candidate;
            && (q.allowed != [] ==> c.record.country in q.allowed)
            && (q.current.Some? ==> c.record.ip != q.current.value.text || q.current.value.version != 4)
            && s.load.Some? && s.users.Some? && s.bandwidth.Some?
            && c.key.numbers != []
            && c.key.numbers[0] == Score(s.load.value, s.users.value, s.bandwidth.value,
                                         if q.allowed == [] then 0 else PositionOf(q.allowed, c.record.country))
  {
    var v4 := EntryAddresses(e, s.v4, 4);
    AddressesHaveVersion(e, s.v4, 4);
    hide Score, EntryAddresses, Display, ShownName;
    assert v4.value[0].version == 4;
    assert q.current.Some? ==> v4.value[0] in v4.value + EntryAddresses(e, s.v6, 6).value;
  }

  lemma {:induction false} AddressesHaveVersion(e: Env, fields: seq<Field>, version: nat)
    ensures EntryAddresses(e, fields, version).Ok? ==>
              forall i :: 0 <= i < |EntryAddresses(e, fields, version).value| ==>
                EntryAddresses(e, fields, version).value[i].version == version
  {
    if fields != [] {
      AddressesHaveVersion(e, fields[1..], version);
    }
  }

  /** Two otherwise equal servers, one with load "-0", are chosen by position. */
  lemma SignedZeroDependsOnOrder(e: Env, q: Query, s: Server)
    requires Evaluate(e, q, s).Eligible? && s.load == Some(Number(false, 0))
    ensures var t := s.(load := Some(Number(true, 0)));
            && Select(e, q, [s, t]).Ok? && Select(e, q, [t, s]).Ok?
            && Select(e, q, [s, t]) != Select(e, q, [t, s])
  {
    var t := s.(load := Some(Number(true, 0)));
    SignedTwin(e, q, s);
    var a, b := Evaluate(e, q, s).candidate, Evaluate(e, q, t).candidate;
    EvaluatedIsShaped(e, q, s);
    KeyOrder(a.key, b.key, a.key);
    hide Evaluate, KeyLess;
    First(e, q, s, t);
    First(e, q, t, s);
  }

  lemma SignedTwin(e: Env, q: Query, s: Server)
    requires Evaluate(e, q, s).Eligible? && s.load == Some(Number(false, 0))
    ensures var t := s.(load := Some(Number(true, 0)));
            && Evaluate(e, q, t).Eligible?
            && Evaluate(e, q, t).candidate.key == Evaluate(e, q, s).candidate.key
            && Evaluate(e, q, t).candidate.record.load != Evaluate(e, q, s).candidate.record.load
  {
    hide EntryAddresses, Display, PositionOf;
  }

  lemma First(e: Env, q: Query, s: Server, t: Server)
    requires Evaluate(e, q, s).Eligible? && Evaluate(e, q, t).Eligible?
    requires !KeyLess(Evaluate(e, q, t).candidate.key, Evaluate(e, q, s).candidate.key)
    ensures Select(e, q, [s, t]) == Ok(Some(Evaluate(e, q, s).candidate))
  {
    hide Evaluate, KeyLess;
    assert [s, t][..1] == [s] && [s][..0] == [];
    assert Select(e, q, [s]) == Ok(Some(Evaluate(e, q, s).candidate));
  }

  /** The offers of least key are one and the same candidate. */
  ghost predicate LeastAgree(e: Env, q: Query, servers: seq<Server>) {
    forall c, d :: IsLeast(e, q, servers, c) && IsLeast(e, q, servers, d) ==> c == d
  }

  function ToFront(servers: seq<Server>, i: nat): seq<Server>
    requires i < |servers|
  {
    [servers[i]] + servers[..i] + servers[i + 1..]
  }

  lemma ToFrontPermutes(servers: seq<Server>, i: nat)
    requires i < |servers|
    ensures Permuted(servers, ToFront(servers, i))
  {
    assert servers == servers[..i] + [servers[i]] + servers[i + 1..];
  }

  /** A least candidate offered first is the one chosen. */
  lemma {:induction false} FirstLeastWins(e: Env, q: Query, servers: seq<Server>, k: nat, c: Candidate)
    requires 1 <= k <= |servers| && Evaluate(e, q, servers[0]) == Eligible(c)
    requires IsLeast(e, q, servers, c) && !AnyRefused(e, q, servers)
    ensures Select(e, q, servers[..k]) == Ok(Some(c))
    decreases k
  {
    hide Evaluate, KeyLess;
    if k == 1 {
      assert servers[..1][..0] == [];
    } else {
      FirstLeastWins(e, q, servers, k - 1, c);
      assert servers[..k][..k - 1] == servers[..k - 1];
      var verdict := Evaluate(e, q, servers[k - 1]);
      assert verdict != Refused;
      assert verdict.Eligible? ==> Offers(e, q, servers, verdict.candidate);
    }
  }

  lemma PermutedLeast(e: Env, q: Query, a: seq<Server>, b: seq<Server>, c: Candidate)
    requires Permuted(a, b) && IsLeast(e, q, a, c)
    ensures IsLeast(e, q, b, c)
  {
    hide Offers, KeyLess;
    forall d ensures Offers(e, q, a, d) == Offers(e, q, b, d) {
      PermutedOffers(e, q, a, b, d);
    }
  }

  lemma LeastCanWin(e: Env, q: Query, servers: seq<Server>, c: Candidate) returns (order: seq<Server>)
    requires IsLeast(e, q, servers, c) && !AnyRefused(e, q, servers)
    ensures Permuted(servers, order) && Select(e, q, order) == Ok(Some(c))
  {
    var i :| 0 <= i < |servers| && Evaluate(e, q, servers[i]) == Eligible(c);
    hide Evaluate, KeyLess, Select;
    order := ToFront(servers, i);
    ToFrontPermutes(servers, i);
    PermutedLeast(e, q, servers, order, c);
    PermutedOffers(e, q, servers, order, c);
    assert order[..|order|] == order;
    FirstLeastWins(e, q, order, |order|, c);
  }

  /** Every order gives the same answer exactly when the list is refused or its least offers are one and the same. */
  lemma OrderFreeExactly(e: Env, q: Query, servers: seq<Server>)
    ensures (forall order :: Permuted(servers, order) ==> Select(e, q, order) == Select(e, q, servers))
            <==> AnyRefused(e, q, servers) || LeastAgree(e, q, servers)
  {
    SelectIsLeast(e, q, servers);
    hide Select, Evaluate, KeyLess;
    if AnyRefused(e, q, servers) || LeastAgree(e, q, servers) {
      forall order | Permuted(servers, order) ensures Select(e, q, order) == Select(e, q, servers) {
        KeyIsOrderFree(e, q, servers, order);
        SelectIsLeast(e, q, order);
        if Select(e, q, order).Ok? && Select(e, q, order).value.Some? {
          PermutedLeast(e, q, order, servers, Select(e, q, order).value.value);
        }
      }
    } else {
      var c, d :| IsLeast(e, q, servers, c) && IsLeast(e, q, servers, d) && c != d;
      var x := LeastCanWin(e, q, servers, c);
      var y := LeastCanWin(e, q, servers, d);
    }
  }

  /** Least offers that differ have the same units everywhere and differ in the sign of some zero. */
  lemma OnlySignsDiffer(e: Env, q: Query, servers: seq<Server>, c: Candidate, d: Candidate)
    requires IsLeast(e, q, servers, c) && IsLeast(e, q, servers, d)
    ensures c.key == d.key && SameButSigns(c.record, d.record)
  {
    OffersAreShaped(e, q, servers, c);
    OffersAreShaped(e, q, servers, d);
    KeyOrder(c.key, d.key, c.key);
    var i :| 0 <= i < |servers| && Evaluate(e, q, servers[i]) == Eligible(c);
    var j :| 0 <= j < |servers| && Evaluate(e, q, servers[j]) == Eligible(d);
    EvaluatedTells(e, q, servers[i]);
    EvaluatedTells(e, q, servers[j]);
    SameKeySameRecord(c, d, q.port);
  }
}
