/** Choosing one server from the provider's status list, whatever order the list comes in. */
module Selection {
  import opened Wrappers
  import opened Text

  // --------------------------------------------------------------- servers

  /** A non-negative decimal in units of 10^-12; only zero can carry a minus sign. */
  datatype Number = Number(negative: bool, units: nat)

  const UNIT: nat := 1_000_000_000_000

  /** A field of the status document: missing, text, or something else. */
  datatype Field = Absent | Content(text: string) | Other

  datatype Address = Address(version: nat, text: string)

  /** One server; numbers are absent when missing, malformed or out of bounds. */
  datatype Server = Server(
    publicName: Field,
    name: Field,
    health: Field,
    countryCode: Field,
    location: Field,
    v4: seq<Field>,
    v6: seq<Field>,
    load: Option<Number>,
    users: Option<Number>,
    bandwidth: Option<Number>)

  /** Upper-casing, case folding, display clean-up and address parsing of the platform. */
  datatype Env = Env(
    upper: string -> string,
    fold: string -> string,
    sanitize: string -> Option<string>,
    address: string -> Option<Address>)

  datatype Query = Query(excluded: set<string>, allowed: seq<string>, current: Option<Address>, port: nat)

  datatype Record = Record(
    name: string,
    ip: string,
    port: nat,
    country: string,
    location: string,
    bandwidth: Number,
    load: Number,
    users: Number)

  /** Compared number by number and then text by text. */
  datatype Key = Key(numbers: seq<int>, texts: seq<string>)

  datatype Candidate = Candidate(key: Key, record: Record)

  datatype Verdict = Skipped | Refused | Eligible(candidate: Candidate)

  // ------------------------------------------------------------ evaluation

  function Display(e: Env, f: Field, default: string): Result<string> {
    match f
    case Absent => Ok(default)
    case Other => Err
    case Content(text) =>
      (match e.sanitize(text)
       case None => Err
       case Some(shown) => Ok(if shown == "" then default else shown))
  }

  /** The addresses of one family, or an error for a field that is no address of it. */
  function EntryAddresses(e: Env, fields: seq<Field>, version: nat): Result<seq<Address>> {
    if fields == [] then Ok([])
    else
      var rest :- EntryAddresses(e, fields[1..], version);
      match fields[0]
      case Absent => Ok(rest)
      case Other => Err
      case Content(text) =>
        if text == "" then Ok(rest)
        else
          var a := e.address(text);
          if a.None? || a.value.version != version then Err else Ok([a.value] + rest)
  }

  function PositionOf(items: seq<string>, item: string): (k: nat)
    ensures k <= |items|
    ensures k < |items| <==> item in items
  {
    if items == [] then 0
    else if items[0] == item then 0
    else
      var k := PositionOf(items[1..], item);
      assert items == [items[0]] + items[1..];
      1 + k
  }

  function Min(a: nat, b: nat): nat {
    if a <= b then a else b
  }

  /** load + users/100 + 0.25 per place in the list - min(bandwidth, 20000)/100000, in units of 10^-17. */
  function Score(load: Number, users: Number, bandwidth: Number, preference: nat): int {
    load.units * 100_000 + users.units * 1_000 + preference * 25_000_000_000_000_000
    - Min(bandwidth.units, 20_000 * UNIT)
  }

  /** The display name: the public one, or the plain one, or "unknown". */
  function ShownName(e: Env, s: Server): Result<string> {
    var name :- Display(e, s.publicName, "");
    if name != "" then Ok(name) else Display(e, s.name, "unknown")
  }

  function MakeCandidate(e: Env, q: Query, s: Server, country: string, ip: Address): Result<Candidate> {
    if s.load.None? || s.users.None? || s.bandwidth.None? || s.users.value.units % UNIT != 0 then Err
    else
      var name :- ShownName(e, s);
      var location :- Display(e, s.location, "");
      var load, users, bandwidth := s.load.value, s.users.value, s.bandwidth.value;
      var place := PositionOf(q.allowed, country);
      var preference := if place < |q.allowed| then place else 0;
      Ok(Candidate(
        Key([Score(load, users, bandwidth, preference), load.units, -(bandwidth.units as int), users.units, preference],
            [e.fold(name), name, ip.text, country, location]),
        Record(name, ip.text, q.port, country, location, bandwidth, load, users)))
  }

  function NameField(s: Server): Field {
    if s.publicName == Absent || s.publicName == Content("") then s.name else s.publicName
  }

  function Evaluate(e: Env, q: Query, s: Server): Verdict {
    var name := NameField(s);
    if name.Content? && name.text in q.excluded then Skipped
    else if !s.health.Content? then Refused
    else if s.health.text != "ok" then Skipped
    else
      var country := Display(e, s.countryCode, "");
      if country.Err? then Refused
      else
        var code := e.upper(country.value);
        if q.allowed != [] && code !in q.allowed then Skipped
        else
          var v4, v6 := EntryAddresses(e, s.v4, 4), EntryAddresses(e, s.v6, 6);
          if v4.Err? || v6.Err? then Refused
          else if q.current.Some? && q.current.value in v4.value + v6.value then Skipped
          else if s.v4 == [] || s.v4[0] == Absent || s.v4[0] == Content("") || v4.value == [] then Refused
          else
            var c := MakeCandidate(e, q, s, code, v4.value[0]);
            if c.Err? then Refused else Eligible(c.value)
  }

  // ------------------------------------------------------------- ordering

  function NumbersLess(a: seq<int>, b: seq<int>): bool {
    if a == [] || b == [] then false
    else a[0] < b[0] || (a[0] == b[0] && NumbersLess(a[1..], b[1..]))
  }

  function TextsLess(a: seq<string>, b: seq<string>): bool {
    if a == [] || b == [] then false
    else TextLess(a[0], b[0]) || (a[0] == b[0] && TextsLess(a[1..], b[1..]))
  }

  predicate KeyLess(a: Key, b: Key) {
    NumbersLess(a.numbers, b.numbers) || (a.numbers == b.numbers && TextsLess(a.texts, b.texts))
  }

  predicate WellShaped(k: Key) {
    |k.numbers| == 5 && |k.texts| == 5
  }

  lemma {:induction false} TextOrder(a: string, b: string, c: string)
    ensures !TextLess(a, a)
    ensures TextLess(a, b) || TextLess(b, a) || a == b
    ensures TextLess(a, b) && TextLess(b, c) ==> TextLess(a, c)
    decreases |a| + |b| + |c|
  {
    if a != "" && b != "" && c != "" {
      TextOrder(a[1..], b[1..], c[1..]);
      assert a == [a[0]] + a[1..] && b == [b[0]] + b[1..];
    } else if a != "" {
      if b != "" {
        TextOrder(a[1..], b[1..], c);
        assert a == [a[0]] + a[1..] && b == [b[0]] + b[1..];
      } else {
        TextOrder(a[1..], b, c);
      }
    }
  }

  lemma {:induction false} NumbersOrder(a: seq<int>, b: seq<int>, c: seq<int>)
    requires |a| == |b| == |c|
    ensures !NumbersLess(a, a)
    ensures NumbersLess(a, b) || NumbersLess(b, a) || a == b
    ensures NumbersLess(a, b) && NumbersLess(b, c) ==> NumbersLess(a, c)
  {
    if a != [] {
      NumbersOrder(a[1..], b[1..], c[1..]);
      assert a == [a[0]] + a[1..] && b == [b[0]] + b[1..];
    }
  }

  lemma {:induction false} TextsOrder(a: seq<string>, b: seq<string>, c: seq<string>)
    requires |a| == |b| == |c|
    ensures !TextsLess(a, a)
    ensures TextsLess(a, b) || TextsLess(b, a) || a == b
    ensures TextsLess(a, b) && TextsLess(b, c) ==> TextsLess(a, c)
  {
    if a != [] {
      TextOrder(a[0], b[0], c[0]);
      TextsOrder(a[1..], b[1..], c[1..]);
      hide TextLess;
      assert a == [a[0]] + a[1..] && b == [b[0]] + b[1..];
    }
  }

  /** Keys are totally ordered. */
  lemma KeyOrder(a: Key, b: Key, c: Key)
    requires WellShaped(a) && WellShaped(b) && WellShaped(c)
    ensures !KeyLess(a, a)
    ensures KeyLess(a, b) || KeyLess(b, a) || a == b
    ensures KeyLess(a, b) && KeyLess(b, c) ==> KeyLess(a, c)
  {
    NumbersOrder(a.numbers, b.numbers, c.numbers);
    TextsOrder(a.texts, b.texts, c.texts);
    hide NumbersLess, TextsLess;
  }

  // ------------------------------------------------------------ selection

  /** The first candidate of least key, or an error if any server is refused. */
  function Select(e: Env, q: Query, servers: seq<Server>): Result<Option<Candidate>> {
    if servers == [] then Ok(None)
    else
      var k := |servers| - 1;
      var front :- Select(e, q, servers[..k]);
      match Evaluate(e, q, servers[k])
      case Refused => Err
      case Skipped => Ok(front)
      case Eligible(c) =>
        if front.None? || KeyLess(c.key, front.value.key) then Ok(Some(c)) else Ok(front)
  }

  lemma {:induction false} SelectFails(e: Env, q: Query, servers: seq<Server>, k: nat)
    requires k <= |servers| && Select(e, q, servers[..k]).Err?
    ensures Select(e, q, servers).Err?
    decreases |servers| - k
  {
    if k < |servers| {
      assert servers[..k + 1][..k] == servers[..k];
      SelectFails(e, q, servers, k + 1);
    } else {
      assert servers[..k] == servers;
    }
  }

  method SelectCandidate(e: Env, q: Query, servers: seq<Server>) returns (r: Result<Option<Record>>)
    ensures var best := Select(e, q, servers);
            r == if best.Err? then Err else if best.value.None? then Ok(None) else Ok(Some(best.value.value.record))
  {
    hide Evaluate;
    var best: Option<Candidate>, i := None, 0;
    while i < |servers|
      invariant 0 <= i <= |servers|
      invariant Select(e, q, servers[..i]) == Ok(best)
    {
      var verdict := Evaluate(e, q, servers[i]);
      assert servers[..i + 1][..i] == servers[..i];
      i := i + 1;
      if verdict.Refused? {
        SelectFails(e, q, servers, i);
        return Err;
      }
      if verdict.Eligible? && (best.None? || KeyLess(verdict.candidate.key, best.value.key)) {
        best := Some(verdict.candidate);
      }
    }
    assert servers[..i] == servers;
    return Ok(if best.None? then None else Some(best.value.record));
  }

  predicate Offers(e: Env, q: Query, servers: seq<Server>, c: Candidate) {
    exists i :: 0 <= i < |servers| && Evaluate(e, q, servers[i]) == Eligible(c)
  }

  /** The candidate is on offer and nothing on offer is less. */
  ghost predicate IsLeast(e: Env, q: Query, servers: seq<Server>, c: Candidate) {
    Offers(e, q, servers, c) && forall d :: Offers(e, q, servers, d) ==> !KeyLess(d.key, c.key)
  }
}
