/** Round trips of whole profiles, and what a pinned rendering keeps of the installed one. */
module ProfilePinning {
  import opened Wrappers
  import opened Text
  import opened ProfileFormat
  import opened ProfileRoundTrip
  import Key = WireGuardKey

  /** What a normalized profile satisfies. */
  predicate Normal(f: Formats, p: Profile) {
    && IsAddress(p.address) && Key.AcceptedByBytes(p.privateKey) && p.mtu == 1320
    && AllDns(f, p.dns) && (p.table.Some? ==> IsTable(p.table.value))
    && Key.AcceptedByBytes(p.publicKey) && Key.AcceptedByBytes(p.presharedKey) && IsEndpoint(p.endpoint)
    && p.allowedIps == "0.0.0.0/0" && p.keepalive == 15
  }

  predicate DnsLineFits(p: Profile) {
    p.dns != [] ==> Size(DnsLine(p.dns)) <= MAX_LINE_BYTES
  }

  /** Normalizing accepts a profile by its own fields and may only split its DNS list further. */
  lemma NormalizeLaw(f: Formats, p: Profile)
    requires Normalize(f, p).Ok?
    ensures var n := Normalize(f, p).value; Normal(f, n) && n == p.(dns := n.dns) && DnsLineFits(p)
  {
    if p.dns != [] {
      DnsAddressesAreDns(f, JoinDns(p.dns));
    }
    hide Key.AcceptedByBytes, IsAddress, IsEndpoint, IsTable;
  }

  /** A normal profile normalizes to itself exactly when its DNS line fits. */
  lemma NormalizeNormal(f: Formats, n: Profile)
    requires Sane(f) && Normal(f, n)
    ensures Normalize(f, n) == if DnsLineFits(n) then Ok(n) else Err
  {
    if n.dns != [] {
      DnsReadsBack(f, n.dns, false);
      assert "" + JoinDns(n.dns) == JoinDns(n.dns);
    }
    hide Key.AcceptedByBytes, IsAddress, IsEndpoint, IsTable, DnsLine, AllDns;
  }

  // --------------------------------------------------------------- fields

  lemma NamesAreNames()
    ensures IsName("Address") && IsName("PrivateKey") && IsName("MTU") && IsName("DNS") && IsName("Table")
    ensures IsName("PublicKey") && IsName("PresharedKey") && IsName("Endpoint") && IsName("AllowedIPs")
            && IsName("PersistentKeepalive")
  {
  }

  lemma ConstantsAreValues()
    ensures IsValue("1320") && IsValue("0.0.0.0/0") && IsValue("15")
  {
  }

  lemma NormalValues(f: Formats, p: Profile)
    requires Sane(f) && Normal(f, p)
    ensures IsValue(p.address) && IsValue(p.privateKey) && IsValue(p.publicKey) && IsValue(p.presharedKey)
            && IsValue(p.endpoint)
    ensures p.table.Some? ==> IsValue(p.table.value)
    ensures p.dns != [] ==> IsValue(JoinDns(p.dns))
  {
    hide IsValue, IsToken, Key.AcceptedByBytes, IsAddress, IsEndpoint, IsTable, AllDns, Sane;
    AddressIsToken(p.address);
    TokenIsValue(p.address);
    KeyIsToken(p.privateKey);
    TokenIsValue(p.privateKey);
    KeyIsToken(p.publicKey);
    TokenIsValue(p.publicKey);
    KeyIsToken(p.presharedKey);
    TokenIsValue(p.presharedKey);
    EndpointIsToken(p.endpoint);
    TokenIsValue(p.endpoint);
    if p.table.Some? {
      TableIsToken(p.table.value);
      TokenIsValue(p.table.value);
    }
    if p.dns != [] {
      JoinDnsIsValue(f, p.dns);
    }
  }

  predicate AllGood(fields: seq<(string, string)>, stage: nat) {
    forall i :: 0 <= i < |fields| ==> GoodField(fields[i], stage)
  }

  function DnsFields(p: Profile): seq<(string, string)> {
    if p.dns != [] then [("DNS", JoinDns(p.dns))] else []
  }

  function TableFields(p: Profile): seq<(string, string)> {
    if p.table.Some? then [("Table", p.table.value)] else []
  }

  lemma GoodAppend(a: seq<(string, string)>, b: seq<(string, string)>, stage: nat)
    requires AllGood(a, stage) && AllGood(b, stage)
    ensures AllGood(a + b, stage)
  {
    hide GoodField;
  }

  function FirstFields(p: Profile): seq<(string, string)> {
    [("Address", p.address), ("PrivateKey", p.privateKey), ("MTU", "1320")]
  }

  lemma FirstFieldsAreGood(f: Formats, p: Profile)
    requires Sane(f) && Normal(f, p)
    ensures AllGood(FirstFields(p), 1)
  {
    hide IsName, IsValue, Normal, Sane;
    NamesAreNames();
    ConstantsAreValues();
    NormalValues(f, p);
  }

  lemma LastFieldsAreGood(f: Formats, p: Profile)
    requires Sane(f) && Normal(f, p)
    ensures AllGood(DnsFields(p), 1) && AllGood(TableFields(p), 1)
  {
    NamesAreNames();
    NormalValues(f, p);
    hide IsName, IsValue, Normal, Sane, JoinDns;
  }

  lemma InterfaceFieldsAreGood(f: Formats, p: Profile)
    requires Sane(f) && Normal(f, p)
    ensures AllGood(InterfaceFields(p), 1)
  {
    assert InterfaceFields(p) == FirstFields(p) + DnsFields(p) + TableFields(p) by {
      hide JoinDns;
    }
    hide InterfaceFields, FirstFields, DnsFields, TableFields, AllGood, Normal, Sane;
    FirstFieldsAreGood(f, p);
    LastFieldsAreGood(f, p);
    GoodAppend(FirstFields(p), DnsFields(p), 1);
    GoodAppend(FirstFields(p) + DnsFields(p), TableFields(p), 1);
  }

  lemma PeerFieldsAreGood(f: Formats, p: Profile)
    requires Sane(f) && Normal(f, p)
    ensures AllGood(PeerFields(p), 2)
  {
    hide IsName, IsValue, Normal;
    NamesAreNames();
    ConstantsAreValues();
    NormalValues(f, p);
  }

  lemma InterfaceFieldsAreFresh(p: Profile)
    ensures Fresh(InterfaceFields(p), map[])
  {
    hide JoinDns;
    var fields := InterfaceFields(p);
    assert fields[0].0 == "Address" && fields[1].0 == "PrivateKey" && fields[2].0 == "MTU";
    assert forall i :: 3 <= i < |fields| ==> fields[i].0 == "DNS" || fields[i].0 == "Table";
    assert "Address"[0] != "PrivateKey"[0] && "MTU"[0] != "DNS"[0];
    assert |fields| == 5 ==> fields[3].0 == "DNS" && fields[4].0 == "Table";
  }

  lemma PeerFieldsAreFresh(p: Profile)
    ensures Fresh(PeerFields(p), map[])
  {
    var fields := PeerFields(p);
    assert |"PublicKey"| == 9 && |"PresharedKey"| == 12 && |"Endpoint"| == 8 && |"AllowedIPs"| == 10
           && |"PersistentKeepalive"| == 19;
  }

  lemma {:induction false} Collected(taken: map<string, string>, fields: seq<(string, string)>)
    requires Fresh(fields, taken)
    ensures forall i :: 0 <= i < |fields| ==>
              fields[i].0 in Collect(taken, fields) && Collect(taken, fields)[fields[i].0] == fields[i].1
    ensures forall name :: name in Collect(taken, fields) <==>
              name in taken || exists i :: 0 <= i < |fields| && fields[i].0 == name
    ensures forall name :: name in taken ==> Collect(taken, fields)[name] == taken[name]
    decreases |fields|
  {
    if fields != [] {
      Collected(taken[fields[0].0 := fields[0].1], fields[1..]);
      forall i | 0 <= i < |fields|
        ensures fields[i].0 in Collect(taken, fields) && Collect(taken, fields)[fields[i].0] == fields[i].1
      {
        if i > 0 {
          assert fields[i] == fields[1..][i - 1];
        }
      }
      forall name
        ensures name in Collect(taken, fields) <==>
                  name in taken || exists i :: 0 <= i < |fields| && fields[i].0 == name
      {
        if exists i :: 0 <= i < |fields| && fields[i].0 == name {
          var i :| 0 <= i < |fields| && fields[i].0 == name;
          assert i > 0 ==> fields[1..][i - 1].0 == name;
        }
      }
    }
  }

  /** The fields of a rendered profile build exactly it. */
  lemma FieldsBuild(f: Formats, p: Profile)
    requires Sane(f) && Normal(f, p)
    ensures Build(f, Scan(2, Collect(map[], InterfaceFields(p)), Collect(map[], PeerFields(p))), None) == Ok(p)
  {
    var i, q := Collect(map[], InterfaceFields(p)), Collect(map[], PeerFields(p));
    assert InterfaceMeans(p, i) by {
      InterfaceCollected(p);
    }
    assert PeerMeans(p, q) by {
      PeerCollected(p);
    }
    if p.dns != [] {
      DnsReadsBack(f, p.dns, false);
      assert "" + JoinDns(p.dns) == JoinDns(p.dns);
    }
    hide Collect, InterfaceFields, PeerFields, Key.AcceptedByBytes, IsAddress, IsEndpoint, IsTable, DnsAddresses,
      JoinDns, AllDns, Sane;
  }

  predicate InterfaceMeans(p: Profile, i: map<string, string>) {
    && "Address" in i && i["Address"] == p.address
    && "PrivateKey" in i && i["PrivateKey"] == p.privateKey
    && "MTU" in i && i["MTU"] == "1320"
    && ("DNS" in i <==> p.dns != []) && ("DNS" in i ==> i["DNS"] == JoinDns(p.dns))
    && ("Table" in i <==> p.table.Some?) && ("Table" in i ==> i["Table"] == p.table.value)
  }

  lemma InterfaceCollected(p: Profile)
    ensures InterfaceMeans(p, Collect(map[], InterfaceFields(p)))
  {
    InterfaceFieldsAreFresh(p);
    var fields := InterfaceFields(p);
    Collected(map[], fields);
    hide Collect, JoinDns, Fresh;
    assert fields[0] == ("Address", p.address) && fields[1] == ("PrivateKey", p.privateKey)
           && fields[2] == ("MTU", "1320");
    assert p.dns != [] ==> fields[3] == ("DNS", JoinDns(p.dns));
    assert p.table.Some? ==> fields[|fields| - 1] == ("Table", p.table.value);
    assert p.dns == [] ==> forall k :: 0 <= k < |fields| ==> fields[k].0 != "DNS";
    assert p.table.None? ==> forall k :: 0 <= k < |fields| ==> fields[k].0 != "Table";
  }

  predicate PeerMeans(p: Profile, q: map<string, string>) {
    && "PublicKey" in q && q["PublicKey"] == p.publicKey
    && "PresharedKey" in q && q["PresharedKey"] == p.presharedKey
    && "Endpoint" in q && q["Endpoint"] == p.endpoint
    && "AllowedIPs" in q && q["AllowedIPs"] == "0.0.0.0/0"
    && "PersistentKeepalive" in q && q["PersistentKeepalive"] == "15"
  }

  lemma PeerCollected(p: Profile)
    ensures PeerMeans(p, Collect(map[], PeerFields(p)))
  {
    PeerFieldsAreFresh(p);
    var fields := PeerFields(p);
    Collected(map[], fields);
    hide Collect, Fresh;
    assert fields[0].0 == "PublicKey" && fields[1].0 == "PresharedKey" && fields[2].0 == "Endpoint"
           && fields[3].0 == "AllowedIPs" && fields[4].0 == "PersistentKeepalive";
  }

  // ------------------------------------------------------------ whole texts

  function Opening(): seq<string> {
    [Header(), "[Interface]"]
  }

  function Middle(): seq<string> {
    ["", "[Peer]"]
  }

  lemma HeaderIsComment()
    ensures Trimmed(Header()) && Header()[0] == '#' && IsAscii(Header()) && |Header()| < 100 && '=' !in Header()
  {
    var a, b, c, d := "# Generated by ", "wg-healthcheck ", "from validated ", "AirVPN API data.";
    assert IsAscii(a) && IsAscii(b) && IsAscii(c) && IsAscii(d);
    assert '=' !in a && '=' !in b && '=' !in c && '=' !in d;
    assert a[0] == '#' && d[15] == '.';
  }

  lemma SectionLinesAreTrimmed()
    ensures Trimmed("[Interface]") && Trimmed("[Peer]")
    ensures IsAscii("[Interface]") && IsAscii("[Peer]")
    ensures "[Interface]"[0] == '[' && "[Peer]"[0] == '[' && "[Interface]" != "[Peer]"
    ensures '=' !in "[Interface]" && '=' !in "[Peer]"
  {
  }

  lemma FixedLinesAreTrimmed()
    ensures Trimmed(Header()) && Header()[0] == '#' && Trimmed("[Interface]") && Trimmed("[Peer]")
    ensures IsAscii(Header()) && IsAscii("[Interface]") && IsAscii("[Peer]") && |Header()| < 100
    ensures "[Interface]"[0] == '[' && "[Peer]"[0] == '[' && "[Interface]" != "[Peer]"
    ensures '=' !in Header() && '=' !in "[Interface]" && '=' !in "[Peer]"
  {
    hide Header, Trimmed, IsAscii;
    HeaderIsComment();
    SectionLinesAreTrimmed();
  }

  lemma HeaderIsSkipped(scan: Scan)
    ensures ReadLine(scan, Header()) == Ok(scan)
  {
    FixedLinesAreTrimmed();
    hide Header, Strip, Trimmed;
    TrimmedStays(Header());
  }

  lemma SectionsAreRead(scan: Scan)
    ensures scan.stage == 0 ==> ReadLine(scan, "[Interface]") == Ok(scan.(stage := 1))
    ensures scan.stage == 1 ==> ReadLine(scan, "[Peer]") == Ok(scan.(stage := 2))
    ensures ReadLine(scan, "") == Ok(scan)
  {
    FixedLinesAreTrimmed();
    TrimmedStays("[Interface]");
    TrimmedStays("[Peer]");
    assert Strip("") == "";
    hide Strip, Trimmed;
  }

  lemma OneIsRead(scan: Scan, line: string)
    ensures ReadLines(scan, [line]) == ReadLine(scan, line)
  {
    hide ReadLine;
    assert [line][1..] == [];
  }

  lemma PairIsRead(scan: Scan, a: string, b: string)
    requires ReadLine(scan, a).Ok?
    ensures ReadLines(scan, [a, b]) == ReadLine(ReadLine(scan, a).value, b)
  {
    hide ReadLine;
    assert [a, b][1..] == [b];
    OneIsRead(ReadLine(scan, a).value, b);
  }

  lemma OpeningIsRead()
    ensures ReadLines(Start, Opening()) == Ok(Start.(stage := 1))
  {
    hide ReadLine, Header;
    var header, section := Header(), "[Interface]";
    HeaderIsSkipped(Start);
    SectionsAreRead(Start);
    PairIsRead(Start, header, section);
    assert Opening() == [header, section];
    assert Start.stage == 0;
  }

  lemma MiddleIsRead(scan: Scan)
    requires scan.stage == 1
    ensures ReadLines(scan, Middle()) == Ok(scan.(stage := 2))
  {
    hide ReadLine;
    SectionsAreRead(scan);
    PairIsRead(scan, "", "[Peer]");
  }

  lemma TextParts(p: Profile, hooks: seq<string>)
    ensures RenderedLines(p, hooks)
            == Opening() + (FieldLines(InterfaceFields(p)) + (hooks + (Middle() + FieldLines(PeerFields(p)))))
  {
    hide InterfaceFields, PeerFields, Header;
    var a, b, c, d := FieldLines(InterfaceFields(p)), hooks, Middle(), FieldLines(PeerFields(p));
    assert RenderedLines(p, hooks) == Opening() + a + b + c + d;
  }

  /** The rendered lines without hooks read as exactly the profile's fields. */
  lemma TextIsRead(f: Formats, p: Profile)
    requires Sane(f) && Normal(f, p)
    ensures ReadLines(Start, RenderedLines(p, []))
            == Ok(Scan(2, Collect(map[], InterfaceFields(p)), Collect(map[], PeerFields(p))))
  {
    InterfaceFieldsAreGood(f, p);
    PeerFieldsAreGood(f, p);
    InterfaceFieldsAreFresh(p);
    PeerFieldsAreFresh(p);
    hide InterfaceFields, PeerFields, GoodField, Fresh, Collect, Normal, Sane, Opening, Middle, FieldLines,
      RenderedLines, ReadLines;
    var interface, peer := InterfaceFields(p), PeerFields(p);
    var a, b := FieldLines(interface), FieldLines(peer);
    var first := Start.(stage := 1);
    var second := first.(interface := Collect(map[], interface));
    var third := second.(stage := 2);
    OpeningIsRead();
    FieldsAreRead(first, interface);
    MiddleIsRead(second);
    FieldsAreRead(third, peer);
    ReadAppend(second, Middle(), b);
    ReadAppend(first, a, Middle() + b);
    ReadAppend(Start, Opening(), a + (Middle() + b));
    TextParts(p, []);
    assert [] + (Middle() + b) == Middle() + b;
  }

  // ---------------------------------------------------------------- sieving

  lemma {:induction false} SiftAppend(s: Sieve, a: seq<string>, b: seq<string>)
    requires Sift(s, a).Ok?
    ensures Sift(s, a + b) == Sift(Sift(s, a).value, b)
    decreases |a|
  {
    if a == [] {
      assert a + b == b;
    } else {
      SiftAppend(SiftLine(s, a[0]).value, a[1..], b);
      assert (a + b)[1..] == a[1..] + b;
    }
  }

  lemma FieldIsRetained(s: Sieve, name: string, value: string)
    requires IsName(name) && IsValue(value) && !IsHookName(name)
    ensures SiftLine(s, Assign(name, value)) == Ok(s.(retained := s.retained + [Assign(name, value)]))
  {
    hide Strip, NameOf, ValueOf, Assign;
    AssignReads(name, value);
    var line := Assign(name, value);
    TrimmedStays(line);
    NoSection(line);
  }

  lemma KnownFieldsAreNoHooks(name: string)
    requires IsInterfaceField(name) || IsPeerField(name)
    ensures !IsHookName(name)
  {
    assert |"PostUp"| == 6 && |"PostDown"| == 8 && "Endpoint"[0] == 'E' && "PostDown"[0] == 'P';
  }

  lemma EmptySift(s: Sieve)
    ensures Sift(s, []) == Ok(s)
  {
  }

  lemma SiftCons(s: Sieve, line: string, rest: seq<string>)
    ensures Sift(s, [line] + rest) == if SiftLine(s, line).Ok? then Sift(SiftLine(s, line).value, rest) else Err
  {
    hide SiftLine;
    assert ([line] + rest)[1..] == rest;
  }

  lemma FieldsTail(fields: seq<(string, string)>, stage: nat)
    requires AllGood(fields, stage) && fields != []
    ensures GoodField(fields[0], stage) && AllGood(fields[1..], stage)
    ensures FieldLines(fields) == [Assign(fields[0].0, fields[0].1)] + FieldLines(fields[1..])
  {
    hide GoodField, Assign;
  }

  lemma GoodFieldIsRetained(s: Sieve, field: (string, string), stage: nat)
    requires GoodField(field, stage)
    ensures SiftLine(s, Assign(field.0, field.1)) == Ok(s.(retained := s.retained + [Assign(field.0, field.1)]))
  {
    KnownFieldsAreNoHooks(field.0);
    FieldIsRetained(s, field.0, field.1);
  }

  lemma Assoc(a: seq<string>, b: seq<string>, c: seq<string>)
    ensures (a + b) + c == a + (b + c)
  {
  }

  lemma NothingRetained(s: Sieve)
    ensures Sift(s, FieldLines([])) == Ok(s.(retained := s.retained + FieldLines([])))
  {
    assert s.retained + [] == s.retained;
  }

  lemma {:induction false} FieldsAreRetained(s: Sieve, fields: seq<(string, string)>, stage: nat)
    requires AllGood(fields, stage)
    ensures Sift(s, FieldLines(fields)) == Ok(s.(retained := s.retained + FieldLines(fields)))
    decreases |fields|
  {
    hide Sift, SiftLine, Assign, GoodField, AllGood, FieldLines;
    if fields == [] {
      NothingRetained(s);
    } else {
      FieldsTail(fields, stage);
      var line, rest := Assign(fields[0].0, fields[0].1), FieldLines(fields[1..]);
      var next := s.(retained := s.retained + [line]);
      GoodFieldIsRetained(s, fields[0], stage);
      FieldsAreRetained(next, fields[1..], stage);
      SiftCons(s, line, rest);
      Assoc(s.retained, [line], rest);
    }
  }

  lemma HookIsNoSection(f: Formats, hook: string)
    requires '=' in hook
    ensures Strip(hook) != "[Interface]" && Strip(hook) != "[Peer]"
  {
    StripKeeps(hook, '=');
    FixedLinesAreTrimmed();
  }

  lemma {:induction false} StripLeftKeeps(s: string, c: char)
    requires c != ' ' && c in s
    ensures c in StripLeft(s)
  {
    if s[0] == ' ' {
      assert s == [s[0]] + s[1..];
      StripLeftKeeps(s[1..], c);
    }
  }

  lemma {:induction false} StripRightKeeps(s: string, c: char)
    requires c != ' ' && c in s
    ensures c in StripRight(s)
  {
    if s[|s| - 1] == ' ' {
      assert s == s[..|s| - 1] + [s[|s| - 1]];
      StripRightKeeps(s[..|s| - 1], c);
    }
  }

  lemma StripKeeps(s: string, c: char)
    requires c != ' ' && c in s
    ensures c in Strip(s)
  {
    StripLeftKeeps(s, c);
    StripRightKeeps(StripLeft(s), c);
  }

  predicate AllHooks(f: Formats, hooks: seq<string>) {
    forall i :: 0 <= i < |hooks| ==> IsHook(f, hooks[i])
  }

  lemma HookIsSifted(f: Formats, s: Sieve, hook: string)
    requires IsHook(f, hook) && s.inInterface
    ensures SiftLine(s, hook) == Ok(s.(hooks := s.hooks + [hook]))
  {
    HookIsNoSection(f, hook);
    hide Strip, NameOf, ValueOf, IsHookName;
  }

  lemma HooksTail(f: Formats, hooks: seq<string>)
    requires AllHooks(f, hooks) && hooks != []
    ensures IsHook(f, hooks[0]) && AllHooks(f, hooks[1..]) && hooks == [hooks[0]] + hooks[1..]
  {
    hide IsHook;
  }

  lemma NothingSifted(s: Sieve)
    ensures Sift(s, []) == Ok(s.(hooks := s.hooks + []))
  {
    assert s.hooks + [] == s.hooks;
  }

  lemma {:induction false} HooksAreSifted(f: Formats, s: Sieve, hooks: seq<string>)
    requires AllHooks(f, hooks) && s.inInterface
    ensures Sift(s, hooks) == Ok(s.(hooks := s.hooks + hooks))
    decreases |hooks|
  {
    hide Sift, SiftLine, IsHook, AllHooks;
    if hooks == [] {
      NothingSifted(s);
    } else {
      HooksTail(f, hooks);
      var next := s.(hooks := s.hooks + [hooks[0]]);
      HookIsSifted(f, s, hooks[0]);
      HooksAreSifted(f, next, hooks[1..]);
      SiftCons(s, hooks[0], hooks[1..]);
      Assoc(s.hooks, [hooks[0]], hooks[1..]);
    }
  }

  lemma FixedAreSifted(s: Sieve)
    ensures SiftLine(s, Header()) == Ok(s.(retained := s.retained + [Header()]))
    ensures SiftLine(s, "[Interface]") == Ok(s.(inInterface := true, retained := s.retained + ["[Interface]"]))
    ensures SiftLine(s, "") == Ok(s.(retained := s.retained + [""]))
    ensures SiftLine(s, "[Peer]") == Ok(s.(inInterface := false, retained := s.retained + ["[Peer]"]))
  {
    FixedLinesAreTrimmed();
    TrimmedStays(Header());
    TrimmedStays("[Interface]");
    TrimmedStays("[Peer]");
    assert Strip("") == "";
    NoSection(Header());
    hide Strip, Trimmed, NameOf, ValueOf, IsHookName, Header;
  }

  lemma PairIsSifted(s: Sieve, a: string, b: string)
    requires SiftLine(s, a).Ok?
    ensures Sift(s, [a, b]) == SiftLine(SiftLine(s, a).value, b)
  {
    hide SiftLine, Sift;
    var next := SiftLine(s, a).value;
    SiftCons(s, a, [b]);
    SiftCons(next, b, []);
    assert [a] + [b] == [a, b] && [b] + [] == [b];
    if SiftLine(next, b).Ok? {
      EmptySift(SiftLine(next, b).value);
    }
  }

  lemma OpeningIsSifted(s: Sieve)
    ensures Sift(s, Opening()) == Ok(s.(inInterface := true, retained := s.retained + Opening()))
  {
    hide SiftLine, Sift, Header;
    var header, section := Header(), "[Interface]";
    assert Opening() == [header, section] && [header, section] == [header] + [section];
    hide Opening;
    var next := s.(retained := s.retained + [header]);
    FixedAreSifted(s);
    FixedAreSifted(next);
    PairIsSifted(s, header, section);
    Assoc(s.retained, [header], [section]);
  }

  lemma MiddleIsSifted(s: Sieve)
    ensures Sift(s, Middle()) == Ok(s.(inInterface := false, retained := s.retained + Middle()))
  {
    hide SiftLine;
    FixedAreSifted(s);
    var next := s.(retained := s.retained + [""]);
    FixedAreSifted(next);
    PairIsSifted(s, "", "[Peer]");
    assert s.retained + [""] + ["[Peer]"] == s.retained + Middle();
  }

  lemma SiftThen(s: Sieve, a: seq<string>, t: Sieve, b: seq<string>)
    requires Sift(s, a) == Ok(t)
    ensures Sift(s, a + b) == Sift(t, b)
  {
    SiftAppend(s, a, b);
    hide Sift;
  }

  lemma TailIsSifted(f: Formats, s: Sieve, hooks: seq<string>, fields: seq<(string, string)>)
    requires AllHooks(f, hooks) && AllGood(fields, 2) && s.inInterface
    ensures Sift(s, hooks + (Middle() + FieldLines(fields)))
            == Ok(Sieve(false, s.retained + Middle() + FieldLines(fields), s.hooks + hooks))
  {
    hide AllGood, AllHooks, Middle, FieldLines, Sift;
    var b := FieldLines(fields);
    var s3 := s.(hooks := s.hooks + hooks);
    var s4 := s3.(inInterface := false, retained := s3.retained + Middle());
    HooksAreSifted(f, s, hooks);
    MiddleIsSifted(s3);
    FieldsAreRetained(s4, fields, 2);
    SiftThen(s3, Middle(), s4, b);
    SiftThen(s, hooks, s3, Middle() + b);
  }

  lemma HeadIsSifted(f: Formats, p: Profile)
    requires Sane(f) && Normal(f, p)
    ensures Sift(Sieve(false, [], []), Opening() + FieldLines(InterfaceFields(p)))
            == Ok(Sieve(true, Opening() + FieldLines(InterfaceFields(p)), []))
  {
    hide InterfaceFields, AllGood, Normal, Sane, Opening, FieldLines, Sift;
    InterfaceFieldsAreGood(f, p);
    var a := FieldLines(InterfaceFields(p));
    var s := Sieve(false, [], []);
    var s1 := Sieve(true, Opening(), []);
    OpeningIsSifted(s);
    assert [] + Opening() == Opening();
    FieldsAreRetained(s1, InterfaceFields(p), 1);
    SiftThen(s, Opening(), s1, a);
  }

  lemma TextHalves(p: Profile, hooks: seq<string>)
    ensures RenderedLines(p, hooks)
            == (Opening() + FieldLines(InterfaceFields(p))) + (hooks + (Middle() + FieldLines(PeerFields(p))))
    ensures RenderedLines(p, []) == Opening() + FieldLines(InterfaceFields(p)) + Middle() + FieldLines(PeerFields(p))
  {
    hide InterfaceFields, PeerFields, FieldLines, Opening, Middle, RenderedLines;
    TextParts(p, hooks);
    TextParts(p, []);
    var o, a, m, b := Opening(), FieldLines(InterfaceFields(p)), Middle(), FieldLines(PeerFields(p));
    assert o + (a + (hooks + (m + b))) == (o + a) + (hooks + (m + b));
    assert o + (a + ([] + (m + b))) == o + a + m + b;
  }

  /** Reading a rendering as an installed file takes out exactly its hooks, in order. */
  lemma TextIsSifted(f: Formats, p: Profile, hooks: seq<string>)
    requires Sane(f) && Normal(f, p) && AllHooks(f, hooks)
    ensures Sift(Sieve(false, [], []), RenderedLines(p, hooks)) == Ok(Sieve(false, RenderedLines(p, []), hooks))
  {
    hide InterfaceFields, PeerFields, AllGood, AllHooks, Normal, Sane, Opening, Middle, FieldLines, RenderedLines, Sift;
    var head := Opening() + FieldLines(InterfaceFields(p));
    var s, s2 := Sieve(false, [], []), Sieve(true, head, []);
    var tail := hooks + (Middle() + FieldLines(PeerFields(p)));
    HeadIsSifted(f, p);
    PeerFieldsAreGood(f, p);
    TailIsSifted(f, s2, hooks, PeerFields(p));
    SiftThen(s, head, s2, tail);
    TextHalves(p, hooks);
    assert [] + hooks == hooks;
  }

  // ----------------------------------------------------------- main results

  lemma AsciiAssign(name: string, value: string)
    requires IsAscii(name) && IsAscii(value)
    ensures IsAscii(Assign(name, value)) && |Assign(name, value)| == |name| + 3 + |value|
  {
    var middle := " = ";
    assert IsAscii(middle);
    assert Assign(name, value) == name + middle + value;
  }

  lemma FieldFits(f: Formats, name: string, value: string)
    requires Sane(f) && IsAscii(name) && IsAscii(value) && |name| + |value| < 1000
    ensures LineFits(f, Assign(name, value))
  {
    AsciiAssign(name, value);
    AsciiFits(f, Assign(name, value));
  }

  lemma NamesAreShort()
    ensures IsAscii("Address") && IsAscii("PrivateKey") && IsAscii("MTU") && IsAscii("DNS") && IsAscii("Table")
    ensures IsAscii("PublicKey") && IsAscii("PresharedKey") && IsAscii("Endpoint") && IsAscii("AllowedIPs")
            && IsAscii("PersistentKeepalive")
    ensures IsAscii("1320") && IsAscii("0.0.0.0/0") && IsAscii("15")
  {
  }

  lemma DnsFits(f: Formats, p: Profile)
    requires Sane(f) && Normal(f, p) && p.dns != [] && DnsLineFits(p)
    ensures LineFits(f, DnsLine(p.dns))
  {
    hide Sane, Normal, IsAscii, Assign, JoinDns, LineFits;
    JoinDnsIsValue(f, p.dns) by {
      NormalDns(f, p);
    }
    NamesAreShort();
    AsciiAssign("DNS", JoinDns(p.dns));
    AsciiSize(DnsLine(p.dns));
    AsciiFits(f, DnsLine(p.dns));
  }

  lemma NormalDns(f: Formats, p: Profile)
    requires Normal(f, p)
    ensures AllDns(f, p.dns)
  {
  }

  lemma InterfaceFits(f: Formats, p: Profile)
    requires Sane(f) && Normal(f, p) && DnsLineFits(p)
    ensures LinesFit(f, FieldLines(InterfaceFields(p)))
  {
    hide LineFits, Assign, Sane, Normal, IsAscii, JoinDns;
    NamesAreShort();
    NormalIsAscii(f, p);
    FieldFits(f, "Address", p.address);
    FieldFits(f, "PrivateKey", p.privateKey);
    FieldFits(f, "MTU", "1320");
    if p.dns != [] {
      DnsFits(f, p);
    }
    if p.table.Some? {
      FieldFits(f, "Table", p.table.value);
    }
    hide DnsLineFits;
    var fields := InterfaceFields(p);
    forall i | 0 <= i < |fields| ensures LineFits(f, FieldLines(fields)[i]) {
      assert FieldLines(fields)[i] == Assign(fields[i].0, fields[i].1);
    }
  }

  lemma PeerFits(f: Formats, p: Profile)
    requires Sane(f) && Normal(f, p)
    ensures LinesFit(f, FieldLines(PeerFields(p)))
  {
    hide LineFits, Assign, Sane, Normal, IsAscii;
    NamesAreShort();
    NormalPeerIsAscii(f, p);
    FieldFits(f, "PublicKey", p.publicKey);
    FieldFits(f, "PresharedKey", p.presharedKey);
    FieldFits(f, "Endpoint", p.endpoint);
    FieldFits(f, "AllowedIPs", "0.0.0.0/0");
    FieldFits(f, "PersistentKeepalive", "15");
    var fields := PeerFields(p);
    forall i | 0 <= i < |fields| ensures LineFits(f, FieldLines(fields)[i]) {
      assert FieldLines(fields)[i] == Assign(fields[i].0, fields[i].1);
    }
  }

  lemma FixedFit(f: Formats)
    requires Sane(f)
    ensures LinesFit(f, Opening()) && LinesFit(f, Middle())
  {
    hide Header, LineFits, IsAscii, Sane;
    FixedLinesAreTrimmed();
    assert IsAscii("") by {
      EmptyIsAscii();
    }
    var header, interface, blank, peer := Header(), "[Interface]", "", "[Peer]";
    AsciiFits(f, header);
    AsciiFits(f, interface);
    AsciiFits(f, blank);
    AsciiFits(f, peer);
    PairFits(f, header, interface);
    PairFits(f, blank, peer);
  }

  lemma EmptyIsAscii()
    ensures IsAscii("")
  {
  }

  lemma PairFits(f: Formats, a: string, b: string)
    requires LineFits(f, a) && LineFits(f, b)
    ensures LinesFit(f, [a, b])
  {
    hide LineFits;
  }

  lemma FitAppend(f: Formats, a: seq<string>, b: seq<string>)
    requires LinesFit(f, a) && LinesFit(f, b)
    ensures LinesFit(f, a + b)
  {
    hide LineFits;
  }

  lemma TextFits(f: Formats, p: Profile, hooks: seq<string>)
    requires Sane(f) && Normal(f, p) && DnsLineFits(p) && LinesFit(f, hooks)
    ensures LinesFit(f, RenderedLines(p, hooks))
  {
    FixedFit(f);
    InterfaceFits(f, p);
    PeerFits(f, p);
    hide LinesFit, Opening, Middle, FieldLines, InterfaceFields, PeerFields, Normal, Sane, RenderedLines;
    var a, b := FieldLines(InterfaceFields(p)), FieldLines(PeerFields(p));
    FitAppend(f, Middle(), b);
    FitAppend(f, hooks, Middle() + b);
    FitAppend(f, a, hooks + (Middle() + b));
    FitAppend(f, Opening(), a + (hooks + (Middle() + b)));
    TextParts(p, hooks);
  }

  lemma TextLength(p: Profile, hooks: seq<string>)
    ensures |RenderedLines(p, hooks)| == |RenderedLines(p, [])| + |hooks| && 12 <= |RenderedLines(p, [])| <= 14
    ensures LinesSize(RenderedLines(p, hooks)) == LinesSize(RenderedLines(p, [])) + LinesSize(hooks)
  {
    hide JoinDns, Header;
    assert 3 <= |InterfaceFields(p)| <= 5 && |PeerFields(p)| == 5;
    var front := Opening() + FieldLines(InterfaceFields(p));
    var back := Middle() + FieldLines(PeerFields(p));
    hide InterfaceFields, PeerFields;
    assert RenderedLines(p, hooks) == front + hooks + back;
    assert RenderedLines(p, []) == front + back;
    hide RenderedLines;
    LinesSizeAppend(front + hooks, back);
    LinesSizeAppend(front, hooks);
    LinesSizeAppend(front, back);
  }

  /** A rendered profile parses back to its normal form exactly when that form's DNS line fits. */
  lemma RenderParsesBackExactly(f: Formats, p: Profile)
    requires Sane(f) && Render(f, p, []).Ok?
    ensures var n, text := Normalize(f, p).value, Render(f, p, []).value;
            && n == p.(dns := n.dns)
            && (Parse(f, text, None) == Ok(n) <==> DnsLineFits(n))
  {
    var n := Normalize(f, p).value;
    NormalizeLaw(f, p);
    var lines := RenderedLines(n, []);
    if DnsLineFits(n) {
      NormalTextParses(f, n);
    } else {
      LongDnsIsRefused(f, n);
    }
    hide Normalize, Parse, RenderedLines, Normal, DnsLineFits;
  }

  /** The strict parser reads a normal profile's own rendering as that profile. */
  lemma NormalTextParses(f: Formats, n: Profile)
    requires Sane(f) && Normal(f, n) && DnsLineFits(n)
    ensures Parse(f, JoinLines(RenderedLines(n, [])), None) == Ok(n)
  {
    hide RenderedLines, Normal, Sane, ProfileLines, ReadLines, Build, LinesFit, DnsLineFits, Collect;
    var lines := RenderedLines(n, []);
    TextFits(f, n, []) by {
      assert LinesFit(f, []) by {
        NoLinesFit(f);
      }
    }
    TextLength(n, []);
    FitSizes(f, lines);
    LinesReadBack(f, lines);
    TextIsRead(f, n);
    FieldsBuild(f, n);
  }

  lemma NoLinesFit(f: Formats)
    ensures LinesFit(f, [])
  {
  }

  lemma FitSizes(f: Formats, lines: seq<string>)
    requires LinesFit(f, lines) && |lines| <= 14
    ensures LinesSize(lines) <= MAX_BYTES
  {
    forall i | 0 <= i < |lines| ensures Size(lines[i]) <= MAX_LINE_BYTES {
      assert LineFits(f, lines[i]);
    }
    LinesSizeBound(lines);
  }

  lemma LongDnsIsRefused(f: Formats, n: Profile)
    requires Sane(f) && Normal(f, n) && !DnsLineFits(n)
    ensures Parse(f, JoinLines(RenderedLines(n, [])), None).Err?
  {
    hide RenderedLines, JoinDns, DnsLine, Normal, Sane, ProfileLines, JoinLines, AllSingleLines;
    var lines := RenderedLines(n, []);
    LinesAreClean(f, n);
    DnsLineIsThere(n);
    TooLongIsRefused(f, lines, 5);
  }

  lemma DnsLineIsThere(n: Profile)
    requires n.dns != []
    ensures |RenderedLines(n, [])| > 5 && RenderedLines(n, [])[5] == DnsLine(n.dns)
  {
    assert InterfaceFields(n)[3] == ("DNS", JoinDns(n.dns)) && |InterfaceFields(n)| > 3;
    hide JoinDns, InterfaceFields, PeerFields, RenderedLines, Assign;
    TextHalves(n, []);
    var a := FieldLines(InterfaceFields(n));
    assert a[3] == Assign("DNS", JoinDns(n.dns));
    assert |Opening()| == 2;
    hide FieldLines, Opening, Middle;
    assert (Opening() + a)[5] == a[3];
  }

  predicate AsciiLines(lines: seq<string>) {
    forall i :: 0 <= i < |lines| ==> IsAscii(lines[i])
  }

  lemma {:induction false} AsciiJoin(lines: seq<string>)
    requires AsciiLines(lines)
    ensures AllSingleLines(lines) && '\r' !in JoinLines(lines)
  {
    if lines != [] {
      AsciiJoin(lines[1..]);
      assert IsAscii(lines[0]);
      assert lines == [lines[0]] + lines[1..];
      assert '\r' !in lines[0] && NEWLINE !in lines[0];
    }
  }

  predicate AsciiFields(fields: seq<(string, string)>) {
    forall i :: 0 <= i < |fields| ==> IsAscii(fields[i].0) && IsAscii(fields[i].1)
  }

  lemma NormalIsAscii(f: Formats, n: Profile)
    requires Sane(f) && Normal(f, n)
    ensures IsAscii(n.address) && |n.address| < 20 && IsAscii(n.privateKey) && |n.privateKey| == 44
    ensures n.table.Some? ==> IsAscii(n.table.value) && |n.table.value| <= 10
    ensures n.dns != [] ==> IsAscii(JoinDns(n.dns))
  {
    hide IsAscii, Sane, IsToken, JoinDns, IsValue, IsTable, IsAddress, Key.AcceptedByBytes, AllDns;
    AddressIsToken(n.address);
    TokenIsValue(n.address);
    KeyIsToken(n.privateKey);
    TokenIsValue(n.privateKey);
    if n.table.Some? {
      TableIsToken(n.table.value);
      TokenIsValue(n.table.value);
    }
    if n.dns != [] {
      JoinDnsIsValue(f, n.dns);
    }
  }

  lemma AsciiInterface(f: Formats, n: Profile)
    requires Sane(f) && Normal(f, n)
    ensures AsciiFields(InterfaceFields(n))
  {
    hide IsAscii, Normal, Sane, JoinDns;
    NamesAreShort();
    NormalIsAscii(f, n);
  }

  lemma NormalPeerIsAscii(f: Formats, n: Profile)
    requires Sane(f) && Normal(f, n)
    ensures IsAscii(n.publicKey) && |n.publicKey| == 44 && IsAscii(n.presharedKey) && |n.presharedKey| == 44
    ensures IsAscii(n.endpoint) && |n.endpoint| < 22
  {
    hide IsAscii, Sane, IsToken, IsValue, IsEndpoint, Key.AcceptedByBytes, AllDns;
    KeyIsToken(n.publicKey);
    TokenIsValue(n.publicKey);
    KeyIsToken(n.presharedKey);
    TokenIsValue(n.presharedKey);
    EndpointIsToken(n.endpoint);
    TokenIsValue(n.endpoint);
  }

  lemma AsciiPeer(f: Formats, n: Profile)
    requires Sane(f) && Normal(f, n)
    ensures AsciiFields(PeerFields(n))
  {
    hide IsAscii, Normal, Sane;
    NamesAreShort();
    NormalPeerIsAscii(f, n);
  }

  lemma AsciiFieldLines(fields: seq<(string, string)>)
    requires AsciiFields(fields)
    ensures AsciiLines(FieldLines(fields))
  {
    hide IsAscii, Assign;
    var lines := FieldLines(fields);
    forall i | 0 <= i < |lines| ensures IsAscii(lines[i]) {
      AsciiAssign(fields[i].0, fields[i].1);
    }
  }

  lemma AsciiAppend(a: seq<string>, b: seq<string>)
    requires AsciiLines(a) && AsciiLines(b)
    ensures AsciiLines(a + b)
  {
    hide IsAscii;
  }

  lemma AsciiPair(a: string, b: string)
    requires IsAscii(a) && IsAscii(b)
    ensures AsciiLines([a, b])
  {
    hide IsAscii;
  }

  lemma FixedAreAscii()
    ensures AsciiLines(Opening()) && AsciiLines(Middle())
  {
    hide Header, IsAscii, AsciiLines;
    FixedLinesAreTrimmed();
    EmptyIsAscii();
    var header, interface, blank, peer := Header(), "[Interface]", "", "[Peer]";
    AsciiPair(header, interface);
    AsciiPair(blank, peer);
  }

  lemma LinesAreClean(f: Formats, n: Profile)
    requires Sane(f) && Normal(f, n)
    ensures AllSingleLines(RenderedLines(n, [])) && '\r' !in JoinLines(RenderedLines(n, []))
  {
    hide AsciiLines, AsciiFields, FieldLines, InterfaceFields, PeerFields, Opening, Middle, RenderedLines, Normal,
      Sane, JoinLines, AllSingleLines;
    AsciiInterface(f, n);
    AsciiPeer(f, n);
    AsciiFieldLines(InterfaceFields(n));
    AsciiFieldLines(PeerFields(n));
    FixedAreAscii();
    var o, a, m, b := Opening(), FieldLines(InterfaceFields(n)), Middle(), FieldLines(PeerFields(n));
    AsciiAppend(o, a);
    AsciiAppend(o + a, m);
    AsciiAppend(o + a + m, b);
    TextHalves(n, []);
    AsciiJoin(RenderedLines(n, []));
  }

  lemma HooksFit(f: Formats, hooks: seq<string>)
    requires AllHooks(f, hooks)
    ensures LinesFit(f, hooks)
  {
    forall i | 0 <= i < |hooks| ensures LineFits(f, hooks[i]) {
      assert IsHook(f, hooks[i]);
    }
  }

  /** A rendering that passed the size checks reads as an installed file with that profile and exactly those hooks. */
  lemma InstalledTextParses(f: Formats, n: Profile, hooks: seq<string>)
    requires Sane(f) && Normal(f, n) && DnsLineFits(n) && AllHooks(f, hooks)
    requires |RenderedLines(n, [])| + |hooks| <= MAX_LINES
    requires LinesSize(RenderedLines(n, [])) + LinesSize(hooks) <= MAX_BYTES
    ensures ParseTrusted(f, JoinLines(RenderedLines(n, hooks))) == Ok(Trusted(n, hooks))
  {
    hide RenderedLines, Normal, Sane, ProfileLines, Sift, Parse, LinesFit, DnsLineFits, AllHooks;
    HooksFit(f, hooks);
    TextFits(f, n, hooks);
    TextLength(n, hooks);
    LinesReadBack(f, RenderedLines(n, hooks));
    TextIsSifted(f, n, hooks);
    NormalTextParses(f, n);
  }

  /** The profile a pinned rendering writes. */
  function PinnedProfile(f: Formats, installed: Trusted, generated: Profile): Profile
    requires Normalize(f, installed.profile).Ok? && Normalize(f, generated).Ok?
  {
    Pinned(Normalize(f, installed.profile).value, Normalize(f, generated).value)
  }

  lemma ComposeLaw(f: Formats, current: Profile, generated: Profile)
    requires Sane(f) && Normal(f, current)
    ensures Compose(f, current, generated).Ok? ==>
              && Normalize(f, generated).Ok? && SameIdentity(current, generated)
              && var pinned := Pinned(current, Normalize(f, generated).value);
              && Compose(f, current, generated) == Ok(pinned) && Normal(f, pinned) && DnsLineFits(pinned)
  {
    NormalizeNormal(f, current);
    if Normalize(f, generated).Ok? {
      NormalizeLaw(f, generated);
      var pinned := Pinned(current, Normalize(f, generated).value);
      assert Normal(f, pinned);
      NormalizeNormal(f, pinned);
    }
    hide Normalize, Normal, DnsLineFits;
  }

  lemma RenderNormal(f: Formats, n: Profile, hooks: seq<string>)
    requires Sane(f) && Normal(f, n) && DnsLineFits(n)
    ensures Render(f, n, hooks) == Ok(JoinLines(RenderedLines(n, hooks)))
  {
    hide Normal, DnsLineFits, Normalize, Sane, RenderedLines;
    NormalizeNormal(f, n);
  }

  lemma BaseLines(f: Formats, n: Profile)
    requires Sane(f) && Normal(f, n)
    ensures Lines(JoinLines(RenderedLines(n, []))) == RenderedLines(n, [])
    ensures Size(JoinLines(RenderedLines(n, []))) == LinesSize(RenderedLines(n, []))
  {
    hide Normal, Sane, RenderedLines, JoinLines, Lines, AllSingleLines;
    LinesAreClean(f, n);
    LinesOfJoin(RenderedLines(n, []));
    SizeOfJoin(RenderedLines(n, []));
  }

  lemma TrustedLaw(f: Formats, t: Trusted)
    requires NormalizeTrusted(f, t).Ok?
    ensures Normalize(f, t.profile).Ok? && AllHooks(f, t.hooks)
    ensures NormalizeTrusted(f, t).value == Trusted(Normalize(f, t.profile).value, t.hooks)
  {
    hide Normalize, IsHook;
  }

  /** A pinned rendering succeeds only for one identity, and then reads back as an installed file in full. */
  lemma PinnedIsInstalled(f: Formats, installed: Trusted, generated: Profile)
    requires Sane(f) && RenderPinned(f, installed, generated).Ok?
    ensures Normalize(f, installed.profile).Ok? && Normalize(f, generated).Ok?
            && SameIdentity(installed.profile, generated)
    ensures ParseTrusted(f, RenderPinned(f, installed, generated).value)
            == Ok(Trusted(PinnedProfile(f, installed, generated), installed.hooks))
  {
    hide Normalize, Normal, RenderedLines, ParseTrusted, Sane, DnsLineFits, AllHooks, Lines, JoinLines, LinesSize, Size,
         NormalizeTrusted, Compose, Render;
    TrustedLaw(f, installed);
    var n := Normalize(f, installed.profile).value;
    NormalizeLaw(f, installed.profile);
    ComposeLaw(f, n, generated);
    var pinned := Compose(f, n, generated).value;
    RenderNormal(f, pinned, []);
    RenderNormal(f, pinned, installed.hooks);
    BaseLines(f, pinned);
    InstalledTextParses(f, pinned, installed.hooks);
  }

  lemma TrustedExactly(f: Formats, t: Trusted)
    ensures NormalizeTrusted(f, t).Ok? <==> Normalize(f, t.profile).Ok? && AllHooks(f, t.hooks)
  {
    hide Normalize, IsHook;
  }

  /** Composition succeeds exactly for one identity and a DNS line that fits. */
  lemma ComposeExactly(f: Formats, current: Profile, generated: Profile)
    requires Sane(f) && Normal(f, current) && DnsLineFits(current)
    ensures Compose(f, current, generated).Ok? <==> Normalize(f, generated).Ok? && SameIdentity(current, generated)
  {
    NormalizeNormal(f, current);
    if Normalize(f, generated).Ok? {
      NormalizeLaw(f, generated);
      var pinned := Pinned(current, Normalize(f, generated).value);
      assert Normal(f, pinned) && DnsLineFits(pinned);
      NormalizeNormal(f, pinned);
    }
    hide Normalize, Normal, DnsLineFits;
  }

  /**
   * A pinned rendering succeeds exactly when both profiles are accepted and have one identity, every hook is one, the
   * installed DNS line still fits once its entries are listed one by one, and the whole text keeps both size limits.
   */
  lemma PinnedSucceedsExactly(f: Formats, installed: Trusted, generated: Profile)
    requires Sane(f)
    ensures RenderPinned(f, installed, generated).Ok? <==>
              && Normalize(f, installed.profile).Ok? && Normalize(f, generated).Ok? && AllHooks(f, installed.hooks)
              && SameIdentity(installed.profile, generated) && DnsLineFits(Normalize(f, installed.profile).value)
              && var text := RenderedLines(PinnedProfile(f, installed, generated), installed.hooks);
              && |text| <= MAX_LINES && LinesSize(text) <= MAX_BYTES
  {
    hide Normalize, Normal, RenderedLines, Sane, DnsLineFits, AllHooks, Lines, JoinLines, LinesSize, Size,
         NormalizeTrusted, Compose, Render;
    TrustedExactly(f, installed);
    if NormalizeTrusted(f, installed).Ok? {
      TrustedLaw(f, installed);
      var n := Normalize(f, installed.profile).value;
      NormalizeLaw(f, installed.profile);
      ComposeLaw(f, n, generated);
      if Compose(f, n, generated).Ok? {
        ComposeFits(f, n, generated);
      }
      if DnsLineFits(n) {
        ComposeExactly(f, n, generated);
      }
      if Compose(f, n, generated).Ok? {
        var pinned := Compose(f, n, generated).value;
        RenderNormal(f, pinned, []);
        RenderNormal(f, pinned, installed.hooks);
        BaseLines(f, pinned);
        TextLength(pinned, installed.hooks);
      }
    }
  }

  lemma ComposeFits(f: Formats, current: Profile, generated: Profile)
    requires Sane(f) && Normal(f, current) && Compose(f, current, generated).Ok?
    ensures DnsLineFits(current)
  {
    NormalizeNormal(f, current);
    hide Normalize, Normal, DnsLineFits;
  }

  /**
   * Re-reading a pinned rendering as an installed profile gives exactly the installed address, private key,
   * DNS, table and hooks in order, together with the generated peer fields.
   */
  lemma PinnedReadsBack(f: Formats, installed: Trusted, generated: Profile)
    requires Sane(f) && RenderPinned(f, installed, generated).Ok?
    ensures var r := ParseTrusted(f, RenderPinned(f, installed, generated).value);
            var i := installed.profile;
            && r.Ok? && r.value.hooks == installed.hooks
            && r.value.profile == generated.(address := i.address, privateKey := i.privateKey,
                                             dns := Normalize(f, i).value.dns, table := i.table)
    ensures SameIdentity(installed.profile, generated)
  {
    hide ParseTrusted, RenderPinned, Normal, Sane;
    PinnedIsInstalled(f, installed, generated);
    NormalizeLaw(f, installed.profile);
    NormalizeLaw(f, generated);
    hide Normalize;
  }

  /** Addresses listed one by one, as the parser lists them, always survive rendering. */
  lemma ListedProfilesParseBack(f: Formats, p: Profile)
    requires Sane(f) && Render(f, p, []).Ok? && AllDns(f, p.dns)
    ensures Parse(f, Render(f, p, []).value, None) == Ok(p)
  {
    RenderParsesBackExactly(f, p);
    NormalizeLaw(f, p);
    var n := Normalize(f, p).value;
    assert n.dns == p.dns by {
      if p.dns != [] {
        DnsReadsBack(f, p.dns, false);
        assert "" + JoinDns(p.dns) == JoinDns(p.dns);
      }
    }
    hide Parse, Render;
  }

  /** What the strict parser returns is normal, so everything downstream keeps its fields. */
  lemma ParsedIsNormal(f: Formats, text: string, expected: Option<string>)
    requires Parse(f, text, expected).Ok?
    ensures Normal(f, Parse(f, text, expected).value)
    ensures expected.Some? ==> Parse(f, text, expected).value.endpoint == expected.value
  {
    var scan := ReadLines(Start, ProfileLines(f, text).value).value;
    hide ProfileLines, ReadLines;
    if "DNS" in scan.interface {
      DnsAddressesAreDns(f, scan.interface["DNS"]);
    }
    hide Key.AcceptedByBytes, IsAddress, IsEndpoint, IsTable, DnsAddresses;
  }
}
