/** Reading and replacing the one endpoint of a WireGuard profile, line by line. */
module ProfileText {
  import opened Wrappers

  type Profile = seq<string>

  /** A canonicalizer of endpoints: its results are trimmed and canonical themselves. */
  ghost predicate Canonicalizes(canon: string -> Option<string>) {
    forall s :: canon(s).Some? ==> canon(canon(s).value) == canon(s) && Trim(canon(s).value) == canon(s).value
  }

  predicate IsSpace(c: char) {
    c == ' ' || c == '\t' || c == '\r' || c == (11 as char) || c == (12 as char)
  }

  function Indent(s: string): (k: nat)
    ensures k <= |s|
    ensures forall i :: 0 <= i < k ==> IsSpace(s[i])
    ensures k < |s| ==> !IsSpace(s[k])
  {
    if s == "" || !IsSpace(s[0]) then 0 else 1 + Indent(s[1..])
  }

  function TrimLeft(s: string): string {
    s[Indent(s)..]
  }

  function TrimRight(s: string): string {
    if s == "" || !IsSpace(s[|s| - 1]) then s else TrimRight(s[..|s| - 1])
  }

  function Trim(s: string): string {
    TrimRight(TrimLeft(s))
  }

  function After(s: string, c: char): string {
    if s == "" then "" else if s[0] == c then s[1..] else After(s[1..], c)
  }

  predicate IsEndpointLine(line: string) {
    var s := TrimLeft(line);
    "Endpoint" <= s && "=" <= TrimLeft(s[8..])
  }

  function CloseBracket(s: string): (k: nat)
    ensures k <= |s|
  {
    if s == "" || s[0] == ']' then 0 else 1 + CloseBracket(s[1..])
  }

  /** A line that starts with a nonempty bracketed name. */
  predicate IsSectionLine(line: string) {
    var s := TrimLeft(line);
    "[" <= s && 1 < 1 + CloseBracket(s[1..]) < |s|
  }

  predicate IsPeerLine(line: string) {
    var s := TrimLeft(line);
    "[Peer]" <= s && (TrimLeft(s[6..]) == "" || "#" <= TrimLeft(s[6..]))
  }

  datatype Metadata = Metadata(inPeer: bool, peers: nat, endpoints: nat, peerEndpoints: nat, endpoint: string)

  /** One line of the scan. An endpoint line is never a section line. */
  function Scan(m: Metadata, line: string): Metadata {
    var m := if IsSectionLine(line) then
               m.(inPeer := IsPeerLine(line), peers := m.peers + if IsPeerLine(line) then 1 else 0)
             else m;
    if !IsEndpointLine(line) then m
    else
      var m := m.(endpoints := m.endpoints + 1);
      if m.inPeer then m.(peerEndpoints := m.peerEndpoints + 1, endpoint := Trim(After(line, '='))) else m
  }

  function ConfigMetadata(profile: Profile): Metadata {
    if profile == [] then Metadata(false, 0, 0, 0, "")
    else Scan(ConfigMetadata(profile[..|profile| - 1]), profile[|profile| - 1])
  }

  predicate SinglePeer(profile: Profile) {
    var m := ConfigMetadata(profile);
    m.peers == 1 && m.endpoints == 1 && m.peerEndpoints == 1
  }

  function ConfiguredEndpoint(canon: string -> Option<string>, profile: Profile): Option<string> {
    if SinglePeer(profile) then canon(ConfigMetadata(profile).endpoint) else None
  }

  function EndpointLine(line: string, endpoint: string): string {
    line[..Indent(line)] + "Endpoint = " + endpoint
  }

  function Rewritten(line: string, endpoint: string): string {
    if IsEndpointLine(line) then EndpointLine(line, endpoint) else line
  }

  function WithEndpoint(profile: Profile, endpoint: string): (r: Profile)
    ensures |r| == |profile|
  {
    if profile == [] then []
    else
      var k := |profile| - 1;
      WithEndpoint(profile[..k], endpoint) + [Rewritten(profile[k], endpoint)]
  }

  // ---------------------------------------------------------------- awk loops

  method ScanProfile(profile: Profile) returns (m: Metadata)
    ensures m == ConfigMetadata(profile)
  {
    m := Metadata(false, 0, 0, 0, "");
    var i := 0;
    while i < |profile|
      invariant 0 <= i <= |profile|
      invariant m == ConfigMetadata(profile[..i])
    {
      assert profile[..i + 1][..i] == profile[..i];
      m := Scan(m, profile[i]);
      i := i + 1;
    }
    assert profile[..i] == profile;
  }

  method RewriteEndpoint(profile: Profile, endpoint: string) returns (r: Profile)
    ensures r == WithEndpoint(profile, endpoint)
  {
    r := [];
    var i := 0;
    while i < |profile|
      invariant 0 <= i <= |profile|
      invariant r == WithEndpoint(profile[..i], endpoint)
    {
      assert profile[..i + 1][..i] == profile[..i];
      r := r + [Rewritten(profile[i], endpoint)];
      i := i + 1;
    }
    assert profile[..i] == profile;
  }

  // ----------------------------------------------------------------- laws

  lemma IndentOf(a: string, b: string)
    requires forall i :: 0 <= i < |a| ==> IsSpace(a[i])
    requires b != "" && !IsSpace(b[0])
    ensures Indent(a + b) == |a|
  {
    assert (a + b)[|a|] == b[0];
    assert forall i :: 0 <= i < |a| ==> (a + b)[i] == a[i];
  }

  lemma {:induction false} AfterPrefix(a: string, c: char, b: string)
    requires c !in a
    ensures After(a + [c] + b, c) == b
  {
    var s := a + [c] + b;
    if a == "" {
      assert s[1..] == b;
    } else {
      AfterPrefix(a[1..], c, b);
      assert s[1..] == a[1..] + [c] + b;
    }
  }

  lemma TrimSpace(e: string)
    requires Trim(e) == e
    ensures Trim(" " + e) == e
  {
    var s := " " + e;
    assert s[1..] == e;
    assert Indent(s) == 1 + Indent(e);
    assert s[Indent(s)..] == e[Indent(e)..];
  }

  lemma EndpointIsNoSection(line: string)
    requires IsEndpointLine(line)
    ensures !IsSectionLine(line)
  {
    var s := TrimLeft(line);
    assert "Endpoint"[0] == 'E' && s[0] == 'E';
  }

  lemma EndpointLineIndent(line: string, endpoint: string)
    ensures Indent(EndpointLine(line, endpoint)) == Indent(line)
    ensures EndpointLine(line, endpoint)[..Indent(line)] == line[..Indent(line)]
    ensures TrimLeft(EndpointLine(line, endpoint)) == "Endpoint = " + endpoint
  {
    var indent := line[..Indent(line)];
    var tail := "Endpoint = " + endpoint;
    assert EndpointLine(line, endpoint) == indent + tail;
    IndentOf(indent, tail);
  }

  lemma EndpointLineIs(line: string, endpoint: string)
    ensures IsEndpointLine(EndpointLine(line, endpoint))
  {
    EndpointLineIndent(line, endpoint);
    hide EndpointLine;
    var tail := "Endpoint = " + endpoint;
    var rest := "= " + endpoint;
    assert tail[8..] == " " + rest;
    IndentOf(" ", rest);
    assert TrimLeft(tail[8..]) == rest;
    assert "=" <= rest;
  }

  lemma EndpointLineValue(line: string, endpoint: string)
    requires Trim(endpoint) == endpoint
    ensures Trim(After(EndpointLine(line, endpoint), '=')) == endpoint
  {
    hide Trim;
    var front := line[..Indent(line)] + "Endpoint ";
    assert forall i :: 0 <= i < Indent(line) ==> line[i] != '=';
    assert '=' !in "Endpoint ";
    assert '=' !in front;
    assert "Endpoint = " == "Endpoint " + ['='] + " ";
    assert EndpointLine(line, endpoint) == front + ['='] + (" " + endpoint);
    AfterPrefix(front, '=', " " + endpoint);
    TrimSpace(endpoint);
  }

  /** The rewritten line is an endpoint line that reads as the new endpoint. */
  lemma EndpointLineReads(line: string, endpoint: string)
    requires Trim(endpoint) == endpoint
    ensures IsEndpointLine(EndpointLine(line, endpoint)) && !IsSectionLine(EndpointLine(line, endpoint))
    ensures Trim(After(EndpointLine(line, endpoint), '=')) == endpoint
    ensures Indent(EndpointLine(line, endpoint)) == Indent(line)
    ensures EndpointLine(line, endpoint)[..Indent(line)] == line[..Indent(line)]
  {
    hide Trim, After, IsEndpointLine, IsSectionLine, EndpointLine;
    EndpointLineIs(line, endpoint);
    EndpointLineIndent(line, endpoint);
    EndpointLineValue(line, endpoint);
    EndpointIsNoSection(EndpointLine(line, endpoint));
  }

  /** Two scans that agree but for an endpoint already replaced. */
  predicate Agree(was: Metadata, now: Metadata, endpoint: string) {
    && now == was.(endpoint := now.endpoint)
    && now.endpoint == if was.peerEndpoints > 0 then endpoint else ""
  }

  lemma RewrittenReads(line: string, endpoint: string)
    requires Trim(endpoint) == endpoint
    ensures IsEndpointLine(Rewritten(line, endpoint)) == IsEndpointLine(line)
    ensures IsSectionLine(Rewritten(line, endpoint)) == IsSectionLine(line)
    ensures if IsEndpointLine(line) then !IsSectionLine(line) && Trim(After(Rewritten(line, endpoint), '=')) == endpoint
            else Rewritten(line, endpoint) == line
  {
    hide IsEndpointLine, IsSectionLine, EndpointLine, Trim, After;
    if IsEndpointLine(line) {
      EndpointIsNoSection(line);
      EndpointLineReads(line, endpoint);
    }
  }

  lemma ScanRewritten(was: Metadata, now: Metadata, line: string, endpoint: string)
    requires Trim(endpoint) == endpoint && Agree(was, now, endpoint)
    ensures Agree(Scan(was, line), Scan(now, Rewritten(line, endpoint)), endpoint)
  {
    hide IsEndpointLine, IsSectionLine, IsPeerLine, EndpointLine, Trim, After, Rewritten;
    RewrittenReads(line, endpoint);
  }

  /** Rewriting keeps every count, and each endpoint counted inside a peer reads as the new one. */
  lemma {:induction false} RewriteKeepsCounts(profile: Profile, endpoint: string)
    requires Trim(endpoint) == endpoint
    ensures Agree(ConfigMetadata(profile), ConfigMetadata(WithEndpoint(profile, endpoint)), endpoint)
  {
    hide Scan, IsEndpointLine, EndpointLine, Trim;
    if profile != [] {
      var k := |profile| - 1;
      RewriteKeepsCounts(profile[..k], endpoint);
      var r := WithEndpoint(profile, endpoint);
      assert r[..k] == WithEndpoint(profile[..k], endpoint) && r[k] == Rewritten(profile[k], endpoint);
      ScanRewritten(ConfigMetadata(profile[..k]), ConfigMetadata(r[..k]), profile[k], endpoint);
    }
  }

  /** The rewritten profile is configured for exactly the new endpoint. */
  lemma RewriteIsConfigured(canon: string -> Option<string>, profile: Profile, endpoint: string)
    requires Canonicalizes(canon) && SinglePeer(profile) && canon(endpoint) == Some(endpoint)
    ensures ConfiguredEndpoint(canon, WithEndpoint(profile, endpoint)) == Some(endpoint)
  {
    RewriteKeepsCounts(profile, endpoint);
  }

  /** Only the endpoint lines change. */
  lemma {:induction false} RewriteTouchesEndpointsOnly(profile: Profile, endpoint: string)
    ensures forall i :: 0 <= i < |profile| && !IsEndpointLine(profile[i]) ==>
              WithEndpoint(profile, endpoint)[i] == profile[i]
  {
    if profile != [] {
      RewriteTouchesEndpointsOnly(profile[..|profile| - 1], endpoint);
      hide IsEndpointLine, EndpointLine;
    }
  }

  lemma RewrittenAgain(line: string, a: string, b: string)
    requires Trim(a) == a
    ensures Rewritten(Rewritten(line, a), b) == Rewritten(line, b)
  {
    hide IsEndpointLine, Trim;
    if IsEndpointLine(line) {
      EndpointLineReads(line, a);
    }
  }

  /** A second rewrite makes the first one irrelevant. */
  lemma {:induction false} RewriteTwice(profile: Profile, a: string, b: string)
    requires Trim(a) == a
    ensures WithEndpoint(WithEndpoint(profile, a), b) == WithEndpoint(profile, b)
  {
    hide IsEndpointLine, EndpointLine, Trim;
    if profile != [] {
      var k := |profile| - 1;
      RewriteTwice(profile[..k], a, b);
      RewrittenAgain(profile[k], a, b);
      var r := WithEndpoint(profile, a);
      assert r[..k] == WithEndpoint(profile[..k], a) && r[k] == Rewritten(profile[k], a);
    }
  }
}
