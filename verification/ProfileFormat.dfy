/** The strict WireGuard profile format: parsing, rendering, and pinning an installed identity. */
module ProfileFormat {
  import opened Wrappers
  import opened Text
  import Key = WireGuardKey

  const MAX_BYTES: nat := 65536
  const MAX_LINES: nat := 64
  const MAX_LINE_BYTES: nat := 1024

  function Header(): string {
    "# Generated by " + "wg-healthcheck " + "from validated " + "AirVPN API data."
  }

  /** Which characters print beyond ASCII, and which texts are canonical IPv6 addresses. */
  datatype Formats = Formats(printable: char -> bool, ipv6: string -> bool)

  predicate IsGraphic(c: char) {
    '!' <= c <= '~'
  }

  /** Visible ASCII that neither separates addresses nor ends a section. */
  predicate IsToken(s: string) {
    s != "" && forall i :: 0 <= i < |s| ==> IsGraphic(s[i]) && s[i] != ',' && s[i] != ']'
  }

  ghost predicate Sane(f: Formats) {
    && (forall c: char :: c as int < 128 ==> (f.printable(c) <==> ' ' <= c <= '~'))
    && (forall s :: f.ipv6(s) ==> IsToken(s) && '%' !in s)
  }

  // --------------------------------------------------------------- lines

  /** The bytes of a character in UTF-8. */
  function Utf8(c: char): (n: nat)
    ensures 1 <= n <= 4
  {
    if c as int < 0x80 then 1 else if c as int < 0x800 then 2 else if c as int < 0x10000 then 3 else 4
  }

  function Size(s: string): nat {
    if s == "" then 0 else Utf8(s[0]) + Size(s[1..])
  }

  /** Carriage returns before a newline are dropped. */
  function DropReturns(s: string): string {
    if s == "" then ""
    else if |s| > 1 && s[0] == '\r' && s[1] == '\n' then DropReturns(s[1..])
    else [s[0]] + DropReturns(s[1..])
  }

  predicate IsControl(c: char) {
    (c as int < 32 && c != NEWLINE) || c as int == 127
  }

  predicate HasControl(s: string) {
    exists i :: 0 <= i < |s| && IsControl(s[i])
  }

  predicate HasLongLine(lines: seq<string>) {
    exists i :: 0 <= i < |lines| && Size(lines[i]) > MAX_LINE_BYTES
  }

  predicate HasUnprintable(f: Formats, lines: seq<string>) {
    exists i, j :: 0 <= i < |lines| && 0 <= j < |lines[i]| && !f.printable(lines[i][j])
  }

  function ProfileLines(f: Formats, text: string): Result<seq<string>> {
    var normalized := DropReturns(text);
    var lines := if normalized == "" then [""] else Lines(normalized);
    if Size(text) > MAX_BYTES || '\r' in normalized || HasControl(normalized) then Err
    else if |lines| > MAX_LINES || HasLongLine(lines) || HasUnprintable(f, lines) then Err
    else Ok(lines)
  }

  /** Printable text has no white space but the space itself. */
  function StripLeft(s: string): (r: string)
    ensures |r| <= |s|
  {
    if s != "" && s[0] == ' ' then StripLeft(s[1..]) else s
  }

  function StripRight(s: string): (r: string)
    ensures |r| <= |s|
  {
    if s != "" && s[|s| - 1] == ' ' then StripRight(s[..|s| - 1]) else s
  }

  function Strip(s: string): string {
    StripRight(StripLeft(s))
  }

  // -------------------------------------------------------------- values

  predicate IsOctet(s: string) {
    IsCanonical(s) && |s| <= 3 && DecimalValue(s) <= 255
  }

  predicate IsOctets(s: string, n: nat) {
    var at := IndexOf(s, '.');
    IsOctet(s[..at]) && if n <= 1 then at == |s| else at < |s| && IsOctets(s[at + 1..], n - 1)
  }

  predicate IsIpv4(s: string) {
    IsOctets(s, 4)
  }

  predicate IsAddress(s: string) {
    |s| > 3 && s[|s| - 3..] == "/32" && IsIpv4(s[..|s| - 3])
  }

  predicate IsPort(s: string) {
    IsCanonical(s) && |s| <= 5 && 1 <= DecimalValue(s) <= 65535
  }

  predicate IsEndpoint(s: string) {
    var at := IndexOf(s, ':');
    at < |s| && IsIpv4(s[..at]) && IsPort(s[at + 1..])
  }

  predicate IsTable(s: string) {
    s == "auto" || s == "off" || (IsCanonical(s) && |s| <= 10 && 1 <= DecimalValue(s) <= 4294967295)
  }

  predicate IsDnsAddress(f: Formats, s: string) {
    IsIpv4(s) || f.ipv6(s)
  }

  function DnsAddresses(f: Formats, text: string): Result<seq<string>>
    decreases |text|
  {
    var at := IndexOf(text, ',');
    var item := Strip(text[..at]);
    if item == "" || '%' in item || !IsDnsAddress(f, item) then Err
    else if at == |text| then Ok([item])
    else
      var rest :- DnsAddresses(f, text[at + 1..]);
      Ok([item] + rest)
  }

  function JoinDns(items: seq<string>): string {
    if items == [] then ""
    else if |items| == 1 then items[0]
    else items[0] + ", " + JoinDns(items[1..])
  }

  // ------------------------------------------------------------- profiles

  datatype Profile = Profile(
    address: string,
    privateKey: string,
    mtu: nat,
    dns: seq<string>,
    table: Option<string>,
    publicKey: string,
    presharedKey: string,
    endpoint: string,
    allowedIps: string,
    keepalive: nat)

  /** A profile and the raw hook lines that only the installed file may hold. */
  datatype Trusted = Trusted(profile: Profile, hooks: seq<string>)

  /** Sections seen so far (none, interface, peer) and the fields of each. */
  datatype Scan = Scan(stage: nat, interface: map<string, string>, peer: map<string, string>)

  const Start := Scan(0, map[], map[])

  predicate IsInterfaceField(name: string) {
    name == "Address" || name == "PrivateKey" || name == "MTU" || name == "DNS" || name == "Table"
  }

  predicate IsPeerField(name: string) {
    name == "PublicKey" || name == "PresharedKey" || name == "Endpoint" || name == "AllowedIPs"
    || name == "PersistentKeepalive"
  }

  predicate IsHookName(name: string) {
    name == "PostUp" || name == "PostDown"
  }

  function NameOf(s: string): string {
    Strip(s[..IndexOf(s, '=')])
  }

  function ValueOf(s: string): string
    requires '=' in s
  {
    Strip(s[IndexOf(s, '=') + 1..])
  }

  function AddField(scan: Scan, name: string, value: string): Result<Scan> {
    if name == "" || value == "" then Err
    else if scan.stage == 1 then
      if !IsInterfaceField(name) || name in scan.interface then Err
      else Ok(scan.(interface := scan.interface[name := value]))
    else
      if !IsPeerField(name) || name in scan.peer then Err
      else Ok(scan.(peer := scan.peer[name := value]))
  }

  function ReadLine(scan: Scan, line: string): Result<Scan> {
    var t := Strip(line);
    if t == "" || t[0] == '#' then Ok(scan)
    else if t == "[Interface]" then (if scan.stage == 0 then Ok(scan.(stage := 1)) else Err)
    else if t == "[Peer]" then (if scan.stage == 1 then Ok(scan.(stage := 2)) else Err)
    else if t[0] == '[' || t[|t| - 1] == ']' || scan.stage == 0 || '=' !in t then Err
    else AddField(scan, NameOf(t), ValueOf(t))
  }

  function ReadLines(scan: Scan, lines: seq<string>): Result<Scan>
    decreases |lines|
  {
    if lines == [] then Ok(scan)
    else
      var next :- ReadLine(scan, lines[0]);
      ReadLines(next, lines[1..])
  }

  function Need(b: bool): Result<()> {
    if b then Ok(()) else Err
  }

  function Build(f: Formats, scan: Scan, expected: Option<string>): Result<Profile> {
    var i, p := scan.interface, scan.peer;
    if scan.stage != 2 || "Address" !in i || "PrivateKey" !in i || "MTU" !in i then Err
    else if "PublicKey" !in p || "PresharedKey" !in p || "Endpoint" !in p then Err
    else if "AllowedIPs" !in p || "PersistentKeepalive" !in p then Err
    else if i["MTU"] != "1320" || p["PersistentKeepalive"] != "15" || p["AllowedIPs"] != "0.0.0.0/0" then Err
    else if !IsEndpoint(p["Endpoint"]) || (expected.Some? && expected.value != p["Endpoint"]) then Err
    else if !IsAddress(i["Address"]) || !Key.AcceptedByBytes(i["PrivateKey"]) then Err
    else if !Key.AcceptedByBytes(p["PublicKey"]) || !Key.AcceptedByBytes(p["PresharedKey"]) then Err
    else if "Table" in i && !IsTable(i["Table"]) then Err
    else
      var dns :- if "DNS" in i then DnsAddresses(f, i["DNS"]) else Ok([]);
      Ok(Profile(i["Address"], i["PrivateKey"], 1320, dns, if "Table" in i then Some(i["Table"]) else None,
                 p["PublicKey"], p["PresharedKey"], p["Endpoint"], "0.0.0.0/0", 15))
  }

  function Parse(f: Formats, text: string, expected: Option<string>): Result<Profile> {
    var lines :- ProfileLines(f, text);
    var scan :- ReadLines(Start, lines);
    Build(f, scan, expected)
  }

  /** Lines split into the ones kept for the strict parser and the interface's hooks. */
  datatype Sieve = Sieve(inInterface: bool, retained: seq<string>, hooks: seq<string>)

  function SiftLine(s: Sieve, line: string): Result<Sieve> {
    var t := Strip(line);
    var s := if t == "[Interface]" then s.(inInterface := true)
             else if t == "[Peer]" then s.(inInterface := false)
             else s;
    if s.inInterface && '=' in line && IsHookName(NameOf(line)) then
      if ValueOf(line) == "" then Err else Ok(s.(hooks := s.hooks + [line]))
    else Ok(s.(retained := s.retained + [line]))
  }

  function Sift(s: Sieve, lines: seq<string>): Result<Sieve>
    decreases |lines|
  {
    if lines == [] then Ok(s)
    else
      var next :- SiftLine(s, lines[0]);
      Sift(next, lines[1..])
  }

  function ParseTrusted(f: Formats, text: string): Result<Trusted> {
    var lines :- ProfileLines(f, text);
    var s :- Sift(Sieve(false, [], []), lines);
    var profile :- Parse(f, if s.retained == [] then "\n" else JoinLines(s.retained), None);
    Ok(Trusted(profile, s.hooks))
  }

  // ------------------------------------------------------------ rendering

  function Assign(name: string, value: string): string {
    name + " = " + value
  }

  function DnsLine(dns: seq<string>): string {
    Assign("DNS", JoinDns(dns))
  }

  function Normalize(f: Formats, p: Profile): Result<Profile> {
    if !IsAddress(p.address) || !Key.AcceptedByBytes(p.privateKey) || p.mtu != 1320 then Err
    else if p.table.Some? && !IsTable(p.table.value) then Err
    else if !Key.AcceptedByBytes(p.publicKey) || !Key.AcceptedByBytes(p.presharedKey) then Err
    else if !IsEndpoint(p.endpoint) then Err
    else if p.allowedIps != "0.0.0.0/0" || p.keepalive != 15 then Err
    else if p.dns == [] then Ok(p)
    else
      var dns :- DnsAddresses(f, JoinDns(p.dns));
      if Size(DnsLine(p.dns)) > MAX_LINE_BYTES then Err else Ok(p.(dns := dns))
  }

  predicate IsHook(f: Formats, hook: string) {
    && '=' in hook && IsHookName(NameOf(hook)) && ValueOf(hook) != ""
    && (forall i :: 0 <= i < |hook| ==> f.printable(hook[i])) && Size(hook) <= MAX_LINE_BYTES
  }

  function NormalizeTrusted(f: Formats, t: Trusted): Result<Trusted> {
    var profile :- Normalize(f, t.profile);
    if exists i :: 0 <= i < |t.hooks| && !IsHook(f, t.hooks[i]) then Err
    else Ok(Trusted(profile, t.hooks))
  }

  function InterfaceFields(p: Profile): seq<(string, string)> {
    [("Address", p.address), ("PrivateKey", p.privateKey), ("MTU", "1320")]
    + (if p.dns != [] then [("DNS", JoinDns(p.dns))] else [])
    + (if p.table.Some? then [("Table", p.table.value)] else [])
  }

  function PeerFields(p: Profile): seq<(string, string)> {
    [("PublicKey", p.publicKey), ("PresharedKey", p.presharedKey), ("Endpoint", p.endpoint),
     ("AllowedIPs", "0.0.0.0/0"), ("PersistentKeepalive", "15")]
  }

  function FieldLines(fields: seq<(string, string)>): (r: seq<string>)
    ensures |r| == |fields|
    ensures forall i :: 0 <= i < |fields| ==> r[i] == Assign(fields[i].0, fields[i].1)
  {
    if fields == [] then [] else [Assign(fields[0].0, fields[0].1)] + FieldLines(fields[1..])
  }

  function RenderedLines(p: Profile, hooks: seq<string>): seq<string> {
    [Header(), "[Interface]"] + FieldLines(InterfaceFields(p)) + hooks + ["", "[Peer]"] + FieldLines(PeerFields(p))
  }

  function Render(f: Formats, p: Profile, hooks: seq<string>): Result<string> {
    var n :- Normalize(f, p);
    Ok(JoinLines(RenderedLines(n, hooks)))
  }

  predicate SameIdentity(a: Profile, b: Profile) {
    a.privateKey == b.privateKey && a.address == b.address
  }

  function Pinned(current: Profile, generated: Profile): Profile {
    generated.(address := current.address, privateKey := current.privateKey, dns := current.dns, table := current.table)
  }

  function Compose(f: Formats, current: Profile, generated: Profile): Result<Profile> {
    var c :- Normalize(f, current);
    var g :- Normalize(f, generated);
    if !SameIdentity(c, g) then Err else Normalize(f, Pinned(c, g))
  }

  /** The bytes of lines each followed by a newline. */
  function LinesSize(lines: seq<string>): nat {
    if lines == [] then 0 else Size(lines[0]) + 1 + LinesSize(lines[1..])
  }

  function RenderPinned(f: Formats, installed: Trusted, generated: Profile): Result<string> {
    var t :- NormalizeTrusted(f, installed);
    var pinned :- Compose(f, t.profile, generated);
    var base :- Render(f, pinned, []);
    if |Lines(base)| + |t.hooks| > MAX_LINES || Size(base) + LinesSize(t.hooks) > MAX_BYTES then Err
    else Render(f, pinned, t.hooks)
  }
}
