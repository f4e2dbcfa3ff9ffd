/** The parsing loops over a profile's lines, filling the two sections' fields one directive at a time. */
module ProfileReader {
  import opened Wrappers
  import opened Text
  import opened ProfileFormat

  lemma ReadRest(scan: Scan, lines: seq<string>, k: nat)
    requires k < |lines|
    ensures ReadLines(scan, lines[k..])
            == if ReadLine(scan, lines[k]).Ok? then ReadLines(ReadLine(scan, lines[k]).value, lines[k + 1..]) else Err
  {
    hide ReadLine;
    assert lines[k..][1..] == lines[k + 1..];
  }

  method ParseFields(lines: seq<string>) returns (r: Result<Scan>)
    ensures r == ReadLines(Start, lines)
  {
    var stage, interface, peer := 0, map[], map[];
    var number := 0;
    assert lines[0..] == lines;
    while number < |lines|
      invariant 0 <= number <= |lines|
      invariant ReadLines(Scan(stage, interface, peer), lines[number..]) == ReadLines(Start, lines)
    {
      var scan := Scan(stage, interface, peer);
      ReadRest(scan, lines, number);
      var next := DirectiveLine(scan, lines[number]);
      hide ReadLine, ReadLines;
      if next.Err? {
        return Err;
      }
      stage, interface, peer := next.value.stage, next.value.interface, next.value.peer;
      number := number + 1;
    }
    return Ok(Scan(stage, interface, peer));
  }

  /** One line: skipped, a section header, or a directive of the current section. */
  method DirectiveLine(scan: Scan, line: string) returns (r: Result<Scan>)
    ensures r == ReadLine(scan, line)
  {
    var stripped := Strip(line);
    if stripped == "" || stripped[0] == '#' {
      return Ok(scan);
    }
    if stripped == "[Interface]" || stripped == "[Peer]" {
      var expected := if scan.stage == 0 then "[Interface]" else "[Peer]";
      if stripped != expected || scan.stage >= 2 {
        return Err;
      }
      return Ok(scan.(stage := scan.stage + 1));
    }
    if stripped[0] == '[' || stripped[|stripped| - 1] == ']' || scan.stage == 0 || '=' !in stripped {
      return Err;
    }
    var name, value := NameOf(stripped), ValueOf(stripped);
    if name == "" || value == "" {
      return Err;
    }
    if scan.stage == 1 {
      if !IsInterfaceField(name) || name in scan.interface {
        return Err;
      }
      return Ok(scan.(interface := scan.interface[name := value]));
    }
    if !IsPeerField(name) || name in scan.peer {
      return Err;
    }
    return Ok(scan.(peer := scan.peer[name := value]));
  }

  method ParseWireguardProfile(f: Formats, text: string, expected: Option<string>) returns (r: Result<Profile>)
    ensures r == Parse(f, text, expected)
  {
    hide ProfileLines, ReadLines, Build;
    var lines :- ProfileLines(f, text);
    var scan :- ParseFields(lines);
    return Build(f, scan, expected);
  }

  lemma SiftRest(s: Sieve, lines: seq<string>, k: nat)
    requires k < |lines|
    ensures Sift(s, lines[k..])
            == if SiftLine(s, lines[k]).Ok? then Sift(SiftLine(s, lines[k]).value, lines[k + 1..]) else Err
  {
    hide SiftLine;
    assert lines[k..][1..] == lines[k + 1..];
  }

  /** Keeps the hooks of the interface section apart and hands everything else to the strict parser. */
  method ParseTrustedInstalledProfile(f: Formats, text: string) returns (r: Result<Trusted>)
    ensures r == ParseTrusted(f, text)
  {
    hide ProfileLines, Parse, Strip, NameOf, ValueOf, IsHookName;
    var lines :- ProfileLines(f, text);
    var inInterface, retained, hooks := false, [], [];
    var number := 0;
    assert lines[0..] == lines;
    while number < |lines|
      invariant 0 <= number <= |lines|
      invariant Sift(Sieve(inInterface, retained, hooks), lines[number..]) == Sift(Sieve(false, [], []), lines)
    {
      var line := lines[number];
      var stripped := Strip(line);
      SiftRest(Sieve(inInterface, retained, hooks), lines, number);
      if stripped == "[Interface]" || stripped == "[Peer]" {
        inInterface := stripped == "[Interface]";
      }
      if inInterface && '=' in line && IsHookName(NameOf(line)) {
        if ValueOf(line) == "" {
          return Err;
        }
        hooks := hooks + [line];
      } else {
        retained := retained + [line];
      }
      number := number + 1;
    }
    var profile := ParseWireguardProfile(f, if retained == [] then "\n" else JoinLines(retained), None);
    if profile.Err? {
      return Err;
    }
    return Ok(Trusted(profile.value, hooks));
  }
}
