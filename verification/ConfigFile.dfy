/** The health configuration: setup's reader and rewriter, and the runtime's own parser of the same file. */
module ConfigFile {
  import opened Wrappers
  import opened Text

  const MAX_TEXT: nat := 65536
  const MAX_RUNTIME_LINE: nat := 4096

  datatype Update = Update(key: string, value: string)

  predicate IsKeyStart(c: char) {
    'A' <= c <= 'Z'
  }

  predicate IsKeyChar(c: char) {
    IsKeyStart(c) || '0' <= c <= '9' || c == '_'
  }

  predicate IsKey(s: string) {
    s != "" && IsKeyStart(s[0]) && forall i :: 0 <= i < |s| ==> IsKeyChar(s[i])
  }

  predicate IsAscii(s: string) {
    forall i :: 0 <= i < |s| ==> s[i] as int < 128
  }

  // ---------------------------------------------------------------- lines

  predicate IsBreak(c: char) {
    c == '\n' || c == '\r'
  }

  function BreakAt(s: string): (k: nat)
    ensures k <= |s|
    ensures forall i :: 0 <= i < k ==> !IsBreak(s[i])
    ensures k < |s| ==> IsBreak(s[k])
  {
    if s == "" || IsBreak(s[0]) then 0 else 1 + BreakAt(s[1..])
  }

  /** Lines ended by a newline, a carriage return or both; an unterminated tail counts. */
  function SplitLines(text: string): seq<string>
    decreases |text|
  {
    if text == "" then []
    else
      var k := BreakAt(text);
      if k == |text| then [text]
      else if text[k] == '\r' && k + 1 < |text| && text[k + 1] == '\n' then [text[..k]] + SplitLines(text[k + 2..])
      else [text[..k]] + SplitLines(text[k + 1..])
  }

  datatype Assignment = Assignment(key: string, raw: string)

  function ReadAssignment(line: string): Option<Assignment> {
    var at := IndexOf(line, '=');
    if at < |line| && IsKey(line[..at]) then Some(Assignment(line[..at], line[at + 1..])) else None
  }

  // --------------------------------------------------------------- setup

  predicate IsAmbiguous(c: char) {
    c == '\\' || c == '"' || c == '\'' || c == '`' || c == '$'
  }

  predicate HasAmbiguous(s: string) {
    exists i :: 0 <= i < |s| && IsAmbiguous(s[i])
  }

  function QuoteValue(value: string): Result<string> {
    if HasAmbiguous(value) || !IsAscii(value) then Err
    else if value == "" || ' ' in value || '\t' in value then Ok("\"" + value + "\"")
    else Ok(value)
  }

  function ParseValue(raw: string): Result<string> {
    var inner := if |raw| >= 2 && (raw[0] == '"' || raw[0] == '\'') && raw[|raw| - 1] == raw[0]
                 then raw[1..|raw| - 1] else raw;
    if IsAscii(inner) then Ok(inner) else Err
  }

  /** The raw values assigned to a key, in order. */
  function Raws(lines: seq<string>, wanted: string): seq<string> {
    if lines == [] then []
    else
      var k := |lines| - 1;
      var a := ReadAssignment(lines[k]);
      Raws(lines[..k], wanted) + if a.Some? && a.value.key == wanted then [a.value.raw] else []
  }

  /** Absent, the one value, or an error for a second assignment or an undecodable value. */
  function ConfigValue(text: string, wanted: string): Result<Option<string>> {
    var raws := Raws(SplitLines(text), wanted);
    if raws == [] then Ok(None)
    else if |raws| > 1 then Err
    else
      var value :- ParseValue(raws[0]);
      Ok(Some(value))
  }

  function FindUpdate(updates: seq<Update>, key: string): (k: nat)
    ensures k <= |updates|
    ensures forall i :: 0 <= i < k ==> updates[i].key != key
    ensures k < |updates| ==> updates[k].key == key
  {
    if updates == [] || updates[0].key == key then 0 else 1 + FindUpdate(updates[1..], key)
  }

  function AssignmentLine(key: string, quoted: string): string {
    key + "=" + quoted
  }

  datatype Progress = Progress(rendered: seq<string>, seen: set<string>)

  function RenderLine(p: Progress, line: string, updates: seq<Update>): Result<Progress> {
    var a := ReadAssignment(line);
    if a.None? then Ok(p.(rendered := p.rendered + [line]))
    else
      var k := FindUpdate(updates, a.value.key);
      if k == |updates| then Ok(p.(rendered := p.rendered + [line]))
      else if a.value.key in p.seen then Err
      else
        var quoted :- QuoteValue(updates[k].value);
        Ok(Progress(p.rendered + [AssignmentLine(a.value.key, quoted)], p.seen + {a.value.key}))
  }

  function RenderPrefix(lines: seq<string>, updates: seq<Update>): Result<Progress> {
    if lines == [] then Ok(Progress([], {}))
    else
      var p :- RenderPrefix(lines[..|lines| - 1], updates);
      RenderLine(p, lines[|lines| - 1], updates)
  }

  /** The updates not met in the text are appended in their own order. */
  function Missing(updates: seq<Update>, seen: set<string>): Result<seq<string>> {
    if updates == [] then Ok([])
    else
      var k := |updates| - 1;
      var front :- Missing(updates[..k], seen);
      if updates[k].key in seen then Ok(front)
      else
        var quoted :- QuoteValue(updates[k].value);
        Ok(front + [AssignmentLine(updates[k].key, quoted)])
  }

  function RenderedLines(lines: seq<string>, updates: seq<Update>): Result<seq<string>> {
    var p :- RenderPrefix(lines, updates);
    var missing :- Missing(updates, p.seen);
    Ok(p.rendered + missing)
  }

  function RenderConfig(text: string, updates: seq<Update>): Result<string> {
    if text == "" || text[|text| - 1] != '\n' || (0 as char) in text || |text| > MAX_TEXT then Err
    else
      var lines :- RenderedLines(SplitLines(text), updates);
      var result := JoinLines(lines);
      if |result| > MAX_TEXT then Err else Ok(result)
  }

  // -------------------------------------------------------------- runtime

  predicate IsKnownKey(key: string) {
    key in [
      "MAX_AGE", "PING_TARGET", "PING_COUNT", "PING_TIMEOUT", "REQUIRED_ROUTE", "REQUIRED_RULE",
      "COOLDOWN", "RESTART_DELAY", "WG_DOWN_TIMEOUT", "WG_UP_TIMEOUT",
      "SPEED_CHECK_ENABLED", "SPEED_CHECK_INTERVAL", "SPEED_CHECK_URL", "SPEED_MIN_BPS", "SPEED_TIMEOUT",
      "SPEED_RETRY_DELAY",
      "AIRVPN_ROTATE_ENABLED", "AIRVPN_PROFILE_SOURCE", "AIRVPN_DEVICE", "AIRVPN_COUNTRIES", "AIRVPN_WG_PORT",
      "AIRVPN_ROTATE_COOLDOWN",
      "AIRVPN_STATUS_URL", "AIRVPN_WHATISMYIP_URL", "AIRVPN_API_TIMEOUT",
      "QBITTORRENT_CONTAINER", "QBITTORRENT_LISTEN_IP", "QBITTORRENT_LISTEN_PORT",
      "QBITTORRENT_PROCESS_NAME", "QBITTORRENT_RESTART_DELAY", "QBITTORRENT_RESTART_TIMEOUT"]
  }

  predicate IsControl(c: char) {
    c as int < 32 || c as int == 127
  }

  predicate HasControl(s: string) {
    exists i :: 0 <= i < |s| && IsControl(s[i])
  }

  function RuntimeValue(raw: string): Result<string> {
    if raw != "" && (raw[0] == '"' || raw[0] == '\'') then
      if |raw| < 2 || raw[|raw| - 1] != raw[0] || HasAmbiguous(raw[1..|raw| - 1]) then Err
      else Ok(raw[1..|raw| - 1])
    else if HasAmbiguous(raw) || ' ' in raw then Err
    else Ok(raw)
  }

  function RuntimeLine(parsed: map<string, string>, line: string): Result<map<string, string>> {
    if |line| > MAX_RUNTIME_LINE || HasControl(line) then Err
    else if line == "" || line[0] == '#' then Ok(parsed)
    else
      var a := ReadAssignment(line);
      if a.None? || !IsKnownKey(a.value.key) || a.value.key in parsed then Err
      else
        var value :- RuntimeValue(a.value.raw);
        Ok(parsed[a.value.key := value])
  }

  function RuntimeLines(lines: seq<string>): Result<map<string, string>> {
    if lines == [] then Ok(map[])
    else
      var parsed :- RuntimeLines(lines[..|lines| - 1]);
      RuntimeLine(parsed, lines[|lines| - 1])
  }

  /** NUL bytes are dropped by the shell's reads and show up as a size mismatch. */
  function RuntimeParse(text: string): Result<map<string, string>> {
    if |text| > MAX_TEXT || (0 as char) in text then Err else RuntimeLines(Lines(text))
  }

  // ---------------------------------------------------------------- loops

  lemma RawsSnoc(lines: seq<string>, k: nat, wanted: string)
    requires k < |lines|
    ensures var a := ReadAssignment(lines[k]);
            Raws(lines[..k + 1], wanted)
            == Raws(lines[..k], wanted) + if a.Some? && a.value.key == wanted then [a.value.raw] else []
  {
    assert lines[..k + 1][..k] == lines[..k];
  }

  lemma {:induction false} RawsGrow(lines: seq<string>, k: nat, wanted: string)
    requires k <= |lines|
    ensures |Raws(lines[..k], wanted)| <= |Raws(lines, wanted)|
    ensures Raws(lines[..k], wanted) != [] ==>
              Raws(lines, wanted) != [] && Raws(lines, wanted)[0] == Raws(lines[..k], wanted)[0]
    decreases |lines| - k
  {
    if k < |lines| {
      RawsSnoc(lines, k, wanted);
      RawsGrow(lines, k + 1, wanted);
    } else {
      assert lines[..k] == lines;
    }
  }

  method FindConfigValue(text: string, wanted: string) returns (r: Result<Option<string>>)
    ensures r == ConfigValue(text, wanted)
  {
    hide ReadAssignment, ParseValue;
    var lines := SplitLines(text);
    var found: Option<string>, i := None, 0;
    while i < |lines|
      invariant 0 <= i <= |lines|
      invariant |Raws(lines[..i], wanted)| == if found.Some? then 1 else 0
      invariant found.Some? ==> ParseValue(Raws(lines[..i], wanted)[0]) == Ok(found.value)
    {
      RawsSnoc(lines, i, wanted);
      RawsGrow(lines, i + 1, wanted);
      var entry := ReadAssignment(lines[i]);
      if entry.Some? && entry.value.key == wanted {
        if found.Some? {
          return Err;
        }
        var value := ParseValue(entry.value.raw);
        if value.Err? {
          return Err;
        }
        found := Some(value.value);
      }
      i := i + 1;
    }
    assert lines[..i] == lines;
    return Ok(found);
  }

  lemma RenderSnoc(lines: seq<string>, k: nat, updates: seq<Update>)
    requires k < |lines| && RenderPrefix(lines[..k], updates).Ok?
    ensures RenderPrefix(lines[..k + 1], updates)
            == RenderLine(RenderPrefix(lines[..k], updates).value, lines[k], updates)
  {
    assert lines[..k + 1][..k] == lines[..k];
  }

  lemma {:induction false} RenderFails(lines: seq<string>, k: nat, updates: seq<Update>)
    requires k <= |lines| && RenderPrefix(lines[..k], updates).Err?
    ensures RenderPrefix(lines, updates).Err?
    decreases |lines| - k
  {
    if k < |lines| {
      assert lines[..k + 1][..k] == lines[..k];
      RenderFails(lines, k + 1, updates);
    } else {
      assert lines[..k] == lines;
    }
  }

  method RewriteLines(lines: seq<string>, updates: seq<Update>) returns (r: Result<Progress>)
    ensures r == RenderPrefix(lines, updates)
  {
    hide ReadAssignment, QuoteValue;
    var seen: set<string>, rendered: seq<string>, i := {}, [], 0;
    while i < |lines|
      invariant 0 <= i <= |lines|
      invariant RenderPrefix(lines[..i], updates) == Ok(Progress(rendered, seen))
    {
      var line := lines[i];
      RenderSnoc(lines, i, updates);
      i := i + 1;
      var entry := ReadAssignment(line);
      if entry.None? || FindUpdate(updates, entry.value.key) == |updates| {
        rendered := rendered + [line];
        continue;
      }
      var key := entry.value.key;
      var quoted := QuoteValue(updates[FindUpdate(updates, key)].value);
      if key in seen || quoted.Err? {
        RenderFails(lines, i, updates);
        return Err;
      }
      seen := seen + {key};
      rendered := rendered + [AssignmentLine(key, quoted.value)];
    }
    assert lines[..i] == lines;
    return Ok(Progress(rendered, seen));
  }

  lemma {:induction false} MissingFails(updates: seq<Update>, k: nat, seen: set<string>)
    requires k <= |updates| && Missing(updates[..k], seen).Err?
    ensures Missing(updates, seen).Err?
    decreases |updates| - k
  {
    if k < |updates| {
      assert updates[..k + 1][..k] == updates[..k];
      MissingFails(updates, k + 1, seen);
    } else {
      assert updates[..k] == updates;
    }
  }

  method RewriteConfig(text: string, updates: seq<Update>) returns (r: Result<string>)
    ensures r == RenderConfig(text, updates)
  {
    if text == "" || text[|text| - 1] != '\n' || (0 as char) in text || |text| > MAX_TEXT {
      return Err;
    }
    var progress :- RewriteLines(SplitLines(text), updates);
    var missing: seq<string>, i := [], 0;
    while i < |updates|
      invariant 0 <= i <= |updates|
      invariant Missing(updates[..i], progress.seen) == Ok(missing)
    {
      assert updates[..i + 1][..i] == updates[..i];
      if updates[i].key !in progress.seen {
        var quoted := QuoteValue(updates[i].value);
        if quoted.Err? {
          MissingFails(updates, i + 1, progress.seen);
          return Err;
        }
        missing := missing + [AssignmentLine(updates[i].key, quoted.value)];
      }
      i := i + 1;
    }
    assert updates[..i] == updates;
    var result := JoinLines(progress.rendered + missing);
    return if |result| > MAX_TEXT then Err else Ok(result);
  }

  lemma {:induction false} RuntimeFails(lines: seq<string>, k: nat)
    requires k <= |lines| && RuntimeLines(lines[..k]).Err?
    ensures RuntimeLines(lines).Err?
    decreases |lines| - k
  {
    if k < |lines| {
      assert lines[..k + 1][..k] == lines[..k];
      RuntimeFails(lines, k + 1);
    } else {
      assert lines[..k] == lines;
    }
  }

  method ParseHealthcheckConfig(text: string) returns (r: Result<map<string, string>>)
    ensures r == RuntimeParse(text)
  {
    hide RuntimeLine;
    if |text| > MAX_TEXT || (0 as char) in text {
      return Err;
    }
    var lines := Lines(text);
    var parsed: map<string, string>, i := map[], 0;
    while i < |lines|
      invariant 0 <= i <= |lines|
      invariant RuntimeLines(lines[..i]) == Ok(parsed)
    {
      assert lines[..i + 1][..i] == lines[..i];
      var next := RuntimeLine(parsed, lines[i]);
      i := i + 1;
      if next.Err? {
        RuntimeFails(lines, i);
        return Err;
      }
      parsed := next.value;
    }
    assert lines[..i] == lines;
    return Ok(parsed);
  }
}
