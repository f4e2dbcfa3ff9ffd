/** A rewritten configuration reads back its updates through both readers and keeps everything else. */
module ConfigLaws {
  import opened Wrappers
  import opened Text
  import opened ConfigFile

  // ---------------------------------------------------------------- lines

  predicate IsLine(s: string) {
    forall i :: 0 <= i < |s| ==> !IsBreak(s[i])
  }

  predicate AllLines(lines: seq<string>) {
    forall i :: 0 <= i < |lines| ==> IsLine(lines[i])
  }

  lemma {:induction false} BreakAtLine(line: string, rest: string)
    requires IsLine(line)
    ensures BreakAt(line + [NEWLINE] + rest) == |line|
  {
    var s := line + [NEWLINE] + rest;
    if line != "" {
      BreakAtLine(line[1..], rest);
      assert s[1..] == line[1..] + [NEWLINE] + rest;
    }
  }

  /** Text joined from lines splits into them. */
  lemma {:induction false} SplitOfJoin(lines: seq<string>)
    requires AllLines(lines)
    ensures SplitLines(JoinLines(lines)) == lines
  {
    if lines != [] {
      SplitOfJoin(lines[1..]);
      SplitOfCons(lines[0], JoinLines(lines[1..]));
      hide SplitLines;
      assert lines == [lines[0]] + lines[1..];
    }
  }

  lemma SplitOfCons(line: string, rest: string)
    requires IsLine(line)
    ensures SplitLines(line + [NEWLINE] + rest) == [line] + SplitLines(rest)
  {
    hide BreakAt, IsLine;
    BreakAtLine(line, rest);
    var text := line + [NEWLINE] + rest;
    assert text[..|line|] == line && text[|line| + 1..] == rest;
  }

  lemma {:induction false} SplitIsLines(text: string)
    ensures AllLines(SplitLines(text))
    decreases |text|
  {
    hide BreakAt, IsLine;
    if text != "" {
      LineBeforeBreak(text);
      var k := BreakAt(text);
      if k < |text| {
        if text[k] == '\r' && k + 1 < |text| && text[k + 1] == '\n' {
          SplitIsLines(text[k + 2..]);
        } else {
          SplitIsLines(text[k + 1..]);
        }
      } else {
        assert text[..k] == text;
      }
    }
  }

  lemma LineBeforeBreak(text: string)
    ensures IsLine(text[..BreakAt(text)])
  {
    hide BreakAt;
  }

  lemma {:induction false} IndexIsBreak(text: string)
    requires '\r' !in text
    ensures BreakAt(text) == IndexOf(text, NEWLINE)
  {
    if text != "" && text[0] != NEWLINE {
      IndexIsBreak(text[1..]);
    }
  }

  lemma SplitStep(text: string)
    requires '\r' !in text && text != ""
    ensures var k := IndexOf(text, NEWLINE);
            SplitLines(text) == if k == |text| then [text] else [text[..k]] + SplitLines(text[k + 1..])
  {
    hide BreakAt, IndexOf;
    IndexIsBreak(text);
    var k := BreakAt(text);
    if k < |text| {
      assert text[k] != '\r';
    }
  }

  /** On text without carriage returns setup and the runtime see the same lines. */
  lemma {:induction false} SameLines(text: string)
    requires '\r' !in text
    ensures SplitLines(text) == Lines(text)
    decreases |text|
  {
    hide IndexOf, BreakAt;
    if text != "" {
      hide SplitLines;
      SplitStep(text);
      var k := IndexOf(text, NEWLINE);
      if k < |text| {
        var rest := text[k + 1..];
        assert '\r' !in rest;
        SameLines(rest);
        LinesStep(text);
      }
    }
  }

  lemma LinesStep(text: string)
    requires IndexOf(text, NEWLINE) < |text|
    ensures Lines(text) == [text[..IndexOf(text, NEWLINE)]] + Lines(text[IndexOf(text, NEWLINE) + 1..])
  {
    hide IndexOf;
  }

  // --------------------------------------------------------------- values

  /** A quoted value parses back to itself. */
  lemma QuoteRoundTrip(value: string)
    requires QuoteValue(value).Ok?
    ensures ParseValue(QuoteValue(value).value) == Ok(value)
    ensures QuoteValue(value).value in {value, "\"" + value + "\""}
  {
    var q := QuoteValue(value).value;
    if q != value {
      assert q == "\"" + value + "\"";
      assert q[1..|q| - 1] == value;
    } else if value != "" {
      assert !IsAmbiguous(value[0]);
    }
  }

  /** The runtime reads a quoted value as the same text, whatever it is. */
  lemma RuntimeReadsQuoted(value: string)
    requires QuoteValue(value).Ok?
    ensures RuntimeValue(QuoteValue(value).value) == Ok(value)
  {
    var q := QuoteValue(value).value;
    if value == "" || ' ' in value || '\t' in value {
      assert q == "\"" + value + "\"";
      assert q[1..|q| - 1] == value;
    } else {
      assert !IsAmbiguous(value[0]);
    }
  }

  lemma KeysHaveNoSign(key: string)
    requires IsKey(key)
    ensures '=' !in key && IsLine(key) && key[0] != '#' && !HasControl(key)
  {
    forall i | 0 <= i < |key| ensures key[i] != '=' && !IsBreak(key[i]) && !IsControl(key[i]) {
      assert IsKeyChar(key[i]);
    }
  }

  lemma AssignmentReads(key: string, raw: string)
    requires IsKey(key)
    ensures ReadAssignment(AssignmentLine(key, raw)) == Some(Assignment(key, raw))
  {
    KeysHaveNoSign(key);
    IndexOfPrefix(key, '=', raw);
    var line := AssignmentLine(key, raw);
    assert line == key + ['='] + raw;
    assert line[..|key|] == key && line[|key| + 1..] == raw;
  }

  // ------------------------------------------------------------ rewriting

  predicate KeysAreValid(updates: seq<Update>) {
    && (forall i :: 0 <= i < |updates| ==> IsKey(updates[i].key))
    && (forall i, j :: 0 <= i < j < |updates| ==> updates[i].key != updates[j].key)
  }

  predicate Updated(updates: seq<Update>, key: string) {
    FindUpdate(updates, key) < |updates|
  }

  function QuotedOf(updates: seq<Update>, key: string): Result<string>
    requires Updated(updates, key)
  {
    QuoteValue(updates[FindUpdate(updates, key)].value)
  }

  /** What rewriting makes of one line. */
  function RewrittenLine(line: string, updates: seq<Update>): string {
    var a := ReadAssignment(line);
    if a.Some? && Updated(updates, a.value.key) && QuotedOf(updates, a.value.key).Ok?
    then AssignmentLine(a.value.key, QuotedOf(updates, a.value.key).value) else line
  }

  /** Line by line: the same number, each its own rewriting, and each key met at most once. */
  lemma {:induction false} PrefixLaw(lines: seq<string>, updates: seq<Update>)
    requires RenderPrefix(lines, updates).Ok?
    ensures var p := RenderPrefix(lines, updates).value;
            && |p.rendered| == |lines|
            && (forall i :: 0 <= i < |lines| ==> p.rendered[i] == RewrittenLine(lines[i], updates))
            && (forall key :: key in p.seen <==> Updated(updates, key) && Raws(lines, key) != [])
            && (forall key :: Updated(updates, key) ==> |Raws(lines, key)| <= 1)
            && (forall key :: key in p.seen ==> QuotedOf(updates, key).Ok?)
  {
    hide ReadAssignment, RenderLine, RewrittenLine, QuotedOf, Updated;
    if lines != [] {
      var k := |lines| - 1;
      PrefixLaw(lines[..k], updates);
      RenderLineLaw(RenderPrefix(lines[..k], updates).value, lines[k], updates);
    }
  }

  /** One line more: its own rewriting, and its key met if it is an updated one. */
  lemma RenderLineLaw(p: Progress, line: string, updates: seq<Update>)
    requires RenderLine(p, line, updates).Ok?
    ensures var q, a := RenderLine(p, line, updates).value, ReadAssignment(line);
            && q.rendered == p.rendered + [RewrittenLine(line, updates)]
            && (if a.Some? && Updated(updates, a.value.key)
                then a.value.key !in p.seen && q.seen == p.seen + {a.value.key} && QuotedOf(updates, a.value.key).Ok?
                else q.seen == p.seen)
  {
    hide ReadAssignment, QuoteValue, AssignmentLine, FindUpdate;
  }

  lemma NothingAssigned(key: string)
    ensures Raws([], key) == []
  {
  }

  lemma RawsLast(lines: seq<string>, line: string, key: string)
    ensures var a := ReadAssignment(line);
            Raws(lines + [line], key)
            == Raws(lines, key) + if a.Some? && a.value.key == key then [a.value.raw] else []
  {
    hide ReadAssignment;
    assert (lines + [line])[..|lines|] == lines;
  }

  lemma {:induction false} RawsAppend(a: seq<string>, b: seq<string>, key: string)
    ensures Raws(a + b, key) == Raws(a, key) + Raws(b, key)
  {
    hide ReadAssignment, Raws;
    if b == [] {
      NothingAssigned(key);
      assert a + b == a && Raws(a, key) + [] == Raws(a, key);
    } else {
      var front, line := b[..|b| - 1], b[|b| - 1];
      RawsAppend(a, front, key);
      RawsLast(a + front, line, key);
      RawsLast(front, line, key);
      assert a + b == (a + front) + [line] && b == front + [line];
    }
  }

  /** Rewriting keeps every other key's values and replaces an updated one's. */
  lemma {:induction false} PrefixRaws(lines: seq<string>, updates: seq<Update>, rendered: seq<string>, key: string)
    requires |rendered| == |lines| && forall i :: 0 <= i < |lines| ==> rendered[i] == RewrittenLine(lines[i], updates)
    requires Updated(updates, key) ==> QuotedOf(updates, key).Ok?
    ensures |Raws(rendered, key)| == |Raws(lines, key)|
    ensures !Updated(updates, key) ==> Raws(rendered, key) == Raws(lines, key)
    ensures Updated(updates, key) ==>
              forall i :: 0 <= i < |Raws(rendered, key)| ==> Raws(rendered, key)[i] == QuotedOf(updates, key).value
    decreases |lines|
  {
    if lines != [] {
      var k := |lines| - 1;
      PrefixRaws(lines[..k], updates, rendered[..k], key);
      LineRaws(lines[k], updates);
      hide ReadAssignment, QuoteValue, AssignmentLine, RewrittenLine;
    }
  }

  lemma LineRaws(line: string, updates: seq<Update>)
    ensures var was, now := ReadAssignment(line), ReadAssignment(RewrittenLine(line, updates));
            if was.Some? && Updated(updates, was.value.key) && QuotedOf(updates, was.value.key).Ok?
            then now == Some(Assignment(was.value.key, QuotedOf(updates, was.value.key).value))
            else now == was
  {
    var was := ReadAssignment(line);
    if was.Some? && Updated(updates, was.value.key) && QuotedOf(updates, was.value.key).Ok? {
      AssignmentReads(was.value.key, QuotedOf(updates, was.value.key).value);
    }
    hide QuoteValue, AssignmentLine;
  }

  /** The appended lines assign exactly the updates not met, each once. */
  lemma {:induction false} MissingRaws(updates: seq<Update>, k: nat, seen: set<string>, key: string)
    requires k <= |updates| && KeysAreValid(updates) && Missing(updates[..k], seen).Ok?
    ensures var at := FindUpdate(updates, key);
            Raws(Missing(updates[..k], seen).value, key)
            == if at < k && key !in seen && QuoteValue(updates[at].value).Ok?
               then [QuoteValue(updates[at].value).value] else []
    ensures forall i :: 0 <= i < k && updates[i].key !in seen ==> QuoteValue(updates[i].value).Ok?
    decreases k
  {
    if k > 0 {
      var u := updates[k - 1];
      assert updates[..k][..k - 1] == updates[..k - 1];
      MissingRaws(updates, k - 1, seen, key);
      if u.key !in seen {
        var q := QuoteValue(u.value).value;
        AssignmentReads(u.key, q);
        RawsAppend(Missing(updates[..k - 1], seen).value, [AssignmentLine(u.key, q)], key);
        assert [AssignmentLine(u.key, q)][..0] == [];
      }
      hide ReadAssignment, QuoteValue, AssignmentLine, IsKey;
      FoundAt(updates, k - 1, key);
    }
  }

  lemma FoundAt(updates: seq<Update>, i: nat, key: string)
    requires i < |updates| && KeysAreValid(updates)
    ensures FindUpdate(updates, key) == i <==> updates[i].key == key
  {
  }

  // ----------------------------------------------------------- main results

  predicate ValuesAreLines(updates: seq<Update>) {
    forall i :: 0 <= i < |updates| ==> IsLine(updates[i].value)
  }

  lemma QuotedIsLine(u: Update)
    requires IsKey(u.key) && IsLine(u.value) && QuoteValue(u.value).Ok?
    ensures IsLine(AssignmentLine(u.key, QuoteValue(u.value).value))
  {
    KeysHaveNoSign(u.key);
  }

  lemma RewrittenIsLine(line: string, updates: seq<Update>)
    requires IsLine(line) && ValuesAreLines(updates)
    ensures IsLine(RewrittenLine(line, updates))
  {
    var a := ReadAssignment(line);
    if a.Some? && Updated(updates, a.value.key) && QuotedOf(updates, a.value.key).Ok? {
      QuotedIsLine(updates[FindUpdate(updates, a.value.key)]);
    }
  }

  lemma {:induction false} MissingAreLines(updates: seq<Update>, seen: set<string>)
    requires KeysAreValid(updates) && ValuesAreLines(updates) && Missing(updates, seen).Ok?
    ensures AllLines(Missing(updates, seen).value)
  {
    if updates != [] {
      var k := |updates| - 1;
      MissingAreLines(updates[..k], seen);
      if updates[k].key !in seen {
        QuotedIsLine(updates[k]);
      }
      hide QuoteValue, AssignmentLine, IsLine, IsKey;
    }
  }

  lemma RenderedAreLines(lines: seq<string>, updates: seq<Update>)
    requires AllLines(lines) && KeysAreValid(updates) && ValuesAreLines(updates) && RenderedLines(lines, updates).Ok?
    ensures AllLines(RenderedLines(lines, updates).value)
  {
    hide IsLine, RewrittenLine, Missing, RenderPrefix, KeysAreValid, ValuesAreLines;
    PrefixLaw(lines, updates);
    var p := RenderPrefix(lines, updates).value;
    forall i | 0 <= i < |lines| ensures IsLine(p.rendered[i]) {
      RewrittenIsLine(lines[i], updates);
    }
    MissingAreLines(updates, p.seen);
  }

  /** Among rendered lines an updated key has exactly its quoted value, and any other key its old values. */
  lemma RenderedRaws(lines: seq<string>, updates: seq<Update>, key: string)
    requires KeysAreValid(updates) && RenderedLines(lines, updates).Ok?
    ensures var rendered := RenderedLines(lines, updates).value;
            if Updated(updates, key)
            then QuotedOf(updates, key).Ok? && Raws(rendered, key) == [QuotedOf(updates, key).value]
            else Raws(rendered, key) == Raws(lines, key)
  {
    var p := RenderPrefix(lines, updates).value;
    var at := FindUpdate(updates, key);
    hide RenderPrefix, RewrittenLine, QuoteValue, Raws, Missing, IsKey;
    PrefixLaw(lines, updates);
    assert updates[..|updates|] == updates;
    MissingRaws(updates, |updates|, p.seen, key);
    PrefixRaws(lines, updates, p.rendered, key);
    RawsAppend(p.rendered, Missing(updates, p.seen).value, key);
  }

  lemma RenderedSplits(text: string, updates: seq<Update>)
    requires KeysAreValid(updates) && ValuesAreLines(updates) && RenderConfig(text, updates).Ok?
    ensures SplitLines(RenderConfig(text, updates).value) == RenderedLines(SplitLines(text), updates).value
  {
    hide RenderedLines, SplitLines, JoinLines, AllLines;
    SplitIsLines(text);
    RenderedAreLines(SplitLines(text), updates);
    SplitOfJoin(RenderedLines(SplitLines(text), updates).value);
  }

  /** Each updated key reads back its value, and every other key reads as before. */
  lemma UpdatesReadBack(text: string, updates: seq<Update>, key: string)
    requires KeysAreValid(updates) && ValuesAreLines(updates) && RenderConfig(text, updates).Ok?
    ensures var result := RenderConfig(text, updates).value;
            if Updated(updates, key) then ConfigValue(result, key) == Ok(Some(updates[FindUpdate(updates, key)].value))
            else ConfigValue(result, key) == ConfigValue(text, key)
  {
    RenderedSplits(text, updates);
    RenderedRaws(SplitLines(text), updates, key);
    if Updated(updates, key) {
      QuoteRoundTrip(updates[FindUpdate(updates, key)].value);
    }
    hide RenderConfig, RenderedLines, SplitLines, Raws, QuoteValue, ParseValue, KeysAreValid, ValuesAreLines;
  }

  lemma ParsedIsLine(lines: seq<string>, key: string)
    requires AllLines(lines)
    ensures AllLines(Raws(lines, key))
  {
    hide IsKey;
    if lines != [] {
      ParsedIsLine(lines[..|lines| - 1], key);
      assert IsLine(lines[|lines| - 1]);
    }
  }

  /** Whatever the reader returns is a single line. */
  lemma ReadValuesAreLines(text: string, key: string)
    requires ConfigValue(text, key).Ok? && ConfigValue(text, key).value.Some?
    ensures IsLine(ConfigValue(text, key).value.value)
  {
    SplitIsLines(text);
    ParsedIsLine(SplitLines(text), key);
    assert IsLine(Raws(SplitLines(text), key)[0]);
  }

  /** All updates read back exactly when all values are single lines. */
  lemma UpdatesReadBackExactly(text: string, updates: seq<Update>)
    requires KeysAreValid(updates) && RenderConfig(text, updates).Ok?
    ensures (forall i :: 0 <= i < |updates| ==>
               ConfigValue(RenderConfig(text, updates).value, updates[i].key) == Ok(Some(updates[i].value)))
            <==> ValuesAreLines(updates)
  {
    var result := RenderConfig(text, updates).value;
    hide RenderConfig, IsKey;
    if ValuesAreLines(updates) {
      forall i | 0 <= i < |updates| ensures ConfigValue(result, updates[i].key) == Ok(Some(updates[i].value)) {
        UpdatesReadBack(text, updates, updates[i].key);
        FoundAt(updates, i, updates[i].key);
      }
    } else {
      var i :| 0 <= i < |updates| && !IsLine(updates[i].value);
      if ConfigValue(result, updates[i].key) == Ok(Some(updates[i].value)) {
        ReadValuesAreLines(result, updates[i].key);
      }
    }
  }

  /** Lines that assign no updated key keep their content and their place. */
  lemma OtherLinesStay(text: string, updates: seq<Update>, i: nat)
    requires KeysAreValid(updates) && ValuesAreLines(updates) && RenderConfig(text, updates).Ok?
    requires i < |SplitLines(text)|
    ensures var was, now := SplitLines(text), SplitLines(RenderConfig(text, updates).value);
            && |was| <= |now|
            && (ReadAssignment(was[i]).None? || !Updated(updates, ReadAssignment(was[i]).value.key) ==>
                  now[i] == was[i])
  {
    RenderedSplits(text, updates);
    PrefixLaw(SplitLines(text), updates);
    hide RenderConfig, SplitLines, QuoteValue, KeysAreValid, ValuesAreLines, RenderPrefix, Missing, ReadAssignment;
  }

  // ---------------------------------------------------------- idempotence

  predicate Settled(lines: seq<string>, updates: seq<Update>) {
    forall i :: 0 <= i < |updates| ==>
      QuoteValue(updates[i].value).Ok? && Raws(lines, updates[i].key) == [QuoteValue(updates[i].value).value]
  }

  lemma {:induction false} RawsBelow(lines: seq<string>, k: nat, key: string)
    requires k < |lines| && |Raws(lines, key)| <= 1
    requires ReadAssignment(lines[k]).Some? && ReadAssignment(lines[k]).value.key == key
    ensures Raws(lines[..k], key) == [] && Raws(lines, key) == [ReadAssignment(lines[k]).value.raw]
  {
    hide ReadAssignment;
    RawsSnoc(lines, k, key);
    assert lines == lines[..k + 1] + lines[k + 1..];
    RawsAppend(lines[..k + 1], lines[k + 1..], key);
  }

  lemma AssignmentIsLine(line: string)
    requires ReadAssignment(line).Some?
    ensures line == AssignmentLine(ReadAssignment(line).value.key, ReadAssignment(line).value.raw)
  {
    var at := IndexOf(line, '=');
    assert line == line[..at] + "=" + line[at + 1..];
  }

  lemma NothingRendered(updates: seq<Update>)
    ensures RenderPrefix([], updates) == Ok(Progress([], {}))
  {
  }

  /** Over lines that already hold the updates, rewriting changes no line. */
  lemma {:induction false} SettledPrefix(lines: seq<string>, k: nat, updates: seq<Update>)
    requires k <= |lines| && KeysAreValid(updates) && Settled(lines, updates)
    ensures RenderPrefix(lines[..k], updates).Ok? && RenderPrefix(lines[..k], updates).value.rendered == lines[..k]
    decreases k
  {
    hide RewrittenLine, Raws, IsKey, KeysAreValid, RenderPrefix;
    if k > 0 {
      SettledPrefix(lines, k - 1, updates);
      RenderSnoc(lines, k - 1, updates);
      PrefixLaw(lines[..k - 1], updates);
      var a := ReadAssignment(lines[k - 1]);
      if a.Some? && Updated(updates, a.value.key) {
        RawsBelow(lines, k - 1, a.value.key);
        AssignmentIsLine(lines[k - 1]);
      }
      hide ReadAssignment, QuoteValue, AssignmentLine;
      assert lines[..k] == lines[..k - 1] + [lines[k - 1]];
    } else {
      NothingRendered(updates);
      assert lines[..0] == [];
    }
  }

  lemma {:induction false} NothingMissing(updates: seq<Update>, seen: set<string>)
    requires forall i :: 0 <= i < |updates| ==> updates[i].key in seen
    ensures Missing(updates, seen) == Ok([])
  {
    hide QuoteValue;
    if updates != [] {
      NothingMissing(updates[..|updates| - 1], seen);
    }
  }

  lemma UpdatedAt(updates: seq<Update>, i: nat)
    requires i < |updates| && KeysAreValid(updates)
    ensures Updated(updates, updates[i].key) && FindUpdate(updates, updates[i].key) == i
  {
    FoundAt(updates, i, updates[i].key);
  }

  lemma SettledIsSeen(lines: seq<string>, updates: seq<Update>, i: nat)
    requires KeysAreValid(updates) && Settled(lines, updates) && RenderPrefix(lines, updates).Ok? && i < |updates|
    ensures updates[i].key in RenderPrefix(lines, updates).value.seen
  {
    hide RenderPrefix, RewrittenLine, QuoteValue, KeysAreValid, Updated;
    PrefixLaw(lines, updates);
    UpdatedAt(updates, i);
    assert Raws(lines, updates[i].key) != [];
  }

  lemma SettledStays(lines: seq<string>, updates: seq<Update>)
    requires KeysAreValid(updates) && Settled(lines, updates)
    ensures RenderedLines(lines, updates) == Ok(lines)
  {
    hide RenderPrefix, Settled, KeysAreValid, Missing;
    assert lines[..|lines|] == lines;
    SettledPrefix(lines, |lines|, updates);
    var p := RenderPrefix(lines, updates).value;
    forall i | 0 <= i < |updates| ensures updates[i].key in p.seen {
      SettledIsSeen(lines, updates, i);
    }
    NothingMissing(updates, p.seen);
    assert lines + [] == lines;
  }

  predicate ValuesHaveNoNul(updates: seq<Update>) {
    forall i :: 0 <= i < |updates| ==> (0 as char) !in updates[i].value
  }

  lemma {:induction false} JoinHas(lines: seq<string>, c: char)
    requires c != NEWLINE
    ensures c in JoinLines(lines) <==> exists i :: 0 <= i < |lines| && c in lines[i]
  {
    if lines != [] {
      JoinHas(lines[1..], c);
      var head, rest := lines[0] + [NEWLINE], JoinLines(lines[1..]);
      assert JoinLines(lines) == head + rest;
      assert c in JoinLines(lines) <==> c in lines[0] || c in rest;
      assert forall i :: 1 <= i < |lines| ==> lines[i] == lines[1..][i - 1];
      if exists i :: 0 <= i < |lines| && c in lines[i] {
        var i :| 0 <= i < |lines| && c in lines[i];
        assert i > 0 ==> c in lines[1..][i - 1];
      }
    }
  }

  lemma {:induction false} SplitHas(text: string, c: char)
    requires !IsBreak(c)
    ensures c !in text ==> forall i :: 0 <= i < |SplitLines(text)| ==> c !in SplitLines(text)[i]
    decreases |text|
  {
    if text != "" {
      var k := BreakAt(text);
      if k < |text| {
        var next := if text[k] == '\r' && k + 1 < |text| && text[k + 1] == '\n' then k + 2 else k + 1;
        SplitHas(text[next..], c);
      }
    }
  }

  lemma QuotedHas(u: Update, c: char)
    requires QuoteValue(u.value).Ok? && c != '"' && c != '=' && c !in u.key
    ensures c in AssignmentLine(u.key, QuoteValue(u.value).value) <==> c in u.value
  {
  }

  lemma {:induction false} MissingHas(updates: seq<Update>, seen: set<string>)
    requires KeysAreValid(updates) && ValuesHaveNoNul(updates) && Missing(updates, seen).Ok?
    ensures forall i :: 0 <= i < |Missing(updates, seen).value| ==> (0 as char) !in Missing(updates, seen).value[i]
  {
    if updates != [] {
      var k := |updates| - 1;
      MissingHas(updates[..k], seen);
      if updates[k].key !in seen {
        KeyHasNoNul(updates[k].key);
        QuotedHas(updates[k], 0 as char);
      }
      hide QuoteValue, AssignmentLine, IsKey;
    }
  }

  lemma KeyHasNoNul(key: string)
    requires IsKey(key)
    ensures (0 as char) !in key
  {
    forall i | 0 <= i < |key| ensures key[i] != 0 as char {
      assert IsKeyChar(key[i]);
    }
  }

  lemma RewrittenHas(line: string, updates: seq<Update>)
    requires (0 as char) !in line && ValuesHaveNoNul(updates)
    ensures (0 as char) !in RewrittenLine(line, updates)
  {
    var a := ReadAssignment(line);
    if a.Some? && Updated(updates, a.value.key) && QuotedOf(updates, a.value.key).Ok? {
      KeyHasNoNul(a.value.key);
      QuotedHas(updates[FindUpdate(updates, a.value.key)], 0 as char);
    }
  }

  lemma RenderedHasNoNul(text: string, updates: seq<Update>)
    requires KeysAreValid(updates) && ValuesHaveNoNul(updates) && RenderConfig(text, updates).Ok?
    ensures (0 as char) !in RenderConfig(text, updates).value
  {
    var lines := SplitLines(text);
    var p := RenderPrefix(lines, updates).value;
    var rendered := RenderedLines(lines, updates).value;
    hide SplitLines, RenderPrefix, Missing, RewrittenLine, JoinLines, KeysAreValid, ValuesHaveNoNul;
    SplitHas(text, 0 as char);
    PrefixLaw(lines, updates);
    forall i | 0 <= i < |lines| ensures (0 as char) !in p.rendered[i] {
      RewrittenHas(lines[i], updates);
    }
    MissingHas(updates, p.seen);
    JoinHas(rendered, 0 as char);
  }

  lemma {:induction false} JoinEnds(lines: seq<string>)
    requires lines != []
    ensures JoinLines(lines) != "" && JoinLines(lines)[|JoinLines(lines)| - 1] == NEWLINE
  {
    if |lines| > 1 {
      JoinEnds(lines[1..]);
    } else {
      assert lines[1..] == [];
    }
  }

  lemma RenderedIsSettled(lines: seq<string>, updates: seq<Update>)
    requires KeysAreValid(updates) && RenderedLines(lines, updates).Ok?
    ensures Settled(RenderedLines(lines, updates).value, updates)
  {
    hide RenderedLines, QuoteValue, Raws, KeysAreValid;
    var rendered := RenderedLines(lines, updates).value;
    forall i | 0 <= i < |updates|
      ensures QuoteValue(updates[i].value).Ok? && Raws(rendered, updates[i].key) == [QuoteValue(updates[i].value).value]
    {
      RenderedRaws(lines, updates, updates[i].key);
      UpdatedAt(updates, i);
    }
  }

  lemma RenderedIsNotEmpty(text: string, updates: seq<Update>)
    requires text != "" && RenderedLines(SplitLines(text), updates).Ok?
    ensures RenderedLines(SplitLines(text), updates).value != []
  {
    hide RenderPrefix, Missing, RewrittenLine;
    PrefixLaw(SplitLines(text), updates);
  }

  /** Rewriting the result again changes nothing. */
  lemma RewritingIsIdempotent(text: string, updates: seq<Update>)
    requires KeysAreValid(updates) && ValuesAreLines(updates) && ValuesHaveNoNul(updates)
             && RenderConfig(text, updates).Ok?
    ensures RenderConfig(RenderConfig(text, updates).value, updates) == RenderConfig(text, updates)
  {
    var rendered := RenderedLines(SplitLines(text), updates).value;
    RenderedSplits(text, updates);
    RenderedHasNoNul(text, updates);
    RenderedIsNotEmpty(text, updates);
    RenderedIsSettled(SplitLines(text), updates);
    hide SplitLines, RenderedLines, JoinLines, ValuesAreLines, ValuesHaveNoNul, KeysAreValid, Settled;
    JoinEnds(rendered);
    SettledStays(rendered, updates);
  }

  // -------------------------------------------------------------- runtime

  /** A known key, a value free of control characters and, once quoted, a line that fits. */
  predicate RuntimeTakes(u: Update) {
    && IsKey(u.key) && IsKnownKey(u.key) && !HasControl(u.value)
    && (QuoteValue(u.value).Ok? ==> |AssignmentLine(u.key, QuoteValue(u.value).value)| <= MAX_RUNTIME_LINE)
  }

  predicate AllTaken(updates: seq<Update>) {
    forall i :: 0 <= i < |updates| ==> RuntimeTakes(updates[i])
  }

  lemma NoControlAppend(a: string, b: string)
    requires !HasControl(a) && !HasControl(b)
    ensures !HasControl(a + b)
  {
  }

  lemma SignsHaveNoControl()
    ensures !HasControl("=") && !HasControl("\"")
  {
  }

  lemma ControlFree(key: string, value: string)
    requires IsKey(key) && !HasControl(value) && QuoteValue(value).Ok?
    ensures !HasControl(AssignmentLine(key, QuoteValue(value).value))
  {
    hide HasControl;
    KeysHaveNoSign(key);
    SignsHaveNoControl();
    NoControlAppend("\"", value);
    NoControlAppend("\"" + value, "\"");
    var q := QuoteValue(value).value;
    NoControlAppend(key, "=");
    NoControlAppend(key + "=", q);
  }

  /** The runtime takes an updated key's line and reads the update's value from it. */
  lemma RuntimeTakesUpdate(parsed: map<string, string>, u: Update)
    requires RuntimeTakes(u) && QuoteValue(u.value).Ok? && u.key !in parsed
    ensures RuntimeLine(parsed, AssignmentLine(u.key, QuoteValue(u.value).value)) == Ok(parsed[u.key := u.value])
  {
    var line := AssignmentLine(u.key, QuoteValue(u.value).value);
    ControlFree(u.key, u.value);
    AssignmentReads(u.key, QuoteValue(u.value).value);
    RuntimeReadsQuoted(u.value);
    KeysHaveNoSign(u.key);
    assert line != "" && line[0] == u.key[0];
    hide ReadAssignment, QuoteValue, AssignmentLine, RuntimeValue, IsKnownKey, HasControl, IsKey;
  }

  /** The runtime's settings with the updates in place of the values they replace. */
  function Replaced(parsed: map<string, string>, updates: seq<Update>): map<string, string> {
    map key | key in parsed :: if Updated(updates, key) then updates[FindUpdate(updates, key)].value else parsed[key]
  }

  lemma ReplacedPut(parsed: map<string, string>, updates: seq<Update>, key: string, value: string)
    ensures Replaced(parsed[key := value], updates)
            == Replaced(parsed, updates)[
                 key := if Updated(updates, key) then updates[FindUpdate(updates, key)].value else value]
    ensures key in Replaced(parsed, updates) <==> key in parsed
  {
    hide FindUpdate;
  }

  lemma RuntimeAssignment(parsed: map<string, string>, line: string)
    requires RuntimeLine(parsed, line).Ok? && ReadAssignment(line).Some?
    ensures var a := ReadAssignment(line).value;
            && IsKey(a.key) && a.key !in parsed && RuntimeValue(a.raw).Ok?
            && RuntimeLine(parsed, line) == Ok(parsed[a.key := RuntimeValue(a.raw).value])
    ensures forall other: map<string, string> :: ReadAssignment(line).value.key !in other ==>
              RuntimeLine(other, line)
              == Ok(other[ReadAssignment(line).value.key := RuntimeValue(ReadAssignment(line).value.raw).value])
  {
    var a := ReadAssignment(line).value;
    AssignmentIsLine(line);
    assert IsKey(a.key);
    KeysHaveNoSign(a.key);
    assert line != "" && line[0] == a.key[0];
    hide ReadAssignment, RuntimeValue, IsKnownKey, HasControl, IsKey, AssignmentLine;
  }

  lemma RuntimeSkips(parsed: map<string, string>, other: map<string, string>, line: string)
    requires RuntimeLine(parsed, line).Ok? && ReadAssignment(line).None?
    ensures RuntimeLine(parsed, line) == Ok(parsed) && RuntimeLine(other, line) == Ok(other)
  {
    hide ReadAssignment, RuntimeValue, IsKnownKey, HasControl, IsKey;
  }

  lemma RuntimeRewrites(parsed: map<string, string>, line: string, updates: seq<Update>)
    requires RuntimeLine(parsed, line).Ok? && AllTaken(updates)
    requires var a := ReadAssignment(line);
             a.Some? && Updated(updates, a.value.key) ==> QuotedOf(updates, a.value.key).Ok?
    ensures RuntimeLine(Replaced(parsed, updates), RewrittenLine(line, updates))
            == Ok(Replaced(RuntimeLine(parsed, line).value, updates))
  {
    hide ReadAssignment, QuoteValue, AssignmentLine, RuntimeLine, RuntimeTakes, IsKey, Replaced;
    var a := ReadAssignment(line);
    if a.None? {
      RuntimeSkips(parsed, Replaced(parsed, updates), line);
    } else {
      RuntimeAssignment(parsed, line);
      ReplacedPut(parsed, updates, a.value.key, RuntimeValue(a.value.raw).value);
      if Updated(updates, a.value.key) {
        RuntimeTakesUpdate(Replaced(parsed, updates), updates[FindUpdate(updates, a.value.key)]);
      }
    }
  }

  /** Rewritten line by line, an accepted file stays accepted with exactly the replaced values. */
  lemma {:induction false} RuntimeRewritesPrefix(lines: seq<string>, updates: seq<Update>, rendered: seq<string>)
    requires RuntimeLines(lines).Ok? && AllTaken(updates)
    requires |rendered| == |lines| && forall i :: 0 <= i < |lines| ==> rendered[i] == RewrittenLine(lines[i], updates)
    requires forall key :: Updated(updates, key) && Raws(lines, key) != [] ==> QuotedOf(updates, key).Ok?
    ensures RuntimeLines(rendered) == Ok(Replaced(RuntimeLines(lines).value, updates))
    decreases |lines|
  {
    hide ReadAssignment, QuoteValue, RewrittenLine, RuntimeLine, AllTaken, QuotedOf, Updated;
    if lines == [] {
      assert Replaced(map[], updates) == map[];
    } else {
      var k := |lines| - 1;
      forall key | Updated(updates, key) && Raws(lines[..k], key) != [] ensures QuotedOf(updates, key).Ok? {
        assert Raws(lines, key) != [];
      }
      RuntimeRewritesPrefix(lines[..k], updates, rendered[..k]);
      var a := ReadAssignment(lines[k]);
      assert a.Some? ==> Raws(lines, a.value.key) != [];
      RuntimeRewrites(RuntimeLines(lines[..k]).value, lines[k], updates);
    }
  }

  lemma RuntimeLineKeys(parsed: map<string, string>, line: string, key: string)
    requires RuntimeLine(parsed, line).Ok?
    ensures key in RuntimeLine(parsed, line).value <==>
            key in parsed || (ReadAssignment(line).Some? && ReadAssignment(line).value.key == key)
  {
    var a := ReadAssignment(line);
    if a.Some? {
      AssignmentIsLine(line);
      KeysHaveNoSign(a.value.key);
      assert line[0] == a.value.key[0];
    }
    hide ReadAssignment, RuntimeValue, IsKnownKey, HasControl, IsKey;
  }

  lemma {:induction false} RuntimeKeys(lines: seq<string>, key: string)
    requires RuntimeLines(lines).Ok?
    ensures key in RuntimeLines(lines).value <==> Raws(lines, key) != []
  {
    hide ReadAssignment, RuntimeLine;
    if lines != [] {
      var k := |lines| - 1;
      RuntimeKeys(lines[..k], key);
      RuntimeLineKeys(RuntimeLines(lines[..k]).value, lines[k], key);
    }
  }

  function WithUpdates(parsed: map<string, string>, updates: seq<Update>, seen: set<string>): map<string, string> {
    if updates == [] then parsed
    else
      var k := |updates| - 1;
      var front := WithUpdates(parsed, updates[..k], seen);
      if updates[k].key in seen then front else front[updates[k].key := updates[k].value]
  }

  lemma {:induction false} WithUpdatesKeys(parsed: map<string, string>, updates: seq<Update>, seen: set<string>,
                                           key: string)
    ensures key in WithUpdates(parsed, updates, seen) <==>
            key in parsed || exists i :: 0 <= i < |updates| && updates[i].key == key && key !in seen
  {
    if updates != [] {
      var k := |updates| - 1;
      WithUpdatesKeys(parsed, updates[..k], seen, key);
      if exists i :: 0 <= i < |updates| && updates[i].key == key && key !in seen {
        var i :| 0 <= i < |updates| && updates[i].key == key && key !in seen;
        assert i < k ==> updates[..k][i].key == key;
      }
      if exists i :: 0 <= i < k && updates[..k][i].key == key && key !in seen {
        var i :| 0 <= i < k && updates[..k][i].key == key && key !in seen;
        assert updates[i].key == key;
      }
    }
  }

  lemma RuntimeSnoc(lines: seq<string>, line: string)
    requires RuntimeLines(lines).Ok?
    ensures RuntimeLines(lines + [line]) == RuntimeLine(RuntimeLines(lines).value, line)
  {
    hide RuntimeLine;
    assert (lines + [line])[..|lines|] == lines;
  }

  /** The appended lines add the remaining updates. */
  lemma {:induction false} RuntimeAddsMissing(lines: seq<string>, updates: seq<Update>, seen: set<string>)
    requires RuntimeLines(lines).Ok? && Missing(updates, seen).Ok? && AllTaken(updates) && KeysAreValid(updates)
    requires forall i :: 0 <= i < |updates| && updates[i].key !in seen ==> updates[i].key !in RuntimeLines(lines).value
    ensures RuntimeLines(lines + Missing(updates, seen).value)
            == Ok(WithUpdates(RuntimeLines(lines).value, updates, seen))
  {
    if updates == [] {
      assert lines + [] == lines;
    } else {
      hide RuntimeLine, RuntimeLines, QuoteValue, AssignmentLine, RuntimeTakes, IsKey;
      var k := |updates| - 1;
      RuntimeAddsMissing(lines, updates[..k], seen);
      var front := lines + Missing(updates[..k], seen).value;
      var parsed := WithUpdates(RuntimeLines(lines).value, updates[..k], seen);
      var u := updates[k];
      if u.key !in seen {
        WithUpdatesKeys(RuntimeLines(lines).value, updates[..k], seen, u.key);
        RuntimeTakesUpdate(parsed, u);
        var line := AssignmentLine(u.key, QuoteValue(u.value).value);
        RuntimeSnoc(front, line);
        assert lines + Missing(updates, seen).value == front + [line];
      }
    }
  }

  /** The settings a rewritten file gives the runtime. */
  lemma RuntimeRendered(lines: seq<string>, updates: seq<Update>, key: string)
    requires RuntimeLines(lines).Ok? && RenderedLines(lines, updates).Ok? && AllTaken(updates) && KeysAreValid(updates)
    ensures RuntimeLines(RenderedLines(lines, updates).value).Ok?
    ensures var was, now := RuntimeLines(lines).value, RuntimeLines(RenderedLines(lines, updates).value).value;
            if Updated(updates, key) then key in now && now[key] == updates[FindUpdate(updates, key)].value
            else (key in now <==> key in was) && (key in was ==> now[key] == was[key])
  {
    var p := RenderPrefix(lines, updates).value;
    hide RenderPrefix, RewrittenLine, QuoteValue, RuntimeLines, Missing, RuntimeTakes, IsKey, Raws;
    PrefixLaw(lines, updates);
    RuntimeRewritesPrefix(lines, updates, p.rendered);
    var was := RuntimeLines(lines).value;
    var mid := Replaced(was, updates);
    forall i | 0 <= i < |updates| && updates[i].key !in p.seen ensures updates[i].key !in mid {
      UpdatedAt(updates, i);
      RuntimeKeys(lines, updates[i].key);
    }
    RuntimeAddsMissing(p.rendered, updates, p.seen);
    RuntimeKeys(lines, key);
    WithUpdatesGives(mid, updates, p.seen, key);
  }

  lemma {:induction false} WithUpdatesGives(parsed: map<string, string>, updates: seq<Update>, seen: set<string>,
                                            key: string)
    requires KeysAreValid(updates)
    ensures var now := WithUpdates(parsed, updates, seen);
            if Updated(updates, key) && key !in seen
            then key in now && now[key] == updates[FindUpdate(updates, key)].value
            else (key in now <==> key in parsed) && (key in parsed ==> now[key] == parsed[key])
  {
    hide IsKey;
    if updates != [] {
      var k := |updates| - 1;
      WithUpdatesGives(parsed, updates[..k], seen, key);
      FindInSnoc(updates, key);
    }
  }

  lemma FindInSnoc(updates: seq<Update>, key: string)
    requires updates != []
    ensures var k := |updates| - 1;
            var front := FindUpdate(updates[..k], key);
            FindUpdate(updates, key) == if front < k then front else if updates[k].key == key then k else k + 1
  {
    var k := |updates| - 1;
    var at := FindUpdate(updates, key);
    var front := FindUpdate(updates[..k], key);
    assert front < k ==> updates[..k][front] == updates[front];
    assert at < k ==> updates[..k][at] == updates[at];
  }

  /** A file the runtime accepts is still accepted after a rewrite, with every update and every other setting. */
  lemma RuntimeReadsUpdates(text: string, updates: seq<Update>, key: string)
    requires RuntimeParse(text).Ok? && RenderConfig(text, updates).Ok? && AllTaken(updates) && KeysAreValid(updates)
    ensures RuntimeParse(RenderConfig(text, updates).value).Ok?
    ensures var was, now := RuntimeParse(text).value, RuntimeParse(RenderConfig(text, updates).value).value;
            if Updated(updates, key) then key in now && now[key] == updates[FindUpdate(updates, key)].value
            else (key in now <==> key in was) && (key in was ==> now[key] == was[key])
  {
    var lines := Lines(text);
    AcceptedHasNoReturn(text);
    SameLines(text);
    TakenValuesAreLines(updates);
    RenderedSplits(text, updates);
    RenderedHasNoNul(text, updates);
    var result := RenderConfig(text, updates).value;
    RenderedHasNoReturn(text, updates);
    SameLines(result);
    RuntimeRendered(lines, updates, key);
    hide SplitLines, Lines, RenderedLines, JoinLines, RuntimeLines, KeysAreValid, RuntimeTakes;
  }

  lemma TakenValuesAreLines(updates: seq<Update>)
    requires AllTaken(updates)
    ensures ValuesAreLines(updates) && ValuesHaveNoNul(updates)
  {
    forall i | 0 <= i < |updates| ensures IsLine(updates[i].value) && (0 as char) !in updates[i].value {
      assert RuntimeTakes(updates[i]);
      var v := updates[i].value;
      assert forall j :: 0 <= j < |v| ==> !IsControl(v[j]);
    }
  }

  lemma RenderedHasNoReturn(text: string, updates: seq<Update>)
    requires KeysAreValid(updates) && ValuesAreLines(updates) && RenderConfig(text, updates).Ok?
    ensures '\r' !in RenderConfig(text, updates).value
  {
    var rendered := RenderedLines(SplitLines(text), updates).value;
    hide SplitLines, RenderedLines, JoinLines, KeysAreValid, ValuesAreLines;
    SplitIsLines(text);
    RenderedAreLines(SplitLines(text), updates);
    forall i | 0 <= i < |rendered| ensures '\r' !in rendered[i] {
      assert IsLine(rendered[i]);
    }
    JoinHas(rendered, '\r');
  }

  // ------------------------------------------------ what the runtime takes

  lemma {:induction false} AcceptedLines(lines: seq<string>, i: nat)
    requires RuntimeLines(lines).Ok? && i < |lines|
    ensures |lines[i]| <= MAX_RUNTIME_LINE && !HasControl(lines[i])
  {
    hide ReadAssignment, HasControl, IsKnownKey, RuntimeValue;
    if i < |lines| - 1 {
      AcceptedLines(lines[..|lines| - 1], i);
    }
  }

  lemma ReturnIsControl(line: string, at: nat)
    requires at < |line| && line[at] == '\r'
    ensures HasControl(line)
  {
    assert IsControl('\r');
  }

  lemma {:induction false} ReturnIsInALine(text: string)
    requires '\r' in text
    ensures exists i :: 0 <= i < |Lines(text)| && HasControl(Lines(text)[i])
    decreases |text|
  {
    hide HasControl;
    var k := IndexOf(text, NEWLINE);
    hide IndexOf;
    var at :| 0 <= at < |text| && text[at] == '\r';
    if at < k {
      ReturnIsControl(text[..k], at);
      assert Lines(text)[0] == text[..k];
    } else {
      var rest := text[k + 1..];
      assert k < at && rest[at - k - 1] == '\r';
      assert Lines(text) == [text[..k]] + Lines(rest);
      hide Lines;
      ReturnIsInALine(rest);
      var i :| 0 <= i < |Lines(rest)| && HasControl(Lines(rest)[i]);
      assert Lines(text)[i + 1] == Lines(rest)[i];
    }
  }

  /** A file the runtime accepts has no carriage return. */
  lemma AcceptedHasNoReturn(text: string)
    requires RuntimeParse(text).Ok?
    ensures '\r' !in text
  {
    hide Lines, RuntimeLines, HasControl;
    if '\r' in text {
      ReturnIsInALine(text);
      var i :| 0 <= i < |Lines(text)| && HasControl(Lines(text)[i]);
      AcceptedLines(Lines(text), i);
    }
  }

  lemma RawHasNoControl(key: string, raw: string)
    requires !HasControl(AssignmentLine(key, raw)) && RuntimeValue(raw).Ok?
    ensures !HasControl(RuntimeValue(raw).value)
  {
    var line, value := AssignmentLine(key, raw), RuntimeValue(raw).value;
    var skip := |key| + 1 + if value == raw then 0 else 1;
    forall i | 0 <= i < |value| ensures !IsControl(value[i]) {
      assert line[skip + i] == value[i];
    }
  }

  /** Every setting the runtime reads has a known key and a value free of control characters. */
  lemma {:induction false} SettingsAreClean(lines: seq<string>, key: string)
    requires RuntimeLines(lines).Ok? && key in RuntimeLines(lines).value
    ensures IsKnownKey(key) && !HasControl(RuntimeLines(lines).value[key])
  {
    hide ReadAssignment, RuntimeValue, IsKnownKey, HasControl, AssignmentLine;
    var k := |lines| - 1;
    var parsed := RuntimeLines(lines[..k]).value;
    if key in parsed {
      SettingsAreClean(lines[..k], key);
    }
    var a := ReadAssignment(lines[k]);
    if a.Some? {
      AssignmentIsLine(lines[k]);
      if RuntimeValue(a.value.raw).Ok? && !HasControl(lines[k]) {
        RawHasNoControl(a.value.key, a.value.raw);
      }
    }
  }

  /** An assigned value stands on a line of its own. */
  lemma {:induction false} RawIsOnALine(lines: seq<string>, key: string)
    requires Raws(lines, key) != []
    ensures exists i :: 0 <= i < |lines| && lines[i] == AssignmentLine(key, Raws(lines, key)[0])
  {
    hide ReadAssignment;
    var k := |lines| - 1;
    if Raws(lines[..k], key) != [] {
      RawIsOnALine(lines[..k], key);
      var i :| 0 <= i < k && lines[..k][i] == AssignmentLine(key, Raws(lines[..k], key)[0]);
      assert lines[i] == AssignmentLine(key, Raws(lines, key)[0]);
    } else {
      AssignmentIsLine(lines[k]);
    }
  }

  /** The runtime accepts a file and reads every update from it. */
  ghost predicate RuntimeReadsAll(text: string, updates: seq<Update>) {
    && RuntimeParse(text).Ok?
    && forall i :: 0 <= i < |updates| ==>
         updates[i].key in RuntimeParse(text).value && RuntimeParse(text).value[updates[i].key] == updates[i].value
  }

  /** Updates that read back have known keys and values free of control characters. */
  lemma ReadUpdatesAreClean(text: string, updates: seq<Update>)
    requires RuntimeReadsAll(text, updates)
    ensures forall i :: 0 <= i < |updates| ==> IsKnownKey(updates[i].key) && !HasControl(updates[i].value)
  {
    hide Lines, RuntimeLines, IsKnownKey, HasControl;
    forall i | 0 <= i < |updates| ensures IsKnownKey(updates[i].key) && !HasControl(updates[i].value) {
      SettingsAreClean(Lines(text), updates[i].key);
    }
  }

  lemma CleanIsLine(value: string)
    requires !HasControl(value)
    ensures IsLine(value)
  {
    forall i | 0 <= i < |value| ensures !IsBreak(value[i]) {
      assert !IsControl(value[i]);
    }
  }

  /** Their lines fit. */
  lemma ReadLinesFit(text: string, updates: seq<Update>, i: nat)
    requires KeysAreValid(updates) && ValuesAreLines(updates) && RenderConfig(text, updates).Ok? && i < |updates|
    requires RuntimeParse(RenderConfig(text, updates).value).Ok?
    ensures QuoteValue(updates[i].value).Ok?
    ensures |AssignmentLine(updates[i].key, QuoteValue(updates[i].value).value)| <= MAX_RUNTIME_LINE
  {
    var result := RenderConfig(text, updates).value;
    var rendered := RenderedLines(SplitLines(text), updates).value;
    hide SplitLines, Lines, RenderedLines, JoinLines, RuntimeLines, KeysAreValid, ValuesAreLines, Raws, QuoteValue,
      AssignmentLine;
    AcceptedHasNoReturn(result);
    RenderedSplits(text, updates);
    SameLines(result);
    FoundAt(updates, i, updates[i].key);
    RenderedRaws(SplitLines(text), updates, updates[i].key);
    RawIsOnALine(rendered, updates[i].key);
    var k :| 0 <= k < |rendered| && rendered[k] == AssignmentLine(updates[i].key, Raws(rendered, updates[i].key)[0]);
    AcceptedLines(rendered, k);
  }

  /** After any rewrite of a file it accepts, the runtime accepts the result and reads every update from it if and only
      if each key is one it knows, each value is free of control characters, and each line, quotes included, fits. */
  lemma RuntimeReadsUpdatesExactly(text: string, updates: seq<Update>)
    requires RuntimeParse(text).Ok? && RenderConfig(text, updates).Ok? && KeysAreValid(updates)
    ensures RuntimeReadsAll(RenderConfig(text, updates).value, updates) <==> AllTaken(updates)
  {
    var result := RenderConfig(text, updates).value;
    hide RuntimeParse, RenderConfig, HasControl, IsKnownKey, QuoteValue, AssignmentLine;
    if AllTaken(updates) {
      RuntimeReadsUpdates(text, updates, "");
      forall i | 0 <= i < |updates|
        ensures updates[i].key in RuntimeParse(result).value
        ensures RuntimeParse(result).value[updates[i].key] == updates[i].value
      {
        RuntimeReadsUpdates(text, updates, updates[i].key);
        FoundAt(updates, i, updates[i].key);
      }
    }
    if RuntimeReadsAll(result, updates) {
      ReadUpdatesAreClean(result, updates);
      forall i | 0 <= i < |updates| ensures IsLine(updates[i].value) {
        CleanIsLine(updates[i].value);
      }
      forall i | 0 <= i < |updates| ensures RuntimeTakes(updates[i]) {
        ReadLinesFit(text, updates, i);
      }
    }
  }

  // --------------------------------------------------- what setup writes

  predicate IsAlnum(c: char) {
    'A' <= c <= 'Z' || 'a' <= c <= 'z' || '0' <= c <= '9'
  }

  /** `DEVICE_PATTERN`. */
  predicate IsDevice(s: string) {
    && 1 <= |s| <= 64 && IsAlnum(s[0])
    && forall i :: 0 <= i < |s| ==> IsAlnum(s[i]) || s[i] in {' ', '.', '_', '-'}
  }

  /** Up to 32 two-letter codes with one space between, or nothing for every country. */
  predicate IsCountries(s: string) {
    && |s| <= 95 && (s != "" ==> |s| % 3 == 2)
    && forall i :: 0 <= i < |s| ==> if i % 3 == 2 then s[i] == ' ' else 'A' <= s[i] <= 'Z'
  }

  function ApiUpdates(source: string, device: string, countries: string): seq<Update> {
    [Update("AIRVPN_PROFILE_SOURCE", source), Update("AIRVPN_DEVICE", device), Update("AIRVPN_COUNTRIES", countries)]
  }

  const STATIC_UPDATES: seq<Update> := [Update("AIRVPN_PROFILE_SOURCE", "static")]

  predicate IsPlainValue(s: string) {
    |s| <= 95 && forall i :: 0 <= i < |s| ==> IsAlnum(s[i]) || s[i] in {' ', '.', '_', '-'}
  }

  lemma PlainIsTaken(key: string, value: string)
    requires IsKey(key) && IsKnownKey(key) && |key| <= 40 && IsPlainValue(value)
    ensures RuntimeTakes(Update(key, value)) && QuoteValue(value).Ok? && IsLine(value)
  {
    forall i | 0 <= i < |value|
      ensures !IsControl(value[i]) && !IsAmbiguous(value[i]) && value[i] as int < 128 && !IsBreak(value[i])
    {
      assert IsAlnum(value[i]) || value[i] in {' ', '.', '_', '-'};
    }
    assert |AssignmentLine(key, QuoteValue(value).value)| <= |key| + |value| + 3;
    hide IsKey, IsKnownKey;
  }

  lemma SourceKeyIsKnown()
    ensures IsKey("AIRVPN_PROFILE_SOURCE") && IsKnownKey("AIRVPN_PROFILE_SOURCE")
  {
  }

  lemma DeviceKeyIsKnown()
    ensures IsKey("AIRVPN_DEVICE") && IsKnownKey("AIRVPN_DEVICE")
  {
  }

  lemma CountriesKeyIsKnown()
    ensures IsKey("AIRVPN_COUNTRIES") && IsKnownKey("AIRVPN_COUNTRIES")
  {
  }

  /** The updates setup itself makes: a source, a valid device and a valid country list. */
  ghost predicate OwnUpdates(updates: seq<Update>) {
    updates == STATIC_UPDATES
    || exists source, device, countries ::
         && source in {"static", "api"} && IsDevice(device) && IsCountries(countries)
         && updates == ApiUpdates(source, device, countries)
  }

  /** Setup's own updates meet every condition: both readers always read them back from any file the runtime accepts. */
  lemma OwnUpdatesReadBack(text: string, updates: seq<Update>)
    requires OwnUpdates(updates) && RuntimeParse(text).Ok? && RenderConfig(text, updates).Ok?
    ensures RuntimeReadsAll(RenderConfig(text, updates).value, updates)
    ensures forall i :: 0 <= i < |updates| ==>
              ConfigValue(RenderConfig(text, updates).value, updates[i].key) == Ok(Some(updates[i].value))
  {
    OwnUpdatesAreTaken(updates);
    RuntimeReadsUpdatesExactly(text, updates);
    UpdatesReadBackExactly(text, updates);
    hide OwnUpdates, RuntimeParse, RenderConfig, KeysAreValid, AllTaken, ValuesAreLines, ConfigValue, RuntimeReadsAll;
  }

  lemma OwnUpdatesAreTaken(updates: seq<Update>)
    requires OwnUpdates(updates)
    ensures KeysAreValid(updates) && AllTaken(updates) && ValuesAreLines(updates)
  {
    hide RuntimeTakes, IsKnownKey, IsKey, IsLine, IsDevice, IsCountries;
    SourcesArePlain();
    if updates == STATIC_UPDATES {
      SourceKeyIsKnown();
      PlainIsTaken("AIRVPN_PROFILE_SOURCE", "static");
    } else {
      var source, device, countries :|
        && source in {"static", "api"} && IsDevice(device) && IsCountries(countries)
        && updates == ApiUpdates(source, device, countries);
      CountriesArePlain(countries);
      DeviceIsPlain(device);
      hide IsPlainValue;
      ApiUpdatesAreTaken(source, device, countries);
    }
  }

  lemma ApiUpdatesAreTaken(source: string, device: string, countries: string)
    requires IsPlainValue(source) && IsPlainValue(device) && IsPlainValue(countries)
    ensures var updates := ApiUpdates(source, device, countries);
            KeysAreValid(updates) && AllTaken(updates) && ValuesAreLines(updates)
  {
    hide RuntimeTakes, IsKnownKey, IsKey, IsLine, IsPlainValue;
    SourceKeyIsKnown();
    DeviceKeyIsKnown();
    CountriesKeyIsKnown();
    PlainIsTaken("AIRVPN_PROFILE_SOURCE", source);
    PlainIsTaken("AIRVPN_DEVICE", device);
    PlainIsTaken("AIRVPN_COUNTRIES", countries);
    assert |"AIRVPN_PROFILE_SOURCE"| == 21 && |"AIRVPN_DEVICE"| == 13 && |"AIRVPN_COUNTRIES"| == 16;
  }

  lemma DeviceIsPlain(device: string)
    requires IsDevice(device)
    ensures IsPlainValue(device)
  {
  }

  lemma SourcesArePlain()
    ensures IsPlainValue("static") && IsPlainValue("api")
  {
  }

  lemma CountriesArePlain(countries: string)
    requires IsCountries(countries)
    ensures IsPlainValue(countries)
  {
  }
}
