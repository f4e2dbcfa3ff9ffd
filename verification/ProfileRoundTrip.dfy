/** Rendered profiles parse back, and pinned ones keep the installed identity and hooks. */
module ProfileRoundTrip {
  import opened Wrappers
  import opened Text
  import opened ProfileFormat
  import Key = WireGuardKey

  // ---------------------------------------------------------------- sizes

  lemma {:induction false} SizeAppend(a: string, b: string)
    ensures Size(a + b) == Size(a) + Size(b)
  {
    if a == "" {
      assert a + b == b;
    } else {
      SizeAppend(a[1..], b);
      assert (a + b)[1..] == a[1..] + b;
    }
  }

  lemma SizeOfNewline()
    ensures Size([NEWLINE]) == 1
  {
    assert [NEWLINE][1..] == "";
  }

  lemma {:induction false} SizeOfJoin(lines: seq<string>)
    ensures Size(JoinLines(lines)) == LinesSize(lines)
  {
    if lines != [] {
      SizeOfJoin(lines[1..]);
      SizeAppend(lines[0] + [NEWLINE], JoinLines(lines[1..]));
      SizeAppend(lines[0], [NEWLINE]);
      SizeOfNewline();
    }
  }

  lemma {:induction false} LinesSizeAppend(a: seq<string>, b: seq<string>)
    ensures LinesSize(a + b) == LinesSize(a) + LinesSize(b)
  {
    if a == [] {
      assert a + b == b;
    } else {
      LinesSizeAppend(a[1..], b);
      assert (a + b)[1..] == a[1..] + b;
    }
  }

  lemma {:induction false} LinesSizeBound(lines: seq<string>)
    requires forall i :: 0 <= i < |lines| ==> Size(lines[i]) <= MAX_LINE_BYTES
    ensures LinesSize(lines) <= |lines| * 1025
  {
    if lines != [] {
      LinesSizeBound(lines[1..]);
    }
  }

  predicate IsAscii(s: string) {
    forall i :: 0 <= i < |s| ==> ' ' <= s[i] <= '~'
  }

  lemma {:induction false} AsciiSize(s: string)
    requires IsAscii(s)
    ensures Size(s) == |s|
  {
    if s != "" {
      AsciiSize(s[1..]);
    }
  }

  // ---------------------------------------------------------------- lines

  predicate LineFits(f: Formats, line: string) {
    Size(line) <= MAX_LINE_BYTES && forall i :: 0 <= i < |line| ==> f.printable(line[i])
  }

  predicate LinesFit(f: Formats, lines: seq<string>) {
    forall i :: 0 <= i < |lines| ==> LineFits(f, lines[i])
  }

  lemma PrintableIsClean(f: Formats, c: char)
    requires Sane(f) && f.printable(c)
    ensures c != NEWLINE && c != '\r' && !IsControl(c)
  {
  }

  lemma AsciiFits(f: Formats, s: string)
    requires Sane(f) && IsAscii(s) && |s| <= MAX_LINE_BYTES
    ensures LineFits(f, s)
  {
    AsciiSize(s);
    forall i | 0 <= i < |s| ensures f.printable(s[i]) {
      assert s[i] as int < 128;
    }
  }

  lemma {:induction false} NoReturnsToDrop(s: string)
    requires '\r' !in s
    ensures DropReturns(s) == s
  {
    if s != "" {
      NoReturnsToDrop(s[1..]);
    }
  }

  predicate Clean(c: char) {
    c == NEWLINE || (c != '\r' && !IsControl(c))
  }

  lemma {:induction false} JoinIsClean(f: Formats, lines: seq<string>)
    requires Sane(f) && LinesFit(f, lines)
    ensures forall i :: 0 <= i < |JoinLines(lines)| ==> Clean(JoinLines(lines)[i])
    ensures AllSingleLines(lines)
  {
    if lines != [] {
      JoinIsClean(f, lines[1..]);
      assert LineFits(f, lines[0]);
      var head, rest := lines[0] + [NEWLINE], JoinLines(lines[1..]);
      forall i | 0 <= i < |head| ensures Clean(head[i]) {
        if i < |lines[0]| {
          PrintableIsClean(f, lines[0][i]);
        }
      }
      assert SingleLine(lines[0]) by {
        forall i | 0 <= i < |lines[0]| ensures lines[0][i] != NEWLINE {
          PrintableIsClean(f, lines[0][i]);
        }
      }
      assert JoinLines(lines) == head + rest;
      assert lines == [lines[0]] + lines[1..];
    }
  }

  lemma CleanHasNoControl(s: string)
    requires forall i :: 0 <= i < |s| ==> Clean(s[i])
    ensures !HasControl(s) && '\r' !in s
  {
    forall i | 0 <= i < |s| ensures !IsControl(s[i]) && s[i] != '\r' {
      assert Clean(s[i]);
    }
  }

  lemma FittingLines(f: Formats, lines: seq<string>)
    requires LinesFit(f, lines)
    ensures !HasLongLine(lines) && !HasUnprintable(f, lines)
  {
    forall i | 0 <= i < |lines| ensures LineFits(f, lines[i]) {
    }
  }

  lemma JoinIsNotEmpty(lines: seq<string>)
    requires lines != []
    ensures JoinLines(lines) != ""
  {
  }

  /** Joined fitting lines are read back as they are. */
  lemma LinesReadBack(f: Formats, lines: seq<string>)
    requires Sane(f) && LinesFit(f, lines) && 0 < |lines| <= MAX_LINES && LinesSize(lines) <= MAX_BYTES
    ensures ProfileLines(f, JoinLines(lines)) == Ok(lines)
  {
    hide Sane, JoinLines, Lines, Clean, HasControl, HasLongLine, HasUnprintable, DropReturns, Size;
    var text := JoinLines(lines);
    JoinIsClean(f, lines);
    CleanHasNoControl(text);
    FittingLines(f, lines);
    NoReturnsToDrop(text);
    SizeOfJoin(lines);
    LinesOfJoin(lines);
    JoinIsNotEmpty(lines);
  }

  lemma TooLongIsRefused(f: Formats, lines: seq<string>, k: nat)
    requires k < |lines| && AllSingleLines(lines) && Size(lines[k]) > MAX_LINE_BYTES && '\r' !in JoinLines(lines)
    ensures ProfileLines(f, JoinLines(lines)).Err?
  {
    var text := JoinLines(lines);
    assert HasLongLine(lines);
    hide JoinLines, DropReturns, Lines, AllSingleLines, HasControl, HasLongLine, HasUnprintable, Size;
    NoReturnsToDrop(text);
    LinesOfJoin(lines);
    JoinIsNotEmpty(lines);
  }

  // ------------------------------------------------------------ stripping

  /** Text that begins and ends with something visible. */
  predicate Trimmed(s: string) {
    s != "" && s[0] != ' ' && s[|s| - 1] != ' '
  }

  lemma TrimmedStays(s: string)
    requires Trimmed(s)
    ensures Strip(s) == s && Strip(" " + s) == s && Strip(s + " ") == s
  {
    assert (" " + s)[1..] == s;
    assert (s + " ")[..|s|] == s;
    assert StripLeft(s + " ") == s + " ";
    assert StripLeft(" " + s) == s;
  }

  /** A field name as the format has them, and a value its line keeps. */
  predicate IsName(s: string) {
    Trimmed(s) && '=' !in s && s[0] != '#' && s[0] != '['
  }

  predicate IsValue(s: string) {
    Trimmed(s) && s[|s| - 1] != ']'
  }

  lemma AssignReads(name: string, value: string)
    requires IsName(name) && IsValue(value)
    ensures var line := Assign(name, value);
            && Trimmed(line) && '=' in line && line[0] == name[0] && line[|line| - 1] == value[|value| - 1]
            && NameOf(line) == name && ValueOf(line) == value
  {
    var line := Assign(name, value);
    var front, back := name + " ", " " + value;
    assert line == front + ['='] + back;
    assert '=' !in front;
    IndexOfPrefix(front, '=', back);
    assert line[..|front|] == front && line[|front| + 1..] == back;
    assert line[|front|] == '=';
    TrimmedStays(name);
    TrimmedStays(value);
  }

  lemma NoSection(t: string)
    requires t != "" && t[0] != '['
    ensures t != "[Interface]" && t != "[Peer]"
  {
  }

  lemma AssignIsRead(scan: Scan, name: string, value: string)
    requires IsName(name) && IsValue(value) && scan.stage != 0
    ensures ReadLine(scan, Assign(name, value)) == AddField(scan, name, value)
  {
    hide Strip, NameOf, ValueOf, AddField, Assign;
    AssignReads(name, value);
    var line := Assign(name, value);
    TrimmedStays(line);
    NoSection(line);
  }

  // --------------------------------------------------------------- folding

  lemma ReadFirst(scan: Scan, lines: seq<string>)
    requires lines != []
    ensures ReadLines(scan, lines)
            == if ReadLine(scan, lines[0]).Ok? then ReadLines(ReadLine(scan, lines[0]).value, lines[1..]) else Err
  {
    hide ReadLine;
  }

  lemma {:induction false} ReadAppend(scan: Scan, a: seq<string>, b: seq<string>)
    requires ReadLines(scan, a).Ok?
    ensures ReadLines(scan, a + b) == ReadLines(ReadLines(scan, a).value, b)
    decreases |a|
  {
    hide ReadLine;
    if a == [] {
      assert a + b == b;
    } else {
      ReadFirst(scan, a);
      ReadFirst(scan, a + b);
      hide ReadLines;
      assert (a + b)[1..] == a[1..] + b;
      ReadAppend(ReadLine(scan, a[0]).value, a[1..], b);
    }
  }

  predicate Fresh(fields: seq<(string, string)>, taken: map<string, string>) {
    && (forall i :: 0 <= i < |fields| ==> fields[i].0 !in taken)
    && (forall i, j :: 0 <= i < j < |fields| ==> fields[i].0 != fields[j].0)
  }

  function Collect(taken: map<string, string>, fields: seq<(string, string)>): map<string, string>
    decreases |fields|
  {
    if fields == [] then taken else Collect(taken[fields[0].0 := fields[0].1], fields[1..])
  }

  predicate GoodField(field: (string, string), stage: nat) {
    IsName(field.0) && IsValue(field.1) && (if stage == 1 then IsInterfaceField(field.0) else IsPeerField(field.0))
  }

  function WithFields(scan: Scan, fields: seq<(string, string)>): Scan {
    if scan.stage == 1 then scan.(interface := Collect(scan.interface, fields))
    else scan.(peer := Collect(scan.peer, fields))
  }

  function Taken(scan: Scan): map<string, string> {
    if scan.stage == 1 then scan.interface else scan.peer
  }

  /** The lines of new distinct fields of a section add exactly those fields. */
  lemma {:induction false} FieldsAreRead(scan: Scan, fields: seq<(string, string)>)
    requires 1 <= scan.stage <= 2 && Fresh(fields, Taken(scan))
    requires forall i :: 0 <= i < |fields| ==> GoodField(fields[i], scan.stage)
    ensures ReadLines(scan, FieldLines(fields)) == Ok(WithFields(scan, fields))
    decreases |fields|
  {
    if fields != [] {
      var field := fields[0];
      assert GoodField(field, scan.stage);
      AssignIsRead(scan, field.0, field.1);
      var next := WithFields(scan, [field]);
      assert AddField(scan, field.0, field.1) == Ok(next) by {
        assert field.0 !in Taken(scan);
        assert Collect(Taken(scan), [field]) == Taken(scan)[field.0 := field.1];
      }
      hide AddField, ReadLine, GoodField, Assign;
      FieldsAreRead(next, fields[1..]);
      assert FieldLines(fields)[1..] == FieldLines(fields[1..]);
    }
  }

  // --------------------------------------------------------------- values

  lemma TokenIsValue(s: string)
    requires IsToken(s)
    ensures IsValue(s) && IsAscii(s)
  {
  }

  lemma DigitsAreTokens(s: string)
    requires AllDigits(s) && s != ""
    ensures IsToken(s)
  {
  }

  lemma TokensJoin(a: string, c: char, b: string)
    requires IsToken(a) && IsToken(b) && IsGraphic(c) && c != ',' && c != ']'
    ensures IsToken(a + [c] + b)
  {
  }

  lemma {:induction false} OctetsAreTokens(s: string, n: nat)
    requires IsOctets(s, n) && n >= 1
    ensures IsToken(s) && |s| < 4 * n && '%' !in s
    decreases n
  {
    var at := IndexOf(s, '.');
    DigitsAreTokens(s[..at]);
    if n == 1 {
      assert s == s[..at];
    } else {
      OctetsAreTokens(s[at + 1..], n - 1);
      TokensJoin(s[..at], '.', s[at + 1..]);
      assert s == s[..at] + ['.'] + s[at + 1..];
    }
  }

  lemma AddressIsToken(s: string)
    requires IsAddress(s)
    ensures IsToken(s) && |s| < 20
  {
    var ip := s[..|s| - 3];
    OctetsAreTokens(ip, 4);
    TokensJoin(ip, '/', "32");
    assert s[|s| - 3..] == ['/'] + "32";
    assert s == ip + ['/'] + "32";
  }

  lemma EndpointIsToken(s: string)
    requires IsEndpoint(s)
    ensures IsToken(s) && |s| < 22
  {
    var at := IndexOf(s, ':');
    OctetsAreTokens(s[..at], 4);
    DigitsAreTokens(s[at + 1..]);
    TokensJoin(s[..at], ':', s[at + 1..]);
    assert s == s[..at] + [':'] + s[at + 1..];
  }

  lemma TableIsToken(s: string)
    requires IsTable(s)
    ensures IsToken(s) && |s| <= 10
  {
    if s != "auto" && s != "off" {
      DigitsAreTokens(s);
    }
  }

  lemma SymbolIsGraphic(c: char)
    requires Key.InAlphabet(c) || c == '='
    ensures IsGraphic(c) && c != ',' && c != ']'
  {
  }

  lemma KeyIsToken(s: string)
    requires Key.AcceptedByBytes(s)
    ensures IsToken(s) && |s| == 44
  {
    hide Key.AcceptedByBytes;
    Key.ValidatorsAgree(s);
    assert Key.InAlphabet(s[42]) by {
      hide Key.InAlphabet;
      Key.FinalLetters(s[42]);
    }
    assert |s| == 44 && s[43] == '=' && forall i :: 0 <= i < 43 ==> Key.InAlphabet(s[i]);
    hide Key.AcceptedByCharacters, Key.InAlphabet;
    forall i | 0 <= i < |s| ensures IsGraphic(s[i]) && s[i] != ',' && s[i] != ']' {
      hide IsGraphic;
      SymbolIsGraphic(s[i]);
    }
  }

  predicate IsDns(f: Formats, s: string) {
    '%' !in s && IsDnsAddress(f, s)
  }

  lemma DnsIsToken(f: Formats, s: string)
    requires Sane(f) && IsDnsAddress(f, s)
    ensures IsToken(s)
  {
    if IsIpv4(s) {
      OctetsAreTokens(s, 4);
    }
  }

  predicate AllDns(f: Formats, items: seq<string>) {
    forall i :: 0 <= i < |items| ==> IsDns(f, items[i])
  }

  lemma {:induction false} JoinDnsIsValue(f: Formats, items: seq<string>)
    requires Sane(f) && AllDns(f, items) && items != []
    ensures IsValue(JoinDns(items)) && IsAscii(JoinDns(items)) && JoinDns(items)[0] == items[0][0]
    ensures items[0] != ""
  {
    assert IsDns(f, items[0]);
    DnsIsToken(f, items[0]);
    TokenIsValue(items[0]);
    hide Sane, IsDns, IsToken;
    assert items[0] != "";
    hide IsValue, IsAscii;
    if |items| > 1 {
      JoinDnsIsValue(f, items[1..]);
      ValuesJoin(items[0], JoinDns(items[1..]));
    }
  }

  lemma ValuesJoin(a: string, b: string)
    requires IsValue(a) && IsAscii(a) && IsValue(b) && IsAscii(b)
    ensures var s := a + ", " + b; IsValue(s) && IsAscii(s) && s[0] == a[0]
  {
  }

  lemma DnsItem(f: Formats, first: string, item: string, rest: string)
    requires ',' !in first && Strip(first) == item && item != "" && IsDns(f, item)
    ensures DnsAddresses(f, first) == Ok([item])
    ensures DnsAddresses(f, first + [','] + rest)
            == if DnsAddresses(f, rest).Ok? then Ok([item] + DnsAddresses(f, rest).value) else Err
  {
    hide IsDnsAddress, Strip;
    IndexOfPrefix(first, ',', rest);
    var text := first + [','] + rest;
    assert text[..|first|] == first && text[|first| + 1..] == rest;
    assert IndexOf(first, ',') == |first| && first[..|first|] == first;
  }

  lemma SpacedItem(f: Formats, item: string, space: bool)
    requires Sane(f) && IsDns(f, item)
    ensures var first := (if space then " " else "") + item;
            ',' !in first && Strip(first) == item && item != ""
  {
    DnsIsToken(f, item);
    TokenIsValue(item);
    TrimmedStays(item);
    hide Strip;
    assert "" + item == item;
  }

  /** Joined addresses split into themselves, with or without a leading space. */
  lemma {:induction false} DnsReadsBack(f: Formats, items: seq<string>, space: bool)
    requires Sane(f) && AllDns(f, items) && items != []
    ensures DnsAddresses(f, (if space then " " else "") + JoinDns(items)) == Ok(items)
    decreases |items|
  {
    hide Sane, Strip, IsDns, DnsAddresses;
    var lead := if space then " " else "";
    var first := lead + items[0];
    SpacedItem(f, items[0], space);
    if |items| == 1 {
      DnsItem(f, first, items[0], "");
      assert items == [items[0]];
    } else {
      var rest := " " + JoinDns(items[1..]);
      DnsItem(f, first, items[0], rest);
      DnsReadsBack(f, items[1..], true);
      assert lead + JoinDns(items) == first + [','] + rest;
      assert items == [items[0]] + items[1..];
    }
  }

  lemma {:induction false} DnsAddressesAreDns(f: Formats, text: string)
    requires DnsAddresses(f, text).Ok?
    ensures AllDns(f, DnsAddresses(f, text).value) && DnsAddresses(f, text).value != []
    decreases |text|
  {
    hide IsDnsAddress, Strip;
    var at := IndexOf(text, ',');
    if at < |text| {
      DnsAddressesAreDns(f, text[at + 1..]);
    }
  }
}
