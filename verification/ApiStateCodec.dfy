/** The ledger's text codec: accepted texts are exactly the renderings. */
module ApiStateCodec {
  import opened Wrappers
  import opened Text
  import opened ApiState

  lemma ReadFieldExact(line: string, key: string, v: string)
    ensures ReadField(line, key) == Ok(v) <==> line == Field(key, v)
  {
    var prefix := key + "=";
    assert Field(key, v) == prefix + v;
    if prefix <= line {
      assert line == prefix + line[|prefix|..];
      assert line == prefix + v ==> line[|prefix|..] == v;
    } else {
      assert prefix <= prefix + v;
    }
  }

  lemma ReadNumberExact(line: string, key: string, n: nat)
    ensures ReadNumber(line, key) == Ok(n) <==> line == NumberField(key, n)
  {
    DecimalRoundTrip(n);
    ReadFieldExact(line, key, ToDecimal(n));
    var v := ReadField(line, key);
    if v.Ok? && IsCanonical(v.value) {
      CanonicalIsRendering(v.value);
    }
  }

  lemma ReadExclusionExact(line: string, k: nat, x: Exclusion)
    requires k < 100
    ensures ReadExclusion(line, k) == Ok(x) <==> line == ExclusionLine(k, x) && IsServerName(x.name)
  {
    hide ReadExclusion, ExclusionLine, IsServerName;
    if line == ExclusionLine(k, x) && IsServerName(x.name) {
      ExclusionIsRead(k, x);
    }
    if ReadExclusion(line, k) == Ok(x) {
      ReadExclusionIsLine(line, k, x);
    }
  }

  lemma ExclusionIsRead(k: nat, x: Exclusion)
    requires k < 100 && IsServerName(x.name)
    ensures ReadExclusion(ExclusionLine(k, x), k) == Ok(x)
  {
    hide ToDecimal, DecimalValue, IsCanonical, TwoDigits;
    var text := x.name + "," + ToDecimal(x.expiry);
    ReadFieldExact(ExclusionLine(k, x), "exclude_" + TwoDigits(k), text);
    IndexOfPrefix(x.name, ',', ToDecimal(x.expiry));
    DecimalRoundTrip(x.expiry);
    assert text[..|x.name|] == x.name;
    assert text[|x.name| + 1..] == ToDecimal(x.expiry);
  }

  lemma ReadExclusionIsLine(line: string, k: nat, x: Exclusion)
    requires k < 100 && ReadExclusion(line, k) == Ok(x)
    ensures line == ExclusionLine(k, x) && IsServerName(x.name)
  {
    hide ToDecimal, DecimalValue, IsCanonical, TwoDigits;
    var key := "exclude_" + TwoDigits(k);
    var v := ReadField(line, key).value;
    ReadFieldExact(line, key, v);
    var comma := IndexOf(v, ',');
    CanonicalIsRendering(v[comma + 1..]);
    assert v == x.name + "," + ToDecimal(x.expiry);
  }

  lemma {:induction false} ReadAttemptsExact(lines: seq<string>, a: seq<nat>)
    requires |lines| < 100
    ensures ReadAttempts(lines) == Ok(a) <==> |a| == |lines| && lines == AttemptLines(a)
  {
    if lines != [] && |a| == |lines| {
      var k := |lines| - 1;
      ReadAttemptsExact(lines[..k], a[..k]);
      ReadNumberExact(lines[k], "attempt_" + TwoDigits(k + 1), a[k]);
      assert a == a[..k] + [a[k]];
      assert lines == lines[..k] + [lines[k]];
      assert AttemptLines(a) == AttemptLines(a[..k]) + [AttemptLine(k + 1, a[k])];
    }
  }

  lemma DistinctSnoc(x: seq<Exclusion>, last: Exclusion)
    ensures Distinct(x + [last]) <==> Distinct(x) && FindExclusion(x, last.name) == |x|
  {
    var y := x + [last];
    var k := FindExclusion(x, last.name);
    assert forall i :: 0 <= i < |x| ==> y[i] == x[i];
    assert k < |x| ==> y[k].name == y[|x|].name;
    assert Distinct(y) ==> Distinct(x) by {
      if Distinct(y) {
        assert forall i, j :: 0 <= i < j < |x| ==> y[i].name != y[j].name;
      }
    }
  }

  predicate NamesAreValid(x: seq<Exclusion>) {
    forall i :: 0 <= i < |x| ==> IsServerName(x[i].name)
  }

  lemma ExclusionLinesSnoc(x: seq<Exclusion>, last: Exclusion)
    requires |x| + 1 < 99
    ensures ExclusionLines(x + [last]) == ExclusionLines(x) + [ExclusionLine(|x| + 1, last)]
    ensures NamesAreValid(x + [last]) <==> NamesAreValid(x) && IsServerName(last.name)
  {
    hide ExclusionLine, IsServerName;
    var y := x + [last];
    assert y[..|x|] == x && y[|x|] == last;
    assert ExclusionLines(y) == ExclusionLines(x) + [ExclusionLine(|x| + 1, last)];
    assert NamesAreValid(y) ==> NamesAreValid(x) by {
      assert forall i :: 0 <= i < |x| ==> x[i] == y[i];
    }
  }

  lemma {:induction false} ReadExclusionsExact(lines: seq<string>, x: seq<Exclusion>)
    requires |lines| < 99
    ensures ReadExclusions(lines) == Ok(x) <==>
            |x| == |lines| && lines == ExclusionLines(x) && Distinct(x) && NamesAreValid(x)
  {
    if lines != [] && |x| == |lines| {
      var k := |lines| - 1;
      var front, last := x[..k], x[k];
      assert x == front + [last];
      assert lines == lines[..k] + [lines[k]];
      ReadExclusionsExact(lines[..k], front);
      ReadExclusionExact(lines[k], k + 1, last);
      DistinctSnoc(front, last);
      ExclusionLinesSnoc(front, last);
      hide ReadExclusion, ExclusionLine, IsServerName, Distinct, FindExclusion, ExclusionLines, NamesAreValid;
      var lf, el := lines[..k], ExclusionLines(front);
      assert lines == ExclusionLines(x) <==> lf == el && lines[k] == ExclusionLine(k + 1, last) by {
        assert (lf + [lines[k]])[..k] == lf && (el + [ExclusionLine(k + 1, last)])[..k] == el;
      }
    }
  }

  lemma ReadHeadExact(lines: seq<string>, h: Record)
    requires |lines| == 4
    ensures ReadHead(lines) == Ok(h) <==>
            && lines == HeadLines(h) && h.attemptCount <= MAX_ATTEMPTS
            && h == Blank.(loaded := true, observed := h.observed, windowStart := h.windowStart,
                           attemptCount := h.attemptCount)
  {
    ReadNumberExact(lines[1], "observed_at", h.observed);
    ReadNumberExact(lines[2], "window_start", h.windowStart);
    ReadNumberExact(lines[3], "attempt_count", h.attemptCount);
    hide ReadNumber, NumberField;
    assert lines == [lines[0], lines[1], lines[2], lines[3]];
  }

  function CredentialLines(c: Identity): (s: seq<string>)
    ensures |s| == 4
  {
    [NumberField("credential_device", c.device),
     NumberField("credential_inode", c.inode),
     NumberField("credential_mtime", c.mtime),
     NumberField("credential_size", c.size)]
  }

  lemma ReadCredentialExact(lines: seq<string>, c: Identity)
    requires |lines| == 4
    ensures ReadCredential(lines) == Ok(c) <==> lines == CredentialLines(c)
  {
    ReadNumberExact(lines[0], "credential_device", c.device);
    ReadNumberExact(lines[1], "credential_inode", c.inode);
    ReadNumberExact(lines[2], "credential_mtime", c.mtime);
    ReadNumberExact(lines[3], "credential_size", c.size);
    hide ReadNumber, NumberField;
    assert lines == [lines[0], lines[1], lines[2], lines[3]];
  }

  lemma ClassNamesAreExact(s: string, c: FailureClass)
    ensures ClassNamed(s) == Some(c) <==> s == ClassName(c)
  {
  }

  function BodyOf(r: Record): Body {
    Body(r.backoffUntil, r.failureClass, r.credential, r.configuredDevice, |r.exclusions|)
  }

  lemma ReadBodyExact(lines: seq<string>, r: Record)
    requires |lines| == 8
    ensures ReadBody(lines) == Ok(BodyOf(r)) <==> lines == BodyLines(r) && |r.exclusions| <= MAX_EXCLUSIONS
  {
    ReadNumberExact(lines[0], "backoff_until", r.backoffUntil);
    ReadFieldExact(lines[1], "failure_class", ClassName(r.failureClass));
    var failure := ReadField(lines[1], "failure_class");
    if failure.Ok? {
      ClassNamesAreExact(failure.value, r.failureClass);
    }
    ClassNamesAreExact(ClassName(r.failureClass), r.failureClass);
    ReadCredentialExact(lines[2..6], r.credential);
    ReadFieldExact(lines[6], "configured_device", r.configuredDevice);
    ReadNumberExact(lines[7], "exclude_count", |r.exclusions|);
    hide ReadNumber, NumberField, ReadField, Field, ReadCredential, ClassName, ClassNamed;
    assert lines == [lines[0], lines[1]] + lines[2..6] + [lines[6], lines[7]];
    assert BodyLines(r) == [NumberField("backoff_until", r.backoffUntil),
                            Field("failure_class", ClassName(r.failureClass))]
                           + CredentialLines(r.credential)
                           + [Field("configured_device", r.configuredDevice),
                              NumberField("exclude_count", |r.exclusions|)];
    if lines == BodyLines(r) {
      assert lines[2..6] == CredentialLines(r.credential);
    }
  }

  predicate LinesFit(lines: seq<string>) {
    MIN_LINES <= |lines| <= MAX_LINES && forall i :: 0 <= i < |lines| ==> |lines[i]| <= MAX_LINE
  }

  lemma DecodeSlices(lines: seq<string>, r: Record)
    requires Countable(r)
    ensures lines == RecordLines(r) <==>
            && |lines| == MIN_LINES + |r.attempts| + |r.exclusions|
            && lines[..4] == HeadLines(r)
            && lines[4..4 + |r.attempts|] == AttemptLines(r.attempts)
            && lines[4 + |r.attempts|..12 + |r.attempts|] == BodyLines(r)
            && lines[12 + |r.attempts|..] == ExclusionLines(r.exclusions)
  {
    hide HeadLines, AttemptLines, BodyLines, ExclusionLines;
    var a, b, c, d := HeadLines(r), AttemptLines(r.attempts), BodyLines(r), ExclusionLines(r.exclusions);
    var n := |r.attempts|;
    if lines == RecordLines(r) {
      assert lines == a + b + c + d;
      assert lines[..4] == a;
      assert lines[4..4 + n] == b;
      assert lines[4 + n..12 + n] == c;
      assert lines[12 + n..] == d;
    } else if |lines| == MIN_LINES + n + |r.exclusions| {
      assert lines == lines[..4] + lines[4..4 + n] + lines[4 + n..12 + n] + lines[12 + n..];
    }
  }

  /** A record's lines decode to it. */
  lemma DecodeOfLines(r: Record)
    requires Countable(r) && Distinct(r.exclusions) && NamesAreValid(r.exclusions)
    requires LinesFit(RecordLines(r))
    ensures Decode(RecordLines(r)) == Ok(r)
  {
    var lines := RecordLines(r);
    DecodeSlices(lines, r);
    var h := Blank.(loaded := true, observed := r.observed, windowStart := r.windowStart,
                    attemptCount := r.attemptCount);
    assert HeadLines(h) == HeadLines(r);
    var n := |r.attempts|;
    ReadHeadExact(lines[..4], h);
    ReadAttemptsExact(lines[4..4 + n], r.attempts);
    ReadBodyExact(lines[4 + n..12 + n], r);
    ReadExclusionsExact(lines[12 + n..], r.exclusions);
    hide HeadLines, AttemptLines, BodyLines, ExclusionLines, RecordLines,
         ReadHead, ReadAttempts, ReadBody, ReadExclusions, Distinct;
  }

  /** Lines that decode are the lines of what they decode to. */
  lemma LinesOfDecode(lines: seq<string>)
    requires Decode(lines).Ok?
    ensures var r := Decode(lines).value;
            Countable(r) && Distinct(r.exclusions) && NamesAreValid(r.exclusions) && lines == RecordLines(r)
    ensures LinesFit(lines)
  {
    hide HeadLines, AttemptLines, BodyLines, ExclusionLines, RecordLines,
         ReadHead, ReadAttempts, ReadBody, ReadExclusions, Distinct, NamesAreValid;
    var r := Decode(lines).value;
    var h := ReadHead(lines[..4]).value;
    var n := h.attemptCount;
    var body := ReadBody(lines[4 + n..4 + n + 8]).value;
    assert lines[..4] == HeadLines(r) && h.loaded && n <= MAX_ATTEMPTS by {
      ReadHeadExact(lines[..4], h);
      HeadOfSame(h, r);
    }
    ReadAttemptsExact(lines[4..4 + n], r.attempts);
    ReadExclusionsExact(lines[4 + n + 8..], r.exclusions);
    assert body == BodyOf(r);
    ReadBodyExact(lines[4 + n..12 + n], r);
    DecodeSlices(lines, r);
  }

  lemma HeadOfSame(h: Record, r: Record)
    requires h.observed == r.observed && h.windowStart == r.windowStart && h.attemptCount == r.attemptCount
    ensures HeadLines(h) == HeadLines(r)
  {
  }

  // ------------------------------------------------------------ size bounds

  lemma NumberFits(n: nat, digits: nat)
    requires digits > 0 && n < Pow10(digits)
    ensures |ToDecimal(n)| <= digits && (forall i :: 0 <= i < |ToDecimal(n)| ==> IsDigit(ToDecimal(n)[i]))
  {
    DecimalLength(n, digits);
    DecimalRoundTrip(n);
  }

  const LINE_BOUND: nat := 86

  predicate LineIsShort(line: string) {
    |line| <= LINE_BOUND && forall i :: 0 <= i < |line| ==> ' ' <= line[i] <= '~'
  }

  predicate Plain(s: string) {
    forall i :: 0 <= i < |s| ==> ' ' <= s[i] <= '~'
  }

  lemma NumberFieldIsShort(key: string, n: nat, digits: nat)
    requires digits > 0 && n < Pow10(digits) && Plain(key) && |key| + 1 + digits <= LINE_BOUND
    ensures LineIsShort(NumberField(key, n))
  {
    NumberFits(n, digits);
    assert Plain(ToDecimal(n));
  }

  lemma PowersOfTen()
    ensures Pow10(2) == 100
    ensures Pow10(10) == 10_000_000_000
    ensures Pow10(20) == 100_000_000_000_000_000_000
  {
    assert Pow10(4) == 10000;
    assert Pow10(8) == 100000000;
    assert Pow10(10) == 10000000000;
    assert Pow10(14) == 100000000000000;
    assert Pow10(18) == 1000000000000000000;
  }

  lemma PlainAppend(a: string, b: string)
    requires Plain(a) && Plain(b)
    ensures Plain(a + b)
  {
  }

  lemma ExclusionLineIsShort(k: nat, x: Exclusion)
    requires k < 100 && IsServerName(x.name) && IsEpoch(x.expiry)
    ensures LineIsShort(ExclusionLine(k, x))
  {
    PowersOfTen();
    NumberFits(x.expiry, 10);
    assert Plain(TwoDigits(k)) && Plain(x.name) && Plain(ToDecimal(x.expiry));
    assert Plain("exclude_") && Plain("=") && Plain(",");
    assert LineIsShort(ExclusionLine(k, x)) by {
      hide Plain, ToDecimal, TwoDigits;
      PlainAppend("exclude_", TwoDigits(k));
      PlainAppend("exclude_" + TwoDigits(k), "=");
      PlainAppend(x.name, ",");
      PlainAppend(x.name + ",", ToDecimal(x.expiry));
      PlainAppend("exclude_" + TwoDigits(k) + "=", x.name + "," + ToDecimal(x.expiry));
      PlainIsShort(ExclusionLine(k, x));
    }
  }

  lemma PlainIsShort(line: string)
    requires Plain(line) && |line| <= LINE_BOUND
    ensures LineIsShort(line)
  {
  }

  lemma AttemptLineIsShort(k: nat, epoch: nat)
    requires k < 100 && IsEpoch(epoch)
    ensures LineIsShort(AttemptLine(k, epoch))
  {
    PowersOfTen();
    assert Plain(TwoDigits(k));
    NumberFieldIsShort("attempt_" + TwoDigits(k), epoch, 10);
  }

  lemma HeadIsShort(r: Record)
    requires WindowIsValid(r)
    ensures AllShort(HeadLines(r))
  {
    hide NumberField;
    assert LineIsShort("version=1");
    PowersOfTen();
    NumberFieldIsShort("observed_at", r.observed, 10);
    NumberFieldIsShort("window_start", r.windowStart, 10);
    NumberFieldIsShort("attempt_count", r.attemptCount, 10);
    hide LineIsShort;
  }

  lemma ClassLineIsShort(c: FailureClass)
    ensures LineIsShort(Field("failure_class", ClassName(c)))
  {
  }

  lemma CredentialIsShort(c: Identity)
    requires IdentityIsValid(c)
    ensures AllShort(CredentialLines(c))
  {
    hide NumberField, LineIsShort;
    PowersOfTen();
    NumberFieldIsShort("credential_device", c.device, 20);
    NumberFieldIsShort("credential_inode", c.inode, 20);
    NumberFieldIsShort("credential_mtime", c.mtime, 20);
    NumberFieldIsShort("credential_size", c.size, 10);
  }

  lemma DeviceLineIsShort(device: string)
    requires IsDeviceName(device)
    ensures LineIsShort(Field("configured_device", device))
  {
    forall i | 0 <= i < |device| ensures ' ' <= device[i] <= '~' {
      assert IsDeviceChar(device[i]);
    }
  }

  lemma BodyIsShort(r: Record)
    requires MemoryIsValid(r, true)
    ensures AllShort(BodyLines(r))
  {
    var body := BodyLines(r);
    assert LineIsShort(body[0]) && LineIsShort(body[7]) by {
      PowersOfTen();
      NumberFieldIsShort("backoff_until", r.backoffUntil, 10);
      NumberFieldIsShort("exclude_count", |r.exclusions|, 10);
    }
    ClassLineIsShort(r.failureClass);
    CredentialIsShort(r.credential);
    DeviceLineIsShort(r.configuredDevice);
    hide NumberField, Field, LineIsShort, MemoryIsValid, ClassName;
    var c := CredentialLines(r.credential);
    assert body[2] == c[0] && body[3] == c[1] && body[4] == c[2] && body[5] == c[3];
    assert body[1] == Field("failure_class", ClassName(r.failureClass));
    assert body[6] == Field("configured_device", r.configuredDevice);
  }

  predicate AllShort(lines: seq<string>) {
    forall i :: 0 <= i < |lines| ==> LineIsShort(lines[i])
  }

  lemma LinesAreShort(r: Record)
    requires MemoryIsValid(r, true)
    ensures AllShort(RecordLines(r))
  {
    HeadIsShort(r);
    BodyIsShort(r);
    var x := r.exclusions;
    var a, b, c, d := HeadLines(r), AttemptLines(r.attempts), BodyLines(r), ExclusionLines(x);
    assert AllShort(b) by {
      forall i | 0 <= i < |b| ensures LineIsShort(b[i]) {
        AttemptLineIsShort(i + 1, r.attempts[i]);
      }
    }
    assert AllShort(d) by {
      forall i | 0 <= i < |d| ensures LineIsShort(d[i]) {
        ExclusionLineIsShort(i + 1, x[i]);
      }
    }
    hide LineIsShort, HeadLines, AttemptLines, BodyLines, ExclusionLines, MemoryIsValid;
    assert AllShort(a) && AllShort(c);
    assert AllShort(a + b);
    assert AllShort(a + b + c);
  }

  lemma {:induction false} JoinIsStrict(lines: seq<string>)
    requires AllShort(lines)
    ensures forall i :: 0 <= i < |JoinLines(lines)| ==> IsStrict(JoinLines(lines)[i])
    ensures lines != [] ==> JoinLines(lines) != "" && JoinLines(lines)[|JoinLines(lines)| - 1] == NEWLINE
  {
    if lines != [] {
      JoinIsStrict(lines[1..]);
      var head, rest := lines[0] + [NEWLINE], JoinLines(lines[1..]);
      assert LineIsShort(lines[0]);
      assert forall i :: 0 <= i < |head| ==> IsStrict(head[i]);
      assert JoinLines(lines) == head + rest;
    }
  }

  lemma ShortLinesAreSingle(lines: seq<string>)
    requires AllShort(lines)
    ensures AllSingleLines(lines)
  {
    forall i | 0 <= i < |lines| ensures SingleLine(lines[i]) {
      assert LineIsShort(lines[i]);
    }
  }

  /** Every saved record fits the loader's limits and reads back as itself. */
  lemma RenderingIsReadable(r: Record)
    requires MemoryIsValid(r, true)
    ensures |Render(r)| <= MAX_TEXT && |RecordLines(r)| <= MAX_LINES
    ensures forall i :: 0 <= i < |RecordLines(r)| ==> |RecordLines(r)[i]| <= MAX_LINE
    ensures Parse(Render(r)) == Ok(r)
  {
    var lines := RecordLines(r);
    LinesAreShort(r);
    JoinIsStrict(lines);
    ShortLinesAreSingle(lines);
    LinesOfJoin(lines);
    forall i | 0 <= i < |lines| ensures |lines[i]| <= LINE_BOUND {
      assert LineIsShort(lines[i]);
    }
    JoinLength(lines, LINE_BOUND);
    assert |lines| * (LINE_BOUND + 1) <= 34 * 87;
    DecodeOfLines(r);
  }

  /** Whatever text the reader accepts is the rendering of what it decodes to. */
  lemma AcceptedIsRendering(text: string)
    requires Parse(text).Ok?
    ensures Countable(Parse(text).value) && Render(Parse(text).value) == text
  {
    JoinOfLines(text);
    LinesOfDecode(Lines(text));
  }

  /** Two texts with the same meaning are the same text. */
  lemma ReadingIsInjective(a: string, b: string)
    requires Parse(a).Ok? && Parse(a) == Parse(b)
    ensures a == b
  {
    AcceptedIsRendering(a);
    AcceptedIsRendering(b);
  }
}
