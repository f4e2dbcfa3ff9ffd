/** Newline-terminated records and canonical decimals, the two notations every durable record uses. */
module Text {

  const NEWLINE: char := '\n'

  // ---------------------------------------------------------------- lines

  /** The position of the first `c` in `s`, or `|s|` when there is none. */
  function IndexOf(s: string, c: char): (k: nat)
    ensures k <= |s|
    ensures forall i :: 0 <= i < k ==> s[i] != c
    ensures k < |s| ==> s[k] == c
  {
    if s == [] || s[0] == c then 0 else 1 + IndexOf(s[1..], c)
  }

  /** Each line followed by a newline. */
  function JoinLines(lines: seq<string>): string {
    if lines == [] then "" else lines[0] + [NEWLINE] + JoinLines(lines[1..])
  }

  /** The lines of a text; an unterminated tail counts as a line. */
  function Lines(text: string): seq<string>
    decreases |text|
  {
    if text == "" then []
    else
      var k := IndexOf(text, NEWLINE);
      if k == |text| then [text] else [text[..k]] + Lines(text[k + 1..])
  }

  predicate Terminated(text: string) {
    text == "" || text[|text| - 1] == NEWLINE
  }

  predicate SingleLine(line: string) {
    NEWLINE !in line
  }

  predicate AllSingleLines(lines: seq<string>) {
    forall i :: 0 <= i < |lines| ==> SingleLine(lines[i])
  }

  lemma IndexOfPrefix(a: string, c: char, b: string)
    requires c !in a
    ensures IndexOf(a + [c] + b, c) == |a|
  {
    var s := a + [c] + b;
    assert s[|a|] == c;
    assert forall i :: 0 <= i < |a| ==> s[i] == a[i] && s[i] in a;
  }

  lemma {:induction false} LinesOfJoin(lines: seq<string>)
    requires AllSingleLines(lines)
    ensures Lines(JoinLines(lines)) == lines
    ensures Terminated(JoinLines(lines))
  {
    if lines != [] {
      var rest := JoinLines(lines[1..]);
      LinesOfJoin(lines[1..]);
      IndexOfPrefix(lines[0], NEWLINE, rest);
      var text := lines[0] + [NEWLINE] + rest;
      assert text[..|lines[0]|] == lines[0];
      assert text[|lines[0]| + 1..] == rest;
      assert Lines(text) == [lines[0]] + Lines(rest);
      assert lines == [lines[0]] + lines[1..];
    }
  }

  lemma SplitAt(text: string, k: nat)
    requires k < |text| && text[k] == NEWLINE && Terminated(text)
    ensures text == text[..k] + [NEWLINE] + text[k + 1..]
    ensures Terminated(text[k + 1..])
  {
    var tail := text[k + 1..];
    if tail != "" {
      assert tail[|tail| - 1] == text[|text| - 1];
    }
  }

  lemma JoinCons(head: string, lines: seq<string>)
    ensures JoinLines([head] + lines) == head + [NEWLINE] + JoinLines(lines)
  {
    assert ([head] + lines)[1..] == lines;
  }

  lemma {:induction false} JoinOfLines(text: string)
    requires Terminated(text)
    ensures JoinLines(Lines(text)) == text
    ensures AllSingleLines(Lines(text))
    decreases |text|
  {
    hide IndexOf, JoinLines;
    if text != "" {
      var k := IndexOf(text, NEWLINE);
      assert text[|text| - 1] == NEWLINE;
      SplitAt(text, k);
      var rest := text[k + 1..];
      assert Lines(text) == [text[..k]] + Lines(rest);
      hide Lines;
      JoinOfLines(rest);
      JoinCons(text[..k], Lines(rest));
    } else {
      NothingJoined();
    }
  }

  lemma NothingJoined()
    ensures JoinLines([]) == ""
  {
  }

  lemma {:induction false} JoinAppend(a: seq<string>, b: seq<string>)
    ensures JoinLines(a + b) == JoinLines(a) + JoinLines(b)
  {
    if a == [] {
      assert a + b == b;
    } else {
      JoinAppend(a[1..], b);
      assert (a + b)[1..] == a[1..] + b;
    }
  }

  /** The length of a joined text when every line stays within one bound. */
  lemma {:induction false} JoinLength(lines: seq<string>, bound: nat)
    requires forall i :: 0 <= i < |lines| ==> |lines[i]| <= bound
    ensures |JoinLines(lines)| <= |lines| * (bound + 1)
  {
    if lines != [] {
      JoinLength(lines[1..], bound);
      assert |lines| * (bound + 1) == (|lines| - 1) * (bound + 1) + (bound + 1);
    }
  }

  // ------------------------------------------------------------- decimals

  predicate IsDigit(c: char) {
    '0' <= c <= '9'
  }

  predicate AllDigits(s: string) {
    forall i :: 0 <= i < |s| ==> IsDigit(s[i])
  }

  /** What the patterns `0|[1-9][0-9]*` accept. */
  predicate IsCanonical(s: string) {
    |s| > 0 && AllDigits(s) && (|s| > 1 ==> s[0] != '0')
  }

  function DigitValue(c: char): nat
    requires IsDigit(c)
  {
    c as int - '0' as int
  }

  function DigitChar(d: nat): (c: char)
    requires d < 10
    ensures IsDigit(c) && DigitValue(c) == d
  {
    ('0' as int + d) as char
  }

  function ToDecimal(n: nat): (s: string)
    ensures |s| > 0
  {
    if n < 10 then [DigitChar(n)] else ToDecimal(n / 10) + [DigitChar(n % 10)]
  }

  function DecimalValue(s: string): nat
    requires AllDigits(s)
  {
    if s == "" then 0 else 10 * DecimalValue(s[..|s| - 1]) + DigitValue(s[|s| - 1])
  }

  function Pow10(k: nat): (p: nat)
    ensures p > 0
  {
    if k == 0 then 1 else 10 * Pow10(k - 1)
  }

  /** Rendering a number gives its canonical decimal, and reading that gives the number. */
  lemma {:induction false} DecimalRoundTrip(n: nat)
    ensures IsCanonical(ToDecimal(n))
    ensures DecimalValue(ToDecimal(n)) == n
    ensures n > 0 ==> ToDecimal(n)[0] != '0'
  {
    var s := ToDecimal(n);
    if n < 10 {
      assert s[..0] == "";
    } else {
      DecimalRoundTrip(n / 10);
      assert s[..|s| - 1] == ToDecimal(n / 10);
    }
  }

  /** Canonical decimals are exactly the renderings. */
  lemma {:induction false} CanonicalIsRendering(s: string)
    requires IsCanonical(s)
    ensures ToDecimal(DecimalValue(s)) == s
    ensures s[0] != '0' ==> DecimalValue(s) > 0
  {
    var front := s[..|s| - 1];
    assert s == front + [s[|s| - 1]];
    if |s| > 1 {
      CanonicalIsRendering(front);
      assert DecimalValue(front) > 0;
    } else {
      assert front == "";
    }
  }

  lemma {:induction false} DecimalBounds(s: string)
    requires AllDigits(s)
    ensures DecimalValue(s) < Pow10(|s|)
    ensures |s| > 0 && s[0] != '0' ==> DecimalValue(s) >= Pow10(|s| - 1)
  {
    if |s| > 0 {
      DecimalBounds(s[..|s| - 1]);
      if |s| == 1 {
        assert s[..0] == "";
      }
    }
  }

  lemma {:induction false} Pow10Monotone(a: nat, b: nat)
    requires a <= b
    ensures Pow10(a) <= Pow10(b)
  {
    if a < b {
      Pow10Monotone(a, b - 1);
    }
  }

  /** A number below 10^k needs at most k digits. */
  lemma DecimalLength(n: nat, k: nat)
    requires k > 0 && n < Pow10(k)
    ensures |ToDecimal(n)| <= k
  {
    var s := ToDecimal(n);
    DecimalRoundTrip(n);
    DecimalBounds(s);
    if |s| > k {
      Pow10Monotone(k, |s| - 1);
    }
  }

  // --------------------------------------- bounded canonical numbers (Bash)

  /** Character order on strings, the order `[[ a < b ]]` uses for digits. */
  predicate TextLess(a: string, b: string) {
    if b == "" then false
    else if a == "" then true
    else a[0] < b[0] || (a[0] == b[0] && TextLess(a[1..], b[1..]))
  }

  /** The length-then-text comparison of `managed_uint_is_canonical`. */
  predicate UintIsCanonical(value: string, maximum: string) {
    && IsCanonical(value)
    && (|value| < |maximum|
        || (|value| == |maximum| && (value == maximum || TextLess(value, maximum))))
  }

  lemma {:induction false} DecimalFront(s: string)
    requires AllDigits(s) && |s| > 0
    ensures DecimalValue(s) == DigitValue(s[0]) * Pow10(|s| - 1) + DecimalValue(s[1..])
  {
    if |s| == 1 {
      assert s[..0] == "" && s[1..] == "";
    } else {
      var front := s[..|s| - 1];
      DecimalFront(front);
      assert front[1..] == s[1..][..|s| - 2];
      ScaledByTen(DigitValue(s[0]), Pow10(|s| - 2));
    }
  }

  lemma ScaledByTen(x: nat, p: nat)
    ensures 10 * (x * p) == x * (10 * p)
  {
  }

  lemma {:induction false} MulGap(x: nat, y: nat, p: nat)
    requires x < y
    ensures x * p + p <= y * p
  {
    if x + 1 < y {
      MulGap(x, y - 1, p);
    }
    assert y * p == (y - 1) * p + p;
  }

  lemma {:induction false} TextOrderIsNumeric(a: string, b: string)
    requires AllDigits(a) && AllDigits(b) && |a| == |b|
    ensures TextLess(a, b) <==> DecimalValue(a) < DecimalValue(b)
    ensures a == b <==> DecimalValue(a) == DecimalValue(b)
  {
    if a != "" {
      TextOrderIsNumeric(a[1..], b[1..]);
      DecimalFront(a);
      DecimalFront(b);
      DecimalBounds(a[1..]);
      DecimalBounds(b[1..]);
      var p := Pow10(|a| - 1);
      var x, y := DigitValue(a[0]), DigitValue(b[0]);
      assert a == [a[0]] + a[1..] && b == [b[0]] + b[1..];
      if x < y {
        MulGap(x, y, p);
      } else if y < x {
        MulGap(y, x, p);
      }
    }
  }

  /** The text comparison of the runtime is the numeric bound, at any length. */
  lemma UintIsNumericBound(value: string, maximum: string)
    requires IsCanonical(maximum)
    ensures UintIsCanonical(value, maximum) <==>
            IsCanonical(value) && DecimalValue(value) <= DecimalValue(maximum)
  {
    if IsCanonical(value) {
      DecimalBounds(value);
      DecimalBounds(maximum);
      if |value| < |maximum| {
        Pow10Monotone(|value|, |maximum| - 1);
      } else if |value| > |maximum| {
        Pow10Monotone(|maximum|, |value| - 1);
      } else {
        TextOrderIsNumeric(value, maximum);
      }
    }
  }
}
