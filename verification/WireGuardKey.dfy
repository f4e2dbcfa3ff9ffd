/** Two validators of WireGuard keys, one over decoded bytes and one over characters, accept the same strings. */
module WireGuardKey {
  import opened Wrappers

  type Byte = n: nat | n < 256

  // ---------------------------------------- base64, section 4 of RFC 4648

  predicate InAlphabet(c: char) {
    'A' <= c <= 'Z' || 'a' <= c <= 'z' || '0' <= c <= '9' || c == '+' || c == '/'
  }

  function Value(c: char): (v: nat)
    requires InAlphabet(c)
    ensures v < 64
  {
    if 'A' <= c <= 'Z' then c as int - 'A' as int
    else if 'a' <= c <= 'z' then c as int - 'a' as int + 26
    else if '0' <= c <= '9' then c as int - '0' as int + 52
    else if c == '+' then 62 else 63
  }

  function Symbol(v: nat): (c: char)
    requires v < 64
    ensures InAlphabet(c) && Value(c) == v
  {
    if v < 26 then ('A' as int + v) as char
    else if v < 52 then ('a' as int + (v - 26)) as char
    else if v < 62 then ('0' as int + (v - 52)) as char
    else if v == 62 then '+' else '/'
  }

  lemma SymbolOfValue(c: char)
    requires InAlphabet(c)
    ensures Symbol(Value(c)) == c
  {
  }

  function EncodeTriple(a: Byte, b: Byte, c: Byte): string {
    [Symbol(a / 4), Symbol(a % 4 * 16 + b / 16), Symbol(b % 16 * 4 + c / 64), Symbol(c % 64)]
  }

  function Encode(bytes: seq<Byte>): string {
    if bytes == [] then ""
    else if |bytes| == 1 then [Symbol(bytes[0] / 4), Symbol(bytes[0] % 4 * 16), '=', '=']
    else if |bytes| == 2 then
      [Symbol(bytes[0] / 4), Symbol(bytes[0] % 4 * 16 + bytes[1] / 16), Symbol(bytes[1] % 16 * 4), '=']
    else EncodeTriple(bytes[0], bytes[1], bytes[2]) + Encode(bytes[3..])
  }

  function DecodeQuad(w: nat, x: nat, y: nat, z: nat): seq<Byte>
    requires w < 64 && x < 64 && y < 64 && z < 64
  {
    [w * 4 + x / 16, x % 16 * 16 + y / 4, y % 4 * 64 + z]
  }

  /** Padding may end the text only; the bits it leaves over are ignored. */
  function Decode(s: string): Result<seq<Byte>> {
    if s == "" then Ok([])
    else if |s| < 4 || !InAlphabet(s[0]) || !InAlphabet(s[1]) then Err
    else
      var w, x := Value(s[0]), Value(s[1]);
      if |s| == 4 && s[2] == '=' && s[3] == '=' then Ok([w * 4 + x / 16])
      else if !InAlphabet(s[2]) then Err
      else
        var y := Value(s[2]);
        if |s| == 4 && s[3] == '=' then Ok([w * 4 + x / 16, x % 16 * 16 + y / 4])
        else if !InAlphabet(s[3]) then Err
        else
          var rest :- Decode(s[4..]);
          Ok(DecodeQuad(w, x, y, Value(s[3])) + rest)
  }

  predicate AllZero(bytes: seq<Byte>) {
    forall i :: 0 <= i < |bytes| ==> bytes[i] == 0
  }

  /** `_wireguard_key`: 32 bytes, not all zero, in their canonical encoding. */
  predicate AcceptedByBytes(value: string) {
    var decoded := Decode(value);
    decoded.Ok? && |decoded.value| == 32 && !AllZero(decoded.value) && Encode(decoded.value) == value
  }

  // -------------------------------------------------- the awk comparator

  const FINAL_LETTERS: string := "AEIMQUYcgkosw048"

  /** 43 letters A and the padding sign. */
  const ZERO_KEY: string := Repeat('A', 43) + "="

  function Repeat<T>(x: T, n: nat): (s: seq<T>)
    ensures |s| == n && forall i :: 0 <= i < n ==> s[i] == x
  {
    if n == 0 then [] else [x] + Repeat(x, n - 1)
  }

  /** `valid_key`: the length, the alphabet, the final letter and the one excluded text. */
  predicate AcceptedByCharacters(value: string) {
    && |value| == 44 && value[43] == '='
    && (forall i :: 0 <= i < 42 ==> InAlphabet(value[i]))
    && value[42] in FINAL_LETTERS
    && value != ZERO_KEY
  }

  // ----------------------------------------------------------------- laws

  lemma QuadOfTriple(a: Byte, b: Byte, c: Byte)
    ensures DecodeQuad(a / 4, a % 4 * 16 + b / 16, b % 16 * 4 + c / 64, c % 64) == [a, b, c]
  {
  }

  lemma PairOfTriple(a: Byte, b: Byte)
    ensures a / 4 * 4 + (a % 4 * 16 + b / 16) / 16 == a
    ensures (a % 4 * 16 + b / 16) % 16 * 16 + b % 16 * 4 / 4 == b
    ensures a / 4 * 4 + a % 4 * 16 / 16 == a
  {
  }

  /** Decoding an encoding gives the bytes back. */
  lemma {:induction false} DecodeOfEncode(bytes: seq<Byte>)
    ensures Decode(Encode(bytes)) == Ok(bytes)
  {
    var s := Encode(bytes);
    hide Symbol, Value, InAlphabet;
    assert !InAlphabet('=') by {
      PaddingIsNoSymbol();
    }
    if |bytes| == 1 {
      PairOfTriple(bytes[0], 0);
      assert bytes == [bytes[0]];
    } else if |bytes| == 2 {
      PairOfTriple(bytes[0], bytes[1]);
      assert bytes == [bytes[0], bytes[1]];
    } else if |bytes| >= 3 {
      hide Decode;
      DecodeOfEncode(bytes[3..]);
      DecodeTriple(bytes[0], bytes[1], bytes[2], Encode(bytes[3..]));
      assert bytes == [bytes[0], bytes[1], bytes[2]] + bytes[3..];
    }
  }

  /** Four letters decode on their own. */
  lemma DecodeFour(s: string)
    requires |s| >= 4 && InAlphabet(s[0]) && InAlphabet(s[1]) && InAlphabet(s[2]) && InAlphabet(s[3])
    requires Decode(s[4..]).Ok?
    ensures Decode(s) == Ok(DecodeQuad(Value(s[0]), Value(s[1]), Value(s[2]), Value(s[3])) + Decode(s[4..]).value)
  {
    PaddingIsNoSymbol();
    hide Value, InAlphabet, DecodeQuad;
  }

  lemma DecodeSymbols(w: nat, x: nat, y: nat, z: nat, rest: string)
    requires w < 64 && x < 64 && y < 64 && z < 64 && Decode(rest).Ok?
    ensures Decode([Symbol(w), Symbol(x), Symbol(y), Symbol(z)] + rest)
            == Ok(DecodeQuad(w, x, y, z) + Decode(rest).value)
  {
    hide Symbol, Value, InAlphabet, Decode, DecodeQuad;
    var s := [Symbol(w), Symbol(x), Symbol(y), Symbol(z)] + rest;
    assert s[4..] == rest;
    assert s[0] == Symbol(w) && s[1] == Symbol(x) && s[2] == Symbol(y) && s[3] == Symbol(z);
    DecodeFour(s);
  }

  lemma DecodeTriple(a: Byte, b: Byte, c: Byte, rest: string)
    requires Decode(rest).Ok?
    ensures Decode(EncodeTriple(a, b, c) + rest) == Ok([a, b, c] + Decode(rest).value)
  {
    DecodeSymbols(a / 4, a % 4 * 16 + b / 16, b % 16 * 4 + c / 64, c % 64, rest);
    QuadOfTriple(a, b, c);
    hide Symbol, Decode, DecodeQuad;
  }

  lemma PaddingIsNoSymbol()
    ensures !InAlphabet('=')
  {
  }

  lemma QuadParts(w: nat, x: nat, y: nat, z: nat)
    requires w < 64 && x < 64 && y < 64 && z < 64
    ensures var d := DecodeQuad(w, x, y, z);
            && d[0] / 4 == w && d[0] % 4 * 16 + d[1] / 16 == x
            && d[1] % 16 * 4 + d[2] / 64 == y && d[2] % 64 == z
  {
    assert (w * 4 + x / 16) / 4 == w && (w * 4 + x / 16) % 4 == x / 16;
    assert (x % 16 * 16 + y / 4) / 16 == x % 16 && (x % 16 * 16 + y / 4) % 16 == y / 4;
    assert (y % 4 * 64 + z) / 64 == y % 4 && (y % 4 * 64 + z) % 64 == z;
  }

  lemma TripleOfQuad(w: nat, x: nat, y: nat, z: nat)
    requires w < 64 && x < 64 && y < 64 && z < 64
    ensures var d := DecodeQuad(w, x, y, z);
            EncodeTriple(d[0], d[1], d[2]) == [Symbol(w), Symbol(x), Symbol(y), Symbol(z)]
  {
    QuadParts(w, x, y, z);
    hide Symbol, DecodeQuad;
  }

  /** The final letters are exactly those whose two low bits, left over by the padding, are zero. */
  lemma FinalLetters(c: char)
    ensures c in FINAL_LETTERS <==> InAlphabet(c) && Value(c) % 4 == 0
  {
    if c in FINAL_LETTERS {
      assert FINAL_LETTERS == ['A', 'E', 'I', 'M', 'Q', 'U', 'Y', 'c', 'g', 'k', 'o', 's', 'w', '0', '4', '8'];
    } else if InAlphabet(c) && Value(c) % 4 == 0 {
      FinalLetterListed(c);
    }
  }

  lemma FinalLetterListed(c: char)
    requires InAlphabet(c) && Value(c) % 4 == 0
    ensures c in FINAL_LETTERS
  {
    SymbolOfValue(c);
    var k := Value(c) / 4;
    assert k < 16 && Value(c) == 4 * k;
    assert FINAL_LETTERS[k] == Symbol(4 * k);
  }

  /** Text of `n` full groups and one with a single padding sign, its spare bits zero. */
  predicate IsPaddedText(s: string, n: nat) {
    && |s| == 4 * n + 4 && s[4 * n + 3] == '='
    && (forall i :: 0 <= i < 4 * n + 3 ==> InAlphabet(s[i]))
    && Value(s[4 * n + 2]) % 4 == 0
  }

  /** Such texts are exactly the canonical encodings of 3n + 2 bytes. */
  lemma {:induction false} PaddedTextIsCanonical(s: string, n: nat)
    ensures IsPaddedText(s, n) <==>
            Decode(s).Ok? && |Decode(s).value| == 3 * n + 2 && Encode(Decode(s).value) == s
  {
    if IsPaddedText(s, n) {
      PaddedTextRoundTrips(s, n);
    }
    if Decode(s).Ok? && |Decode(s).value| == 3 * n + 2 && Encode(Decode(s).value) == s {
      EncodingIsPadded(Decode(s).value, n);
    }
  }

  lemma LastGroup(w: nat, x: nat, y: nat)
    requires w < 64 && x < 64 && y < 64 && y % 4 == 0
    ensures var a, b := w * 4 + x / 16, x % 16 * 16 + y / 4;
            a < 256 && b < 256 && a / 4 == w && a % 4 * 16 + b / 16 == x && b % 16 * 4 == y
  {
    QuadParts(w, x, y, 0);
  }

  lemma DecodeLast(s: string)
    requires IsPaddedText(s, 0)
    ensures Decode(s) == Ok([Value(s[0]) * 4 + Value(s[1]) / 16, Value(s[1]) % 16 * 16 + Value(s[2]) / 4])
  {
    PaddingIsNoSymbol();
    hide Value, InAlphabet;
  }

  lemma EncodeLast(a: Byte, b: Byte)
    ensures Encode([a, b]) == [Symbol(a / 4), Symbol(a % 4 * 16 + b / 16), Symbol(b % 16 * 4), '=']
  {
    hide Symbol;
  }

  lemma LastGroupRoundTrips(s: string)
    requires IsPaddedText(s, 0)
    ensures Decode(s).Ok? && |Decode(s).value| == 2 && Encode(Decode(s).value) == s
  {
    hide Symbol, Value, InAlphabet, Encode, Decode;
    var w, x, y := Value(s[0]), Value(s[1]), Value(s[2]);
    LastGroup(w, x, y);
    DecodeLast(s);
    EncodeLast(w * 4 + x / 16, x % 16 * 16 + y / 4);
    SymbolOfValue(s[0]);
    SymbolOfValue(s[1]);
    SymbolOfValue(s[2]);
    assert s == [s[0], s[1], s[2], '='];
  }

  lemma {:induction false} PaddedTextRoundTrips(s: string, n: nat)
    requires IsPaddedText(s, n)
    ensures Decode(s).Ok? && |Decode(s).value| == 3 * n + 2 && Encode(Decode(s).value) == s
  {
    hide Symbol, Value, InAlphabet, Decode, Encode;
    if n == 0 {
      LastGroupRoundTrips(s);
    } else {
      PaddedTextRoundTrips(s[4..], n - 1);
      GroupRoundTrips(s);
    }
  }

  lemma EncodeGroup(q: seq<Byte>, rest: seq<Byte>)
    requires |q| == 3
    ensures Encode(q + rest) == EncodeTriple(q[0], q[1], q[2]) + Encode(rest)
  {
    hide EncodeTriple, Symbol;
    assert (q + rest)[3..] == rest;
  }

  lemma DecodeGroup(s: string)
    requires |s| > 4 && InAlphabet(s[0]) && InAlphabet(s[1]) && InAlphabet(s[2]) && InAlphabet(s[3])
    requires Decode(s[4..]).Ok?
    ensures Decode(s) == Ok(DecodeQuad(Value(s[0]), Value(s[1]), Value(s[2]), Value(s[3])) + Decode(s[4..]).value)
  {
    PaddingIsNoSymbol();
    hide InAlphabet, Value, DecodeQuad;
  }

  lemma TripleOfGroup(s: string)
    requires |s| == 4 && InAlphabet(s[0]) && InAlphabet(s[1]) && InAlphabet(s[2]) && InAlphabet(s[3])
    ensures var q := DecodeQuad(Value(s[0]), Value(s[1]), Value(s[2]), Value(s[3]));
            |q| == 3 && EncodeTriple(q[0], q[1], q[2]) == s
  {
    SymbolOfValue(s[0]);
    SymbolOfValue(s[1]);
    SymbolOfValue(s[2]);
    SymbolOfValue(s[3]);
    hide Symbol, Value, InAlphabet, EncodeTriple;
    TripleOfQuad(Value(s[0]), Value(s[1]), Value(s[2]), Value(s[3]));
  }

  lemma GroupRoundTrips(s: string)
    requires |s| > 4 && InAlphabet(s[0]) && InAlphabet(s[1]) && InAlphabet(s[2]) && InAlphabet(s[3])
    requires Decode(s[4..]).Ok? && Encode(Decode(s[4..]).value) == s[4..]
    ensures Decode(s).Ok? && |Decode(s).value| == 3 + |Decode(s[4..]).value| && Encode(Decode(s).value) == s
  {
    hide Symbol, Value, InAlphabet, DecodeQuad, EncodeTriple, Decode, Encode;
    TripleOfGroup(s[..4]);
    DecodeGroup(s);
    EncodeGroup(DecodeQuad(Value(s[0]), Value(s[1]), Value(s[2]), Value(s[3])), Decode(s[4..]).value);
    assert s == s[..4] + s[4..];
  }

  lemma {:induction false} EncodingIsPadded(bytes: seq<Byte>, n: nat)
    requires |bytes| == 3 * n + 2
    ensures IsPaddedText(Encode(bytes), n)
  {
    if n > 0 {
      EncodingIsPadded(bytes[3..], n - 1);
      var s, rest := Encode(bytes), Encode(bytes[3..]);
      assert forall i :: 4 <= i < |s| ==> s[i] == rest[i - 4];
    }
  }

  function Zeros(n: nat): seq<Byte> {
    Repeat(0, n)
  }

  function ZeroText(n: nat): string {
    Repeat('A', 4 * n + 3) + "="
  }

  lemma RepeatAdd<T>(x: T, a: nat, b: nat)
    ensures Repeat(x, a) + Repeat(x, b) == Repeat(x, a + b)
  {
    hide Repeat;
  }

  lemma ZeroBytes(n: nat)
    requires n > 0
    ensures Zeros(3 * n + 2) == [0, 0, 0] + Zeros(3 * (n - 1) + 2)
  {
    var three: seq<Byte> := Repeat(0, 3);
    assert three == [0, 0, 0];
    var m := 3 * (n - 1) + 2;
    RepeatAdd(0 as Byte, 3, m);
    assert 3 + m == 3 * n + 2;
    hide Repeat;
  }

  lemma SymbolZero()
    ensures Symbol(0) == 'A'
  {
  }

  lemma FourTimes(t: string, x: char)
    requires |t| == 4 && t[0] == x && t[1] == x && t[2] == x && t[3] == x
    ensures t == Repeat(x, 4)
  {
  }

  lemma ZeroGroupSymbols(z: Byte)
    requires z == 0
    ensures EncodeTriple(z, z, z) == [Symbol(0), Symbol(0), Symbol(0), Symbol(0)]
  {
    hide Symbol, Value, InAlphabet, Repeat;
    assert z / 4 == 0;
    assert z % 4 * 16 + z / 16 == 0;
    assert z % 16 * 4 + z / 64 == 0;
    assert z % 64 == 0;
  }

  lemma ZeroTriple(z: Byte)
    requires z == 0
    ensures EncodeTriple(z, z, z) == Repeat('A', 4)
  {
    hide Symbol, Value, InAlphabet, Repeat, EncodeTriple;
    SymbolZero();
    ZeroGroupSymbols(z);
    FourTimes(EncodeTriple(z, z, z), 'A');
  }

  lemma Regroup(a: string, b: string, c: string)
    ensures a + (b + c) == (a + b) + c
  {
  }

  lemma ZeroSymbols(n: nat, z: Byte)
    requires n > 0 && z == 0
    ensures ZeroText(n) == EncodeTriple(z, z, z) + ZeroText(n - 1)
  {
    hide Repeat, EncodeTriple, Symbol;
    ZeroTriple(z);
    var m := 4 * (n - 1) + 3;
    RepeatAdd('A', 4, m);
    assert 4 + m == 4 * n + 3;
    Regroup(Repeat('A', 4), Repeat('A', m), "=");
  }

  lemma ZeroLast()
    ensures Encode(Zeros(2)) == ZeroText(0)
  {
    hide Encode, Symbol, Value, InAlphabet;
    EncodeLast(0, 0);
    SymbolZero();
    assert Zeros(2) == [0, 0];
    assert ZeroText(0) == ['A', 'A', 'A', '='];
  }

  lemma {:induction false} EncodingOfZeros(n: nat)
    ensures Encode(Zeros(3 * n + 2)) == ZeroText(n)
  {
    hide Zeros, ZeroText, Encode, EncodeTriple;
    if n > 0 {
      EncodingOfZeros(n - 1);
      ZeroBytes(n);
      var z: Byte := 0;
      ZeroSymbols(n, z);
      EncodeGroup([z, z, z], Zeros(3 * (n - 1) + 2));
    } else {
      ZeroLast();
    }
  }

  lemma ZeroKeyIsZeros()
    ensures ZERO_KEY == Encode(Zeros(32))
  {
    EncodingOfZeros(10);
    hide Encode;
  }

  lemma CharactersArePadded(value: string)
    ensures AcceptedByCharacters(value) <==> IsPaddedText(value, 10) && value != ZERO_KEY
  {
    if |value| == 44 {
      FinalLetters(value[42]);
    }
    hide Value, InAlphabet;
    assert |value| == 44 ==> ((forall i :: 0 <= i < 43 ==> InAlphabet(value[i])) <==>
                              (forall i :: 0 <= i < 42 ==> InAlphabet(value[i])) && InAlphabet(value[42]));
  }

  lemma AllZeroIs(d: seq<Byte>)
    requires |d| == 32
    ensures AllZero(d) <==> d == Zeros(32)
  {
  }

  /** On strings of any length the two validators agree. */
  lemma ValidatorsAgree(value: string)
    ensures AcceptedByCharacters(value) <==> AcceptedByBytes(value)
  {
    hide AcceptedByCharacters, Decode, Encode, IsPaddedText, AllZero, Zeros, Repeat;
    PaddedTextIsCanonical(value, 10);
    CharactersArePadded(value);
    ZeroKeyIsZeros();
    DecodeOfEncode(Zeros(32));
    if IsPaddedText(value, 10) {
      AllZeroIs(Decode(value).value);
    }
  }
}
