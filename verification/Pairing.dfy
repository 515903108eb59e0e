/**
 Pairing codes of internal/broker/pairing.go: sixty random bits printed as twelve base-32 digits, and
 the decoder that forgives separators, case and look-alike letters.
 */
module Pairing {

  type Octet = n: nat | n < 256

  const CROCKFORD: string := "0123456789ABCDEFGHJKMNPQRSTVWXYZ"

  const SIXTY_BITS := 0x1000_0000_0000_0000

  // ---- Positional notation, five or eight bits to a digit ----

  datatype Radix = Five | Eight

  function Size(r: Radix): nat { match r case Five => 32 case Eight => 256 }

  /** A number without its lowest digit: one digit's right shift. */
  function Shift(r: Radix, v: nat): nat { match r case Five => v / 32 case Eight => v / 256 }

  function Low(r: Radix, v: nat): nat { match r case Five => v % 32 case Eight => v % 256 }

  /** A number with a digit behind it: one digit's left shift, and the digit. */
  function Join(r: Radix, v: nat, d: nat): nat { match r case Five => v * 32 + d case Eight => v * 256 + d }

  function ShiftBy(r: Radix, v: nat, k: nat): nat {
    if k == 0 then v else ShiftBy(r, Shift(r, v), k - 1)
  }

  /** How many numbers `n` digits can write. */
  function Range(r: Radix, n: nat): nat { if n == 0 then 1 else Join(r, Range(r, n - 1), 0) }

  /** The lowest `n` digits of a number, highest first. */
  function Numerals(r: Radix, v: nat, n: nat): (ds: seq<nat>)
    ensures |ds| == n && forall i :: 0 <= i < n ==> ds[i] < Size(r)
  {
    if n == 0 then [] else Numerals(r, Shift(r, v), n - 1) + [Low(r, v)]
  }

  function FromNumerals(r: Radix, ds: seq<nat>): nat {
    if ds == [] then 0 else Join(r, FromNumerals(r, ds[..|ds| - 1]), ds[|ds| - 1])
  }

  lemma {:induction false} NumeralsRoundTrip(r: Radix, v: nat, n: nat)
    requires v < Range(r, n)
    ensures FromNumerals(r, Numerals(r, v, n)) == v
  {
    if n > 0 {
      NumeralsRoundTrip(r, Shift(r, v), n - 1);
      assert Numerals(r, v, n)[..n - 1] == Numerals(r, Shift(r, v), n - 1);
    }
  }

  lemma {:induction false} NumeralsUnique(r: Radix, ds: seq<nat>)
    requires forall i :: 0 <= i < |ds| ==> ds[i] < Size(r)
    ensures FromNumerals(r, ds) < Range(r, |ds|)
    ensures Numerals(r, FromNumerals(r, ds), |ds|) == ds
  {
    if ds != [] {
      var front, last := ds[..|ds| - 1], ds[|ds| - 1];
      NumeralsUnique(r, front);
      Joined(r, FromNumerals(r, front), last, Range(r, |front|));
      hide Shift, Low, Join, Size;
    }
  }

  lemma Joined(r: Radix, q: nat, d: nat, p: nat)
    requires d < Size(r) && q < p
    ensures Shift(r, Join(r, q, d)) == q && Low(r, Join(r, q, d)) == d && Join(r, q, d) < Join(r, p, 0)
  {
  }

  lemma {:induction false} NumeralAt(r: Radix, v: nat, n: nat, i: nat)
    requires i < n
    ensures Numerals(r, v, n)[i] == Low(r, ShiftBy(r, v, n - 1 - i))
  {
    if i < n - 1 { NumeralAt(r, Shift(r, v), n - 1, i); }
  }

  lemma Ranges()
    ensures Range(Five, 12) == SIXTY_BITS && Range(Eight, 8) == 16 * SIXTY_BITS
  {
    assert Range(Five, 2) == 0x400;
    assert Range(Five, 4) == 0x10_0000;
    assert Range(Five, 6) == 0x4000_0000;
    assert Range(Five, 8) == 0x100_0000_0000;
    assert Range(Five, 10) == 0x4_0000_0000_0000;
    assert Range(Eight, 2) == 0x1_0000;
    assert Range(Eight, 4) == 0x1_0000_0000;
    assert Range(Eight, 6) == 0x1_0000_0000_0000;
  }

  // ---- Printing ----

  /** The digits' letters. */
  function Letters(ds: seq<nat>): (s: string)
    requires forall i :: 0 <= i < |ds| ==> ds[i] < 32
    ensures |s| == |ds| && forall i :: 0 <= i < |ds| ==> s[i] == CROCKFORD[ds[i]]
  {
    if ds == [] then [] else Letters(ds[..|ds| - 1]) + [CROCKFORD[ds[|ds| - 1]]]
  }

  /** The twelve digits of a sixty-bit value. */
  function Printed(v: nat): string { Letters(Numerals(Five, v, 12)) }

  function Grouped(s: string): string
    requires |s| == 12
  {
    s[..4] + "-" + s[4..8] + "-" + s[8..]
  }

  function Masked(raw: seq<Octet>): seq<Octet>
    requires |raw| == 8
  {
    raw[0 := raw[0] % 16]
  }

  function Bytes(v: nat): (raw: seq<Octet>)
    ensures |raw| == 8
  {
    Numerals(Eight, v, 8)
  }

  /** `raw` stands for eight random bytes. */
  method NewPairingCode(raw: seq<Octet>) returns (code: string, kept: seq<Octet>)
    requires |raw| == 8
    ensures kept == Masked(raw) && kept[0] == raw[0] % 16 && kept[1..] == raw[1..]
    ensures code == Grouped(Printed(FromNumerals(Eight, kept)))
    ensures |code| == 14 && code[4] == '-' && code[9] == '-'
  {
    hide Numerals, ShiftBy, FromNumerals, Low, Letters;
    kept := raw[0 := raw[0] % 16];
    var value := BigEndian(kept);
    var digits := new char[12];
    for index := 0 to 12
      invariant forall i :: 0 <= i < index ==> digits[i] == Printed(value)[i]
    {
      NumeralAt(Five, value, 12, index);
      digits[index] := CROCKFORD[Low(Five, ShiftBy(Five, value, 11 - index))];
    }
    assert digits[..] == Printed(value);
    code := digits[..4] + "-" + digits[4..8] + "-" + digits[8..];
  }

  method BigEndian(raw: seq<Octet>) returns (value: nat)
    ensures value == FromNumerals(Eight, raw)
  {
    value := 0;
    for i := 0 to |raw|
      invariant value == FromNumerals(Eight, raw[..i])
    {
      assert raw[..i + 1][..i] == raw[..i];
      value := value * 256 + raw[i];
    }
    assert raw[..|raw|] == raw;
  }

  // ---- Reading ----

  /** Unicode's upper case and white space. */
  datatype Script = Script(upper: char -> char, space: char -> bool)

  /** What is used of them: upper case of ASCII, and that no dash, digit or letter is white space. */
  ghost predicate Usual(script: Script) {
    && (forall c: char :: c as int < 128 && !('a' <= c <= 'z') ==> script.upper(c) == c)
    && (forall c: char :: 'a' <= c <= 'z' ==> script.upper(c) == (c as int - 32) as char)
    && script.space(' ') && !script.space('-')
    && (forall c: char :: script.space(c) ==> script.upper(c) == c && !('0' <= c <= '9') && !('A' <= c <= 'Z'))
  }

  predicate Separator(c: char) { c == '-' || c == ' ' }

  /** A character's digit letter: upper case, and look-alikes resolved. */
  function Fold(script: Script, c: char): char {
    var u := script.upper(c);
    if u == 'O' then '0' else if u == 'I' || u == 'L' then '1' else u
  }

  /** strings.Map with the folding: separators go, everything else is folded. */
  function Folded(script: Script, s: string): string {
    if s == [] then []
    else
      var last := s[|s| - 1];
      Folded(script, s[..|s| - 1]) + if Separator(last) then [] else [Fold(script, last)]
  }

  function TrimLeft(script: Script, s: string): string {
    if s == [] || !script.space(s[0]) then s else TrimLeft(script, s[1..])
  }

  function TrimRight(script: Script, s: string): string {
    if s == [] || !script.space(s[|s| - 1]) then s else TrimRight(script, s[..|s| - 1])
  }

  function Trim(script: Script, s: string): string { TrimRight(script, TrimLeft(script, s)) }

  function Cleaned(script: Script, code: string): string { Folded(script, Trim(script, code)) }

  /** The UTF-8 bytes of a character. */
  function Utf8Char(c: char): (bs: seq<Octet>)
    ensures bs != []
  {
    var n := c as int;
    if n < 0x80 then [n]
    else if n < 0x800 then [0xc0 + n / 0x40, 0x80 + n % 0x40]
    else if n < 0x1_0000 then [0xe0 + n / 0x1000, 0x80 + n / 0x40 % 0x40, 0x80 + n % 0x40]
    else [0xf0 + n / 0x4_0000, 0x80 + n / 0x1000 % 0x40, 0x80 + n / 0x40 % 0x40, 0x80 + n % 0x40]
  }

  function Utf8(s: string): seq<Octet> {
    if s == [] then [] else Utf8(s[..|s| - 1]) + Utf8Char(s[|s| - 1])
  }

  /** The first index of a byte in a string, or -1. */
  function IndexByte(s: string, b: Octet): (at: int)
    ensures -1 <= at < |s|
  {
    if s == [] then -1
    else if s[0] as int == b then 0
    else
      var rest := IndexByte(s[1..], b);
      if rest < 0 then -1 else rest + 1
  }

  lemma {:induction false} IndexByteIs(s: string, b: Octet)
    ensures var at := IndexByte(s, b);
            if at < 0 then forall i :: 0 <= i < |s| ==> s[i] as int != b else s[at] as int == b
  {
    if s != [] {
      var rest := s[1..];
      IndexByteIs(rest, b);
      assert forall i :: 1 <= i < |s| ==> s[i] == rest[i - 1];
    }
  }

  function Digit(b: Octet): (d: int)
    ensures -1 <= d < 32
  {
    IndexByte(CROCKFORD, b)
  }

  /** A byte's digit is its place in the alphabet, and a byte without one is not in it. */
  lemma DigitIs(b: Octet)
    ensures var d := Digit(b);
            if d < 0 then forall i :: 0 <= i < 32 ==> CROCKFORD[i] as int != b else CROCKFORD[d] as int == b
  {
    IndexByteIs(CROCKFORD, b);
    hide IndexByte;
  }

  datatype Decoded = Raw(bytes: seq<Octet>) | NotADigit | NotAV1Digit | WrongLength(n: nat)

  predicate AllDigits(bs: seq<Octet>) { forall i :: 0 <= i < |bs| ==> Digit(bs[i]) >= 0 }

  function Digits(bs: seq<Octet>): (ds: seq<nat>)
    requires AllDigits(bs)
    ensures |ds| == |bs| && forall i :: 0 <= i < |bs| ==> ds[i] == Digit(bs[i]) && ds[i] < 32
  {
    hide Digit;
    if bs == [] then [] else Digits(bs[..|bs| - 1]) + [Digit(bs[|bs| - 1])]
  }

  predicate V1Digits(ds: seq<nat>) { forall i :: 0 <= i < |ds| ==> ds[i] <= 15 }

  /** Two digits to a byte. */
  function Pairs(ds: seq<nat>): (raw: seq<Octet>)
    requires |ds| % 2 == 0 && V1Digits(ds)
    ensures |raw| == |ds| / 2
  {
    seq(|ds| / 2, i requires 0 <= i < |ds| / 2 => 16 * ds[2 * i] + ds[2 * i + 1])
  }

  function DecodeBytes(bs: seq<Octet>): Decoded {
    if |bs| == 12 then
      if AllDigits(bs) then Raw(Bytes(FromNumerals(Five, Digits(bs)))) else NotADigit
    else if |bs| != 40 then WrongLength(|bs|)
    else if AllDigits(bs) && V1Digits(Digits(bs)) then Raw(Pairs(Digits(bs)))
    else NotAV1Digit
  }

  /** DecodePairingCode. */
  function Decode(script: Script, code: string): Decoded { DecodeBytes(Utf8(Cleaned(script, code))) }

  // ---- The alphabet ----

  lemma Ascending(i: nat, j: nat)
    requires i < j < 32
    ensures CROCKFORD[i] < CROCKFORD[j]
    decreases j
  {
    if i < j - 1 { Ascending(i, j - 1); }
  }

  lemma AlphabetSize() ensures |CROCKFORD| == 32 {}

  lemma DigitOf(d: nat)
    requires d < 32
    ensures CROCKFORD[d] as int < 128 && Digit(CROCKFORD[d] as int) == d
  {
    hide *;
    AlphabetSize();
    var c := CROCKFORD[d];
    Plain(c);
    DigitIs(c as int);
    var at := Digit(c as int);
    if 0 <= at < d {
      Ascending(at, d);
    } else if d < at {
      Ascending(d, at);
    }
  }

  lemma Plain(c: char)
    requires c in CROCKFORD
    ensures ('0' <= c <= '9' || 'A' <= c <= 'Z') && c != 'O' && c != 'I' && c != 'L' && c != 'U'
  {
  }

  /** The alphabet is the digits and the capital letters but I, L, O and U, in that order. */
  lemma AlphabetIs(c: char)
    ensures c in CROCKFORD <==> '0' <= c <= '9' || ('A' <= c <= 'Z' && c != 'I' && c != 'L' && c != 'O' && c != 'U')
    ensures forall i, j :: 0 <= i < j < 32 ==> CROCKFORD[i] < CROCKFORD[j]
  {
    forall i, j | 0 <= i < j < 32 ensures CROCKFORD[i] < CROCKFORD[j] {
      Ascending(i, j);
    }
    if c in CROCKFORD {
      Plain(c);
    }
    if '0' <= c <= '9' || 'A' <= c <= 'H' {
      LowDigits(c);
    } else if 'J' <= c <= 'N' && c != 'L' {
      MiddleDigits(c);
    } else if 'P' <= c <= 'Z' && c != 'U' {
      HighDigits(c);
    }
    hide CROCKFORD;
  }

  lemma LowDigits(c: char)
    requires '0' <= c <= '9' || 'A' <= c <= 'H'
    ensures c in CROCKFORD
  {
    var d := if c <= '9' then c as int - 48 else c as int - 55;
    assert c == CROCKFORD[d];
  }

  lemma MiddleDigits(c: char)
    requires 'J' <= c <= 'N' && c != 'L'
    ensures c in CROCKFORD
  {
    var d := if c <= 'K' then c as int - 56 else c as int - 57;
    assert c == CROCKFORD[d];
  }

  lemma HighDigits(c: char)
    requires 'P' <= c <= 'Z' && c != 'U'
    ensures c in CROCKFORD
  {
    var d := if c <= 'T' then c as int - 58 else c as int - 59;
    assert c == CROCKFORD[d];
  }

  /** Digits and bytes are written highest first. */
  lemma HighestFirst(ds: seq<nat>, d: nat)
    ensures FromNumerals(Five, ds + [d]) == 32 * FromNumerals(Five, ds) + d
    ensures FromNumerals(Eight, ds + [d]) == 256 * FromNumerals(Eight, ds) + d
    ensures FromNumerals(Five, []) == FromNumerals(Eight, []) == 0
  {
    assert (ds + [d])[..|ds|] == ds;
  }

  lemma {:induction false} FoldedAppend(script: Script, a: string, b: string)
    ensures Folded(script, a + b) == Folded(script, a) + Folded(script, b)
  {
    if b == [] {
      assert a + b == a;
    } else {
      assert (a + b)[..|a + b| - 1] == a + b[..|b| - 1];
      FoldedAppend(script, a, b[..|b| - 1]);
    }
  }

  // ---- Round trip ----

  /** Every character is one of the alphabet. */
  ghost predicate Alphabetic(s: string) { forall i :: 0 <= i < |s| ==> s[i] in CROCKFORD }

  lemma AlphabeticLast(s: string)
    requires Alphabetic(s) && s != []
    ensures var last := s[|s| - 1];
            && Alphabetic(s[..|s| - 1]) && s == s[..|s| - 1] + [last] && last in CROCKFORD
            && Utf8(s) == Utf8(s[..|s| - 1]) + [last as int]
  {
    hide *;
    AlphabeticParts(s);
    OneByte(s[|s| - 1]);
    Utf8Last(s);
  }

  lemma AlphabeticParts(s: string)
    requires Alphabetic(s) && s != []
    ensures Alphabetic(s[..|s| - 1]) && s[|s| - 1] in CROCKFORD && s == s[..|s| - 1] + [s[|s| - 1]]
  {
    hide CROCKFORD;
  }

  lemma Utf8Last(s: string)
    requires s != []
    ensures Utf8(s) == Utf8(s[..|s| - 1]) + Utf8Char(s[|s| - 1])
  {
    hide Utf8Char;
  }

  lemma OneByte(c: char)
    requires c in CROCKFORD
    ensures Utf8Char(c) == [c as int]
  {
    Plain(c);
    hide CROCKFORD;
  }

  lemma FoldsToItself(script: Script, c: char)
    requires Usual(script) && c in CROCKFORD
    ensures !Separator(c) && Fold(script, c) == c
  {
    hide CROCKFORD;
    Plain(c);
  }

  lemma {:induction false} FoldedAlphabetic(script: Script, s: string)
    requires Usual(script) && Alphabetic(s)
    ensures Folded(script, s) == s
  {
    hide CROCKFORD, Alphabetic, Usual, Utf8, Fold, Separator;
    if s != [] {
      AlphabeticLast(s);
      FoldsToItself(script, s[|s| - 1]);
      FoldedAlphabetic(script, s[..|s| - 1]);
    }
  }

  lemma {:induction false} Utf8Alphabetic(s: string)
    requires Alphabetic(s)
    ensures |Utf8(s)| == |s| && forall i :: 0 <= i < |s| ==> Utf8(s)[i] == s[i] as int
  {
    hide CROCKFORD, Alphabetic;
    if s != [] {
      AlphabeticLast(s);
      Utf8Alphabetic(s[..|s| - 1]);
      hide Utf8;
    }
  }

  lemma LettersAlphabetic(ds: seq<nat>)
    requires forall i :: 0 <= i < |ds| ==> ds[i] < 32
    ensures Alphabetic(Letters(ds))
  {
    var s := Letters(ds);
    forall i | 0 <= i < |s| ensures s[i] in CROCKFORD {
      assert s[i] == CROCKFORD[ds[i]];
    }
    hide CROCKFORD;
  }

  /** The digits of letters are the digits they were made from. */
  lemma DigitsOfLetters(ds: seq<nat>)
    requires forall i :: 0 <= i < |ds| ==> ds[i] < 32
    ensures var bs := Utf8(Letters(ds));
            && |bs| == |ds| && (forall i :: 0 <= i < |bs| ==> Digit(bs[i]) == ds[i])
            && Digits(bs) == ds
  {
    LettersAlphabetic(ds);
    Utf8Alphabetic(Letters(ds));
    var bs := Utf8(Letters(ds));
    forall i | 0 <= i < |bs| ensures Digit(bs[i]) == ds[i] {
      DigitOf(ds[i]);
    }
    hide CROCKFORD, Utf8, Letters, Digit;
  }

  lemma DecodePrinted(v: nat)
    requires v < SIXTY_BITS
    ensures DecodeBytes(Utf8(Printed(v))) == Raw(Bytes(v))
  {
    Ranges();
    var ds := Numerals(Five, v, 12);
    DigitsOfLetters(ds);
    NumeralsRoundTrip(Five, v, 12);
    hide Utf8, Letters, Digit, Numerals, FromNumerals, Digits;
  }

  lemma MaskedBelow(raw: seq<Octet>)
    requires |raw| == 8 && raw[0] < 16
    ensures FromNumerals(Eight, raw) < SIXTY_BITS && Bytes(FromNumerals(Eight, raw)) == raw
  {
    NumeralsUnique(Eight, raw);
    FirstByte(raw);
    hide FromNumerals, Numerals;
  }

  lemma TopByte(v: nat)
    requires v < 16 * SIXTY_BITS
    ensures Low(Eight, ShiftBy(Eight, v, 7)) < 16 <==> v < SIXTY_BITS
  {
    var a := v / 0x100;
    var b := a / 0x100;
    var c := b / 0x100;
    var d := c / 0x100;
    var e := d / 0x100;
    var f := e / 0x100;
    var g := f / 0x100;
    assert ShiftBy(Eight, f, 1) == g;
    assert ShiftBy(Eight, e, 2) == g;
    assert ShiftBy(Eight, d, 3) == g;
    assert ShiftBy(Eight, c, 4) == g;
    assert ShiftBy(Eight, b, 5) == g;
    assert ShiftBy(Eight, a, 6) == g;
    assert ShiftBy(Eight, v, 7) == g;
    hide ShiftBy;
    assert g < 256;
  }

  lemma FirstByte(raw: seq<Octet>)
    requires |raw| == 8
    ensures raw[0] < 16 <==> FromNumerals(Eight, raw) < SIXTY_BITS
  {
    Ranges();
    NumeralsUnique(Eight, raw);
    NumeralAt(Eight, FromNumerals(Eight, raw), 8, 0);
    TopByte(FromNumerals(Eight, raw));
    hide Numerals, FromNumerals, ShiftBy, Range;
  }

  lemma {:induction false} TrimNone(script: Script, s: string)
    requires s != [] && !script.space(s[0]) && !script.space(s[|s| - 1])
    ensures Trim(script, s) == s
  {
  }

  lemma FoldedGrouped(script: Script, a: string, b: string, c: string)
    requires Usual(script) && Alphabetic(a) && Alphabetic(b) && Alphabetic(c)
    ensures Folded(script, a + "-" + b + "-" + c) == a + b + c
  {
    DashFolds(script);
    hide *;
    FoldedAppend(script, a + "-" + b + "-", c);
    FoldedAppend(script, a + "-" + b, "-");
    FoldedAppend(script, a + "-", b);
    FoldedAppend(script, a, "-");
    FoldedAlphabetic(script, a);
    FoldedAlphabetic(script, b);
    FoldedAlphabetic(script, c);
  }

  lemma DashFolds(script: Script)
    ensures Folded(script, "-") == []
  {
  }

  lemma TrimGrouped(script: Script, s: string)
    requires Usual(script) && Alphabetic(s) && |s| == 12
    ensures Trim(script, Grouped(s)) == Grouped(s)
  {
    var code := Grouped(s);
    assert code[0] == s[0] && code[|code| - 1] == s[11];
    Plain(s[0]);
    Plain(s[11]);
    hide CROCKFORD, Grouped, Alphabetic, Trim;
    TrimNone(script, code);
  }

  lemma AlphabeticPart(s: string, i: nat, j: nat)
    requires Alphabetic(s) && i <= j <= |s|
    ensures Alphabetic(s[i..j])
  {
    hide CROCKFORD;
  }

  lemma GroupedCleaned(script: Script, s: string)
    requires Usual(script) && Alphabetic(s) && |s| == 12
    ensures Cleaned(script, Grouped(s)) == s
  {
    hide CROCKFORD, Alphabetic, Usual, Trim, Folded;
    TrimGrouped(script, s);
    AlphabeticPart(s, 0, 4);
    AlphabeticPart(s, 4, 8);
    AlphabeticPart(s, 8, 12);
    assert s[0..4] == s[..4] && s[8..12] == s[8..];
    FoldedGrouped(script, s[..4], s[4..8], s[8..]);
    assert s == s[..4] + s[4..8] + s[8..];
  }

  /** What NewPairingCode prints for any eight random bytes decodes to exactly the bytes it keeps. */
  lemma RoundTrip(script: Script, raw: seq<Octet>)
    requires Usual(script) && |raw| == 8
    ensures var kept := Masked(raw);
            && kept[0] < 16
            && Decode(script, Grouped(Printed(FromNumerals(Eight, kept)))) == Raw(kept)
  {
    var kept := Masked(raw);
    var v := FromNumerals(Eight, kept);
    MaskedBelow(kept);
    LettersAlphabetic(Numerals(Five, v, 12));
    GroupedCleaned(script, Printed(v));
    DecodePrinted(v);
    hide *;
  }

  // ---- Which codes decode, and to what ----

  lemma DigitPlain(b: Octet)
    requires Digit(b) >= 0
    ensures b < 128 && b as char in CROCKFORD
  {
    DigitIs(b);
    hide Digit;
    var c := CROCKFORD[Digit(b)];
    Plain(c);
    hide CROCKFORD;
  }

  lemma {:induction false} DigitsAlphabetic(s: string)
    requires forall i :: 0 <= i < |Utf8(s)| ==> Digit(Utf8(s)[i]) >= 0
    ensures Alphabetic(s)
  {
    hide CROCKFORD, Digit;
    if s != [] {
      var front, last := s[..|s| - 1], s[|s| - 1];
      assert Utf8(s) == Utf8(front) + Utf8Char(last);
      assert forall i :: 0 <= i < |Utf8(front)| ==> Utf8(front)[i] == Utf8(s)[i];
      DigitsAlphabetic(front);
      assert Utf8(s)[|Utf8(front)|] == Utf8Char(last)[0];
      DigitPlain(Utf8Char(last)[0]);
      assert last as int == Utf8Char(last)[0];
    }
  }

  lemma LettersOfDigits(s: string)
    requires Alphabetic(s) && forall i :: 0 <= i < |Utf8(s)| ==> Digit(Utf8(s)[i]) >= 0
    ensures Letters(Digits(Utf8(s))) == s
  {
    hide CROCKFORD, Digit;
    Utf8Alphabetic(s);
    var ds := Digits(Utf8(s));
    forall i | 0 <= i < |s| ensures Letters(ds)[i] == s[i] {
      DigitIs(s[i] as int);
    }
    hide Utf8, Letters, Digits;
  }

  /**
   A code is accepted as twelve digits exactly when, cleaned, it is what is printed for a sixty-bit
   value; it decodes to that value's bytes, so the top four bits are always clear.
   */
  lemma TwelveDigitCodes(script: Script, code: string, raw: seq<Octet>)
    requires |raw| == 8
    ensures Decode(script, code) == Raw(raw) <==>
              raw[0] < 16 && Cleaned(script, code) == Printed(FromNumerals(Eight, raw))
  {
    var cleaned := Cleaned(script, code);
    hide Cleaned, Printed, FromNumerals;
    if Decode(script, code) == Raw(raw) {
      AcceptedIsPrinted(cleaned, raw);
    }
    if raw[0] < 16 && cleaned == Printed(FromNumerals(Eight, raw)) {
      MaskedBelow(raw);
      DecodePrinted(FromNumerals(Eight, raw));
    }
    hide *;
  }

  lemma AcceptedIsPrinted(s: string, raw: seq<Octet>)
    requires |raw| == 8 && DecodeBytes(Utf8(s)) == Raw(raw)
    ensures raw[0] < 16 && s == Printed(FromNumerals(Eight, raw))
  {
    AcceptedTwelve(s, raw);
    hide DecodeBytes, CROCKFORD, Utf8, Digits, Letters, Numerals, FromNumerals, Range, Digit, Alphabetic;
    var ds := Digits(Utf8(s));
    DigitsAlphabetic(s);
    LettersOfDigits(s);
    Ranges();
    NumeralsUnique(Five, ds);
    var v := FromNumerals(Five, ds);
    NumeralsRoundTrip(Eight, v, 8);
    FirstByte(raw);
  }

  lemma AcceptedTwelve(s: string, raw: seq<Octet>)
    requires |raw| == 8 && DecodeBytes(Utf8(s)) == Raw(raw)
    ensures var bs := Utf8(s);
            && |bs| == 12 && (forall i :: 0 <= i < 12 ==> Digit(bs[i]) >= 0)
            && raw == Bytes(FromNumerals(Five, Digits(bs)))
  {
    hide Utf8, Numerals, FromNumerals, Digits, Digit;
  }

  lemma PairsAre(bs: seq<Octet>)
    requires |bs| == 40 && forall i :: 0 <= i < 40 ==> 0 <= Digit(bs[i]) <= 15
    ensures AllDigits(bs) && V1Digits(Digits(bs))
    ensures var raw := Pairs(Digits(bs));
            |raw| == 20 && forall i :: 0 <= i < 20 ==> raw[i] == 16 * Digit(bs[2 * i]) + Digit(bs[2 * i + 1])
  {
    hide Digit;
    var ds := Digits(bs);
    hide Digits;
    assert forall i :: 0 <= i < 20 ==> Pairs(ds)[i] == 16 * ds[2 * i] + ds[2 * i + 1];
  }

  lemma SmallDigits(bs: seq<Octet>)
    requires |bs| == 40 && AllDigits(bs) && V1Digits(Digits(bs))
    ensures forall i :: 0 <= i < 40 ==> 0 <= Digit(bs[i]) <= 15
  {
    hide Digit;
    var ds := Digits(bs);
    hide Digits;
    assert forall i :: 0 <= i < 40 ==> ds[i] == Digit(bs[i]);
  }

  /** A code of the first version: forty digits below sixteen, two to a byte, the higher half first. */
  lemma FortyDigitCodes(script: Script, code: string, raw: seq<Octet>)
    requires |raw| == 20
    ensures var bs := Utf8(Cleaned(script, code));
            Decode(script, code) == Raw(raw) <==>
              && |bs| == 40 && (forall i :: 0 <= i < 40 ==> 0 <= Digit(bs[i]) <= 15)
              && forall i :: 0 <= i < 20 ==> raw[i] == 16 * Digit(bs[2 * i]) + Digit(bs[2 * i + 1])
  {
    var bs := Utf8(Cleaned(script, code));
    hide Cleaned, Utf8, Digit, FromNumerals, Digits, AllDigits, V1Digits, Pairs;
    if |bs| == 40 && AllDigits(bs) && V1Digits(Digits(bs)) { SmallDigits(bs); }
    if |bs| == 40 && forall i :: 0 <= i < 40 ==> 0 <= Digit(bs[i]) <= 15 {
      PairsAre(bs);
      assert raw == Pairs(Digits(bs)) <==> forall i :: 0 <= i < 20 ==> raw[i] == Pairs(Digits(bs))[i];
    }
  }

  // ---- The decoder's loops ----

  method DecodePairingCode(script: Script, code: string) returns (r: Decoded)
    ensures r == Decode(script, code)
  {
    hide Utf8, Digit, FromNumerals, Digits, Numerals;
    var cleaned := Utf8(Cleaned(script, code));
    if |cleaned| == 12 {
      r := DecodeTwelve(cleaned);
      return;
    }
    if |cleaned| != 40 {
      return WrongLength(|cleaned|);
    }
    r := DecodeForty(cleaned);
  }

  method DecodeTwelve(cleaned: seq<Octet>) returns (r: Decoded)
    requires |cleaned| == 12
    ensures r == DecodeBytes(cleaned)
  {
    hide Digit;
    var value := 0;
    for i := 0 to 12
      invariant AllDigits(cleaned[..i]) && value == FromNumerals(Five, Digits(cleaned[..i]))
    {
      var index := Digit(cleaned[i]);
      if index < 0 {
        return NotADigit;
      }
      DigitsStep(cleaned, i);
      value := value * 32 + index;
    }
    assert cleaned[..12] == cleaned;
    r := Raw(Bytes(value));
  }

  lemma DigitsStep(bs: seq<Octet>, i: nat)
    requires i < |bs| && AllDigits(bs[..i]) && Digit(bs[i]) >= 0
    ensures AllDigits(bs[..i + 1])
    ensures FromNumerals(Five, Digits(bs[..i + 1])) == FromNumerals(Five, Digits(bs[..i])) * 32 + Digit(bs[i])
  {
    hide Digit;
    var more := bs[..i + 1];
    assert more[..i] == bs[..i];
    assert forall k :: 0 <= k < i ==> more[k] == bs[..i][k];
    var ds := Digits(more);
    assert ds == Digits(bs[..i]) + [Digit(bs[i])];
    assert ds[..i] == Digits(bs[..i]);
  }

  method DecodeForty(cleaned: seq<Octet>) returns (r: Decoded)
    requires |cleaned| == 40
    ensures r == DecodeBytes(cleaned)
  {
    hide Digit, DecodeBytes;
    var raw: seq<Octet> := [];
    var index := 0;
    while index < 40
      invariant 0 <= index <= 40 && index % 2 == 0 && |raw| == index / 2
      invariant forall k :: 0 <= k < index ==> 0 <= Digit(cleaned[k]) <= 15
      invariant forall k :: 0 <= k < |raw| ==> raw[k] == 16 * Digit(cleaned[2 * k]) + Digit(cleaned[2 * k + 1])
    {
      var high, low := Digit(cleaned[index]), Digit(cleaned[index + 1]);
      if high < 0 || high > 15 || low < 0 || low > 15 {
        NotAllV1(cleaned, if high < 0 || high > 15 then index else index + 1);
        return NotAV1Digit;
      }
      raw := raw + [16 * high + low];
      index := index + 2;
    }
    AllV1(cleaned, raw);
    r := Raw(raw);
  }

  lemma AllV1(bs: seq<Octet>, raw: seq<Octet>)
    requires |bs| == 40 && |raw| == 20
    requires forall k :: 0 <= k < 40 ==> 0 <= Digit(bs[k]) <= 15
    requires forall k :: 0 <= k < 20 ==> raw[k] == 16 * Digit(bs[2 * k]) + Digit(bs[2 * k + 1])
    ensures DecodeBytes(bs) == Raw(raw)
  {
    hide Digit;
    assert AllDigits(bs) && V1Digits(Digits(bs));
    assert raw == Pairs(Digits(bs));
  }

  lemma NotAllV1(bs: seq<Octet>, i: nat)
    requires i < |bs| && !(0 <= Digit(bs[i]) <= 15)
    requires |bs| == 40
    ensures DecodeBytes(bs) == NotAV1Digit
  {
    hide Digit;
    if AllDigits(bs) {
      assert Digits(bs)[i] == Digit(bs[i]);
    }
  }
}
