/**
 How a pairing code may be spelled: what DecodePairingCode of internal/broker/pairing.go makes of
 separators, white space, case and look-alike letters.
 */
module PairingSpelling {
  import opened Pairing

  ghost predicate Blank(script: Script, s: string) { forall i :: 0 <= i < |s| ==> script.space(s[i]) }

  lemma BlankStep(script: Script, s: string)
    requires s != []
    ensures Blank(script, s) <==> script.space(s[0]) && Blank(script, s[1..])
    ensures Blank(script, s) <==> Blank(script, s[..|s| - 1]) && script.space(s[|s| - 1])
  {
    assert s == [s[0]] + s[1..];
    assert s == s[..|s| - 1] + [s[|s| - 1]];
  }

  lemma {:induction false} TrimLeftAppend(script: Script, x: string, y: string)
    ensures TrimLeft(script, x + y) == if Blank(script, x) then TrimLeft(script, y) else TrimLeft(script, x) + y
  {
    if x == [] {
      assert x + y == y;
    } else {
      assert (x + y)[1..] == x[1..] + y;
      BlankStep(script, x);
      hide Blank;
      TrimLeftAppend(script, x[1..], y);
    }
  }

  lemma {:induction false} TrimRightAppend(script: Script, x: string, y: string)
    ensures TrimRight(script, x + y) == if Blank(script, y) then TrimRight(script, x) else x + TrimRight(script, y)
  {
    if y == [] {
      assert x + y == x;
    } else {
      assert (x + y)[..|x + y| - 1] == x + y[..|y| - 1];
      BlankStep(script, y);
      hide Blank;
      TrimRightAppend(script, x, y[..|y| - 1]);
    }
  }

  lemma {:induction false} TrimLeftBlank(script: Script, s: string)
    ensures Blank(script, s) ==> TrimLeft(script, s) == []
    ensures !Blank(script, s) ==> !Blank(script, TrimLeft(script, s))
  {
    if s != [] {
      BlankStep(script, s);
      hide Blank;
      TrimLeftBlank(script, s[1..]);
    }
  }

  lemma {:induction false} TrimRightBlank(script: Script, s: string)
    ensures Blank(script, s) ==> TrimRight(script, s) == []
    ensures !Blank(script, s) ==> !Blank(script, TrimRight(script, s))
  {
    if s != [] {
      BlankStep(script, s);
      hide Blank;
      TrimRightBlank(script, s[..|s| - 1]);
    }
  }

  /** Around a character that is not white space, the two sides are trimmed and folded on their own. */
  lemma CleanedAround(script: Script, x: string, c: char, y: string)
    requires !script.space(c)
    ensures Cleaned(script, x + [c] + y) ==
            Folded(script, TrimLeft(script, x)) + Folded(script, [c]) + Folded(script, TrimRight(script, y))
  {
    TrimAround(script, x, c, y);
    var l, r := TrimLeft(script, x), TrimRight(script, y);
    FoldedAppend(script, l + [c], r);
    FoldedAppend(script, l, [c]);
    hide *;
    CleanedIs(script, x + [c] + y);
  }

  lemma CleanedIs(script: Script, s: string)
    ensures Cleaned(script, s) == Folded(script, Trim(script, s))
  {
  }

  lemma TrimAround(script: Script, x: string, c: char, y: string)
    requires !script.space(c)
    ensures Trim(script, x + [c] + y) == TrimLeft(script, x) + [c] + TrimRight(script, y)
  {
    hide TrimLeft, TrimRight;
    LeftAround(script, x, c, y);
    RightAround(script, TrimLeft(script, x), c, y);
  }

  lemma LeftAround(script: Script, x: string, c: char, y: string)
    requires !script.space(c)
    ensures TrimLeft(script, x + [c] + y) == TrimLeft(script, x) + [c] + y
  {
    assert TrimLeft(script, [c] + y) == [c] + y;
    TrimLeftAppend(script, x, [c] + y);
    TrimLeftBlank(script, x);
    hide *;
    assert x + [c] + y == x + ([c] + y);
    assert [] + ([c] + y) == [] + [c] + y;
  }

  lemma RightAround(script: Script, l: string, c: char, y: string)
    requires !script.space(c)
    ensures TrimRight(script, l + [c] + y) == l + [c] + TrimRight(script, y)
  {
    assert TrimRight(script, l + [c]) == l + [c];
    TrimRightAppend(script, l + [c], y);
    TrimRightBlank(script, y);
    hide *;
    assert l + [c] + [] == l + [c];
  }

  /** Two characters the decoder takes for the same digit. */
  predicate Alike(script: Script, c: char, d: char) {
    !script.space(c) && !script.space(d) && Separator(c) == Separator(d)
        && (Separator(c) || Fold(script, c) == Fold(script, d))
  }

  /** Either case of a letter, the letter O and zero, and the letters I and L and one are alike. */
  lemma AlikeLetters(script: Script, c: char)
    requires Usual(script)
    ensures 'a' <= c <= 'z' ==> Alike(script, c, (c as int - 32) as char)
    ensures Alike(script, 'O', '0') && Alike(script, 'o', '0')
    ensures Alike(script, 'I', '1') && Alike(script, 'i', '1') && Alike(script, 'L', '1') && Alike(script, 'l', '1')
  {
  }

  lemma AlikeDecodes(script: Script, x: string, c: char, d: char, y: string)
    requires Alike(script, c, d)
    ensures Decode(script, x + [c] + y) == Decode(script, x + [d] + y)
  {
    FoldedOne(script, c);
    FoldedOne(script, d);
    hide Cleaned, Folded, TrimLeft, TrimRight, DecodeBytes, Fold;
    CleanedAround(script, x, c, y);
    CleanedAround(script, x, d, y);
  }

  lemma FoldedOne(script: Script, c: char)
    ensures Folded(script, [c]) == if Separator(c) then [] else [Fold(script, c)]
  {
    assert [c][..0] == [];
  }

  ghost predicate Respelled(script: Script, a: string, b: string) {
    |a| == |b| && forall i :: 0 <= i < |a| ==> a[i] == b[i] || Alike(script, a[i], b[i])
  }

  lemma {:induction false} RespelledUpTo(script: Script, a: string, b: string, k: nat)
    requires Respelled(script, a, b) && k <= |a|
    ensures Decode(script, b[..k] + a[k..]) == Decode(script, a)
  {
    hide Decode, Alike;
    if k == 0 {
      assert b[..0] + a[0..] == a;
    } else {
      RespelledUpTo(script, a, b, k - 1);
      var x, y := b[..k - 1], a[k..];
      assert b[..k - 1] + a[k - 1..] == x + [a[k - 1]] + y;
      assert b[..k] + a[k..] == x + [b[k - 1]] + y;
      if a[k - 1] != b[k - 1] {
        AlikeDecodes(script, x, a[k - 1], b[k - 1], y);
      }
    }
  }

  /** Changing case and look-alikes anywhere in a code changes nothing. */
  lemma RespelledDecodes(script: Script, a: string, b: string)
    requires Respelled(script, a, b)
    ensures Decode(script, a) == Decode(script, b)
  {
    RespelledUpTo(script, a, b, |a|);
    assert b[..|a|] + a[|a|..] == b;
  }

  // ---- Separators ----

  lemma SpaceFolds(script: Script)
    ensures Folded(script, " ") == []
  {
    FoldedOne(script, ' ');
  }

  /** A space put in or taken out anywhere changes nothing. */
  lemma SpaceAnywhere(script: Script, x: string, y: string)
    requires script.space(' ')
    ensures Decode(script, x + " " + y) == Decode(script, x + y)
  {
    SpaceCleaned(script, x, y);
    hide Cleaned, DecodeBytes;
  }

  lemma BlankSpace(script: Script, y: string)
    requires script.space(' ')
    ensures Blank(script, " " + y) <==> Blank(script, y)
    ensures TrimLeft(script, " " + y) == TrimLeft(script, y)
  {
    BlankStep(script, " " + y);
    assert (" " + y)[1..] == y;
  }

  lemma SpaceCleaned(script: Script, x: string, y: string)
    requires script.space(' ')
    ensures Cleaned(script, x + " " + y) == Cleaned(script, x + y)
  {
    var l := TrimLeft(script, x);
    BlankSpace(script, y);
    hide TrimLeft, TrimRight, Folded, Blank;
    assert x + " " + y == x + (" " + y);
    TrimLeftAppend(script, x, " " + y);
    TrimLeftAppend(script, x, y);
    if !Blank(script, x) {
      SpaceTrimmed(script, l, y);
    }
  }

  lemma SpaceTrimmed(script: Script, l: string, y: string)
    requires script.space(' ')
    ensures Folded(script, TrimRight(script, l + (" " + y))) == Folded(script, TrimRight(script, l + y))
  {
    BlankSpace(script, y);
    hide *;
    TrimRightAppend(script, l, " " + y);
    TrimRightAppend(script, l, y);
    if !Blank(script, y) {
      var r := TrimRight(script, y);
      TrimRightAppend(script, " ", y);
      SpaceDropped(script, l, r);
    }
  }

  lemma SpaceDropped(script: Script, l: string, r: string)
    ensures Folded(script, l + (" " + r)) == Folded(script, l + r)
  {
    hide *;
    SpaceFolds(script);
    FoldedAppend(script, l, " " + r);
    FoldedAppend(script, " ", r);
    FoldedAppend(script, l, r);
    var f := Folded(script, r);
    assert [] + f == f;
  }

  /** The white space a string begins with, and the white space it ends with. */
  function Lead(script: Script, s: string): string {
    if s == [] || !script.space(s[0]) then [] else [s[0]] + Lead(script, s[1..])
  }

  function Trail(script: Script, s: string): string {
    if s == [] || !script.space(s[|s| - 1]) then [] else Trail(script, s[..|s| - 1]) + [s[|s| - 1]]
  }

  lemma {:induction false} LeadIs(script: Script, s: string)
    ensures s == Lead(script, s) + TrimLeft(script, s) && Blank(script, Lead(script, s))
  {
    if s != [] && script.space(s[0]) {
      LeadIs(script, s[1..]);
      var lead := Lead(script, s);
      assert lead[1..] == Lead(script, s[1..]) && s == [s[0]] + s[1..];
    }
  }

  lemma {:induction false} TrailIs(script: Script, s: string)
    ensures s == TrimRight(script, s) + Trail(script, s) && Blank(script, Trail(script, s))
  {
    if s != [] && script.space(s[|s| - 1]) {
      TrailIs(script, s[..|s| - 1]);
      assert s == s[..|s| - 1] + [s[|s| - 1]];
    }
  }

  predicate OnlySpaces(s: string) { forall i :: 0 <= i < |s| ==> s[i] == ' ' }

  lemma {:induction false} FoldedWhite(script: Script, s: string)
    requires Usual(script) && Blank(script, s)
    ensures OnlySpaces(s) ==> Folded(script, s) == []
    ensures !OnlySpaces(s) ==> !Alphabetic(Folded(script, s))
  {
    hide CROCKFORD;
    if s != [] {
      var front, last := s[..|s| - 1], s[|s| - 1];
      FoldedWhite(script, front);
      assert OnlySpaces(s) <==> OnlySpaces(front) && last == ' ';
      if last != ' ' {
        WhiteFolds(script, last);
        var f := Folded(script, s);
        assert f[|f| - 1] == last;
      } else if !OnlySpaces(front) {
        assert Folded(script, s) == Folded(script, front);
      }
    }
  }

  lemma WhiteFolds(script: Script, c: char)
    requires Usual(script) && script.space(c)
    ensures c !in CROCKFORD && Fold(script, c) == c && c != '-'
  {
    if c in CROCKFORD {
      Plain(c);
      assert false;
    }
  }

  lemma AlphabeticParts(a: string, b: string)
    requires Alphabetic(a + b)
    ensures Alphabetic(a) && Alphabetic(b)
  {
    hide CROCKFORD;
    assert forall i :: 0 <= i < |a| ==> a[i] == (a + b)[i];
    assert forall i :: 0 <= i < |b| ==> b[i] == (a + b)[|a| + i];
  }

  /**
   A dash at the end of a code keeps the white space next to it from being trimmed off: no harm is
   done as long as that is spaces only.
   */
  ghost predicate Harmless(script: Script, x: string, y: string) {
    && (Blank(script, x) && !Blank(script, y) ==> OnlySpaces(Lead(script, y)))
    && (Blank(script, y) && !Blank(script, x) ==> OnlySpaces(Trail(script, TrimLeft(script, x))))
  }

  /** What cleaning leaves of a string without a dash between its parts. */
  lemma CleanedParts(script: Script, x: string, y: string)
    ensures Trim(script, x + y) ==
            if Blank(script, x) then Trim(script, y)
            else if Blank(script, y) then Trim(script, x)
            else TrimLeft(script, x) + TrimRight(script, y)
  {
    hide TrimLeft, TrimRight, Blank;
    TrimLeftAppend(script, x, y);
    TrimRightAppend(script, TrimLeft(script, x), y);
  }

  lemma LeadKept(script: Script, y: string)
    requires !Blank(script, y)
    ensures TrimRight(script, y) == Lead(script, y) + Trim(script, y)
  {
    LeadIs(script, y);
    TrimLeftBlank(script, y);
    hide TrimLeft, TrimRight, Blank, Lead;
    TrimRightAppend(script, Lead(script, y), TrimLeft(script, y));
  }

  lemma DashParts(script: Script, x: string, y: string)
    requires Usual(script)
    ensures Cleaned(script, x + "-" + y) == Folded(script, TrimLeft(script, x)) + Folded(script, TrimRight(script, y))
  {
    FoldedOne(script, '-');
    hide Cleaned, Folded, TrimLeft, TrimRight;
    CleanedAround(script, x, '-', y);
    var f := Folded(script, TrimLeft(script, x));
    assert f + [] == f;
  }

  lemma DashAtStart(script: Script, x: string, y: string)
    requires Usual(script) && Blank(script, x) && !Blank(script, y)
    ensures OnlySpaces(Lead(script, y)) ==> Cleaned(script, x + "-" + y) == Cleaned(script, x + y)
    ensures !OnlySpaces(Lead(script, y)) ==> !Alphabetic(Cleaned(script, x + "-" + y))
  {
    TrimLeftBlank(script, x);
    LeadIs(script, y);
    hide *;
    DashParts(script, x, y);
    NothingFolds(script);
    CleanedParts(script, x, y);
    CleanedIs(script, x + y);
    LeadKept(script, y);
    var lead, rest := Lead(script, y), Trim(script, y);
    FoldedAppend(script, lead, rest);
    FoldedWhite(script, lead);
    var whole := Cleaned(script, x + "-" + y);
    assert [] + Folded(script, TrimRight(script, y)) == Folded(script, TrimRight(script, y));
    assert [] + Folded(script, rest) == Folded(script, rest);
    assert whole == Folded(script, lead) + Folded(script, rest);
    if Alphabetic(whole) {
      AlphabeticParts(Folded(script, lead), Folded(script, rest));
    }
  }

  lemma NothingFolds(script: Script)
    ensures Folded(script, []) == []
  {
  }

  lemma DashAtEnd(script: Script, x: string, y: string)
    requires Usual(script) && Blank(script, y) && !Blank(script, x)
    ensures OnlySpaces(Trail(script, TrimLeft(script, x))) ==> Cleaned(script, x + "-" + y) == Cleaned(script, x + y)
    ensures !OnlySpaces(Trail(script, TrimLeft(script, x))) ==> !Alphabetic(Cleaned(script, x + "-" + y))
  {
    TrimRightBlank(script, y);
    TrimIs(script, x);
    hide *;
    var left := TrimLeft(script, x);
    var rest, trail := Trim(script, x), Trail(script, left);
    TrailIs(script, left);
    DashParts(script, x, y);
    NothingFolds(script);
    CleanedParts(script, x, y);
    CleanedIs(script, x + y);
    FoldedAppend(script, rest, trail);
    FoldedWhite(script, trail);
    var whole := Cleaned(script, x + "-" + y);
    assert Folded(script, left) + [] == Folded(script, left);
    assert Folded(script, rest) + [] == Folded(script, rest);
    assert whole == Folded(script, rest) + Folded(script, trail);
    if Alphabetic(whole) {
      AlphabeticParts(Folded(script, rest), Folded(script, trail));
    }
  }

  lemma TrimIs(script: Script, x: string)
    ensures Trim(script, x) == TrimRight(script, TrimLeft(script, x))
  {
  }

  lemma DashInside(script: Script, x: string, y: string)
    requires Usual(script) && Blank(script, x) == Blank(script, y)
    ensures Cleaned(script, x + "-" + y) == Cleaned(script, x + y)
  {
    TrimLeftBlank(script, x);
    TrimRightBlank(script, y);
    TrimLeftBlank(script, y);
    TrimIs(script, y);
    assert TrimRight(script, []) == [];
    hide *;
    DashParts(script, x, y);
    NothingFolds(script);
    CleanedParts(script, x, y);
    CleanedIs(script, x + y);
    FoldedAppend(script, TrimLeft(script, x), TrimRight(script, y));
  }

  lemma AcceptedAlphabetic(script: Script, code: string)
    requires Decode(script, code).Raw?
    ensures Alphabetic(Cleaned(script, code))
  {
    hide Cleaned, Utf8, CROCKFORD, Digits, Pairs, FromNumerals, Alphabetic;
    DigitsAlphabetic(Cleaned(script, code));
  }

  /**
   A dash put in or taken out changes nothing exactly where it does not shield other white space from
   being trimmed; where it does, the code with the dash is refused.
   */
  lemma DashExactly(script: Script, x: string, y: string)
    requires Usual(script)
    ensures Harmless(script, x, y) ==> Decode(script, x + "-" + y) == Decode(script, x + y)
    ensures !Harmless(script, x, y) ==> !Decode(script, x + "-" + y).Raw?
  {
    hide Usual, Blank, Lead, Trail, Cleaned, DecodeBytes, Alphabetic, OnlySpaces, TrimLeft;
    if Blank(script, x) == Blank(script, y) {
      DashInside(script, x, y);
    } else if Blank(script, x) {
      DashAtStart(script, x, y);
    } else {
      DashAtEnd(script, x, y);
    }
    if Decode(script, x + "-" + y).Raw? {
      AcceptedAlphabetic(script, x + "-" + y);
    }
  }

  /** So a dash may be taken out of any accepted code, and put into one exactly where it is harmless. */
  lemma DashInAccepted(script: Script, x: string, y: string)
    requires Usual(script)
    ensures Decode(script, x + "-" + y).Raw? ==> Decode(script, x + y) == Decode(script, x + "-" + y)
    ensures Decode(script, x + y).Raw? ==> (Decode(script, x + "-" + y) == Decode(script, x + y) <==>
            Harmless(script, x, y))
  {
    hide *;
    DashExactly(script, x, y);
  }

  /** A tab before the code is trimmed, but not behind a dash. */
  lemma DashBeforeTab(script: Script, s: string)
    requires Usual(script) && script.space('\t') && s != [] && !script.space(s[0])
    ensures Decode(script, "\t" + s) == Decode(script, s)
    ensures !Decode(script, "-\t" + s).Raw?
  {
    var y := "\t" + s;
    assert y[1..] == s && y[0] == '\t';
    assert TrimLeft(script, s) == s;
    assert Lead(script, y) == ['\t'] + Lead(script, s);
    assert !Blank(script, y) by { BlankStep(script, y); }
    assert Blank(script, []);
    assert Lead(script, y)[0] == '\t';
    assert !Harmless(script, [], y);
    hide Lead, Blank, Folded, DecodeBytes, Usual, OnlySpaces, Harmless;
    DashExactly(script, [], y);
    assert [] + "-" + y == "-\t" + s;
  }
}
