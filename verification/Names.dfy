/**
 Directory names for chats, of internal/chatstore/names.go: a label made into one Windows path
 component, and a search for a component no existing entry has, ignoring case.
 */
module Names {
  import opened Common
  import Ids

  const MAX_UNITS := 255

  const FORBIDDEN: set<char> := {'<', '>', ':', '\"', '/', '\\', '|', '?', '*'}

  const RESERVED: set<string> := {
    "CON", "PRN", "AUX", "NUL",
    "COM1", "COM2", "COM3", "COM4", "COM5", "COM6", "COM7", "COM8", "COM9",
    "LPT1", "LPT2", "LPT3", "LPT4", "LPT5", "LPT6", "LPT7", "LPT8", "LPT9"}

  /** Unicode's case mappings, character by character. */
  datatype Casing = Casing(lower: char -> char, upper: char -> char)

  /** What is used of them: the characters without case stay as they are, and `h` is no other's. */
  ghost predicate Usual(casing: Casing) {
    && casing.upper('.') == '.' && casing.upper(' ') == ' ' && casing.upper('_') == '_' && casing.upper('h') == 'H'
    && casing.lower(' ') == ' ' && casing.lower('(') == '(' && casing.lower(')') == ')'
    && forall c :: '0' <= c <= '9' ==> casing.lower(c) == c
  }

  function Mapped(f: char -> char, s: string): (r: string)
    ensures |r| == |s| && forall i :: 0 <= i < |s| ==> r[i] == f(s[i])
  {
    if s == [] then [] else Mapped(f, s[..|s| - 1]) + [f(s[|s| - 1])]
  }

  // ---- Steps of SanitizeName ----

  function CleanChar(c: char): char { if c as int < 32 || c in FORBIDDEN then '_' else c }

  predicate Trimmable(c: char) { c == '.' || c == ' ' }

  function TrimRight(s: string): (r: string)
    ensures r <= s && (r != [] ==> !Trimmable(r[|r| - 1]))
    ensures forall i :: |r| <= i < |s| ==> Trimmable(s[i])
  {
    if s == [] || !Trimmable(s[|s| - 1]) then s else TrimRight(s[..|s| - 1])
  }

  /** The part before the first dot. */
  function Base(name: string): (r: string)
    ensures r <= name && '.' !in r && (|r| < |name| ==> name[|r|] == '.')
  {
    if name == [] || name[0] == '.' then [] else [name[0]] + Base(name[1..])
  }

  predicate Reserved(casing: Casing, name: string) { Mapped(casing.upper, Base(name)) in RESERVED }

  /** The reserved names: four devices, and nine ports of each of two kinds. */
  lemma ReservedAre(w: string)
    ensures w in RESERVED <==>
              || w == "CON" || w == "PRN" || w == "AUX" || w == "NUL"
              || (|w| == 4 && (w[..3] == "COM" || w[..3] == "LPT") && '1' <= w[3] <= '9')
  {
    if |w| == 4 {
      assert w[..3] == [w[0], w[1], w[2]];
      if '1' <= w[3] <= '9' {
        PortReserved(w[3]);
        assert w == w[..3] + [w[3]];
      }
    }
  }

  lemma PortReserved(c: char)
    requires '1' <= c <= '9'
    ensures "COM" + [c] in RESERVED && "LPT" + [c] in RESERVED
  {
    var ports := ["COM1", "COM2", "COM3", "COM4", "COM5", "COM6", "COM7", "COM8", "COM9"];
    var printers := ["LPT1", "LPT2", "LPT3", "LPT4", "LPT5", "LPT6", "LPT7", "LPT8", "LPT9"];
    var k := c as int - 49;
    assert ports[k] == "COM" + [c] && printers[k] == "LPT" + [c];
  }

  function CharUnits(c: char): nat { if c as int > 0xffff then 2 else 1 }

  function Units(s: string): (n: nat)
    ensures n >= |s|
  {
    if s == [] then 0 else Units(s[..|s| - 1]) + CharUnits(s[|s| - 1])
  }

  /** The longest beginning of at most `maximum` UTF-16 units. */
  function Truncate(s: string, maximum: int): (r: string)
    ensures r <= s
    ensures r == [] || Units(r) <= maximum
    ensures Units(s) <= maximum ==> r == s
    ensures |r| < |s| ==> Units(s[..|r| + 1]) > maximum
  {
    if s == [] || Units(s) <= maximum then s
    else
      var front := s[..|s| - 1];
      var r := Truncate(front, maximum);
      assert s[..|r| + 1] == if |r| < |front| then front[..|r| + 1] else s;
      r
  }

  /** The cleaned label before it is cut to length. */
  function Named(casing: Casing, title: string): (name: string)
    ensures name != [] && !Trimmable(name[|name| - 1])
  {
    var trimmed := TrimRight(Mapped(CleanChar, title));
    var name := if trimmed == "" then "chat" else trimmed;
    if Reserved(casing, name) then "_" + name else name
  }

  function Sanitize(casing: Casing, title: string): string {
    var cut := TrimRight(Truncate(Named(casing, title), MAX_UNITS));
    if cut == "" then "chat" else cut
  }

  // ---- What a sanitized name is ----

  ghost predicate Clean(s: string) {
    forall i :: 0 <= i < |s| ==> CleanChar(s[i]) == s[i]
  }

  /** A component Windows takes, but for the reserved device names. */
  ghost predicate Component(s: string) {
    s != [] && Clean(s) && Units(s) <= MAX_UNITS && !Trimmable(s[|s| - 1])
  }

  lemma {:induction false} UnitsPrefix(r: string, s: string)
    requires r <= s
    ensures Units(r) <= Units(s)
  {
    if |r| < |s| {
      assert r <= s[..|s| - 1];
      UnitsPrefix(r, s[..|s| - 1]);
    } else {
      assert r == s;
    }
  }

  /** How many characters take two UTF-16 units. */
  function Wide(s: string): nat {
    if s == [] then 0 else Wide(s[..|s| - 1]) + if s[|s| - 1] as int >= 0x1_0000 then 1 else 0
  }

  lemma {:induction false} UnitsAre(s: string)
    ensures Units(s) == |s| + Wide(s)
  {
    if s != [] { UnitsAre(s[..|s| - 1]); }
  }

  lemma NamedClean(casing: Casing, title: string)
    ensures Clean(Named(casing, title))
  {
    var mapped := Mapped(CleanChar, title);
    CleanMapped(title);
    CleanPrefix(TrimRight(mapped), mapped);
    assert Clean("chat");
    hide Mapped, TrimRight, Reserved, CleanChar;
    assert CleanChar('_') == '_' by { CleanUnderscore(); }
  }

  lemma CleanUnderscore()
    ensures CleanChar('_') == '_'
  {
  }

  lemma CleanMapped(title: string)
    ensures Clean(Mapped(CleanChar, title))
  {
    CleanUnderscore();
  }

  lemma CleanPrefix(r: string, s: string)
    requires r <= s && Clean(s)
    ensures Clean(r)
  {
    hide CleanChar;
  }

  /** A sanitized name is a component, whatever the label. */
  lemma SanitizeComponent(casing: Casing, title: string)
    ensures Component(Sanitize(casing, title)) && Units(Sanitize(casing, title)) <= 255
  {
    var name := Named(casing, title);
    NamedClean(casing, title);
    CutComponent(name);
    ChatComponent();
    hide Named, Truncate, TrimRight, Component;
  }

  lemma CutComponent(name: string)
    requires Clean(name)
    ensures var r := TrimRight(Truncate(name, MAX_UNITS)); r != "" ==> Component(r)
  {
    var cut := Truncate(name, MAX_UNITS);
    UnitsPrefix(TrimRight(cut), cut);
    hide Units, Truncate, TrimRight;
  }

  lemma ChatComponent()
    ensures Component("chat")
  {
    UnitsChat();
    hide Units;
  }

  lemma UnitsChat()
    ensures Units("chat") == 4
  {
    assert "chat"[..3] == "cha" && "cha"[..2] == "ch" && "ch"[..1] == "c" && "c"[..0] == "";
    assert Units("c") == 1;
    assert Units("ch") == 2;
    assert Units("cha") == 3;
  }

  // ---- Character by character ----

  /** A character Windows takes in a name. */
  predicate Allowed(c: char) {
    && c as int >= 32
    && c != '<' && c != '>' && c != ':' && c != '\"' && c != '/' && c != '\\' && c != '|' && c != '?' && c != '*'
  }

  lemma CleanIsAllowed(c: char)
    ensures CleanChar(c) == if Allowed(c) then c else '_'
    ensures Allowed('_')
  {
  }

  /** No character of a sanitized name is a control character or one of the nine Windows refuses. */
  lemma SanitizedAllowed(casing: Casing, title: string)
    ensures forall i :: 0 <= i < |Sanitize(casing, title)| ==> Allowed(Sanitize(casing, title)[i])
  {
    SanitizeComponent(casing, title);
    var name := Sanitize(casing, title);
    forall i | 0 <= i < |name| ensures Allowed(name[i]) {
      CleanIsAllowed(name[i]);
      assert CleanChar(name[i]) == name[i];
    }
    hide Sanitize;
  }

  /** What a label comes to with every refused character an underscore and its trailing dots and spaces gone. */
  ghost predicate Tidied(title: string, tidy: string) {
    && |tidy| <= |title|
    && (forall i :: 0 <= i < |tidy| ==> tidy[i] == if Allowed(title[i]) then title[i] else '_')
    && (forall i :: |tidy| <= i < |title| ==> title[i] == '.' || title[i] == ' ')
    && (tidy != [] ==> tidy[|tidy| - 1] != '.' && tidy[|tidy| - 1] != ' ')
  }

  lemma TidiedIs(title: string)
    ensures Tidied(title, TrimRight(Mapped(CleanChar, title)))
  {
    hide Mapped, TrimRight, Allowed, CleanChar;
    var mapped := Mapped(CleanChar, title);
    forall i | 0 <= i < |title| ensures mapped[i] == if Allowed(title[i]) then title[i] else '_' {
      CleanIsAllowed(title[i]);
    }
  }

  /**
   A label of at most 254 units, character by character: every character Windows takes is kept where it
   stands and every other becomes an underscore, trailing dots and spaces go, a reserved name gets an
   underscore in front, and a label of dots and spaces alone becomes "chat".
   */
  lemma SanitizeByCharacter(casing: Casing, title: string)
    requires Usual(casing) && Units(title) < MAX_UNITS
    ensures exists tidy :: Tidied(title, tidy) &&
              Sanitize(casing, title) ==
              if tidy == "" then "chat" else if Reserved(casing, tidy) then "_" + tidy else tidy
  {
    var tidy := TrimRight(Mapped(CleanChar, title));
    TidiedIs(title);
    ChatNotReserved(casing);
    TidyUnits(title);
    hide Mapped, TrimRight, Units, Truncate, Reserved, Tidied;
    NamedShort(casing, title, tidy);
  }

  lemma NamedShort(casing: Casing, title: string, tidy: string)
    requires tidy == TrimRight(Mapped(CleanChar, title)) && Units(tidy) < MAX_UNITS && !Reserved(casing, "chat")
    ensures Sanitize(casing, title) ==
            if tidy == "" then "chat" else if Reserved(casing, tidy) then "_" + tidy else tidy
  {
    hide *;
    UnitsChat();
    UnitsAppend("_", tidy);
    UnitsOne();
    NamedIs(casing, title, tidy);
    ShortKept(casing, title);
  }

  lemma UnitsOne()
    ensures Units("_") == 1 && MAX_UNITS == 255
  {
    assert "_"[..0] == "";
  }

  lemma NamedIs(casing: Casing, title: string, tidy: string)
    requires tidy == TrimRight(Mapped(CleanChar, title)) && !Reserved(casing, "chat")
    ensures Named(casing, title) == if tidy == "" then "chat" else if Reserved(casing, tidy) then "_" + tidy else tidy
  {
    hide Mapped, TrimRight, Reserved;
  }

  lemma ShortKept(casing: Casing, title: string)
    requires Units(Named(casing, title)) <= MAX_UNITS
    ensures Sanitize(casing, title) == Named(casing, title)
  {
    hide Named, Truncate, Units;
    NothingToTrim(Named(casing, title));
  }

  lemma NothingToTrim(name: string)
    requires name != [] && !Trimmable(name[|name| - 1])
    ensures TrimRight(name) == name
  {
  }

  lemma {:induction false} CleanUnits(title: string)
    ensures Units(Mapped(CleanChar, title)) <= Units(title)
  {
    if title != [] {
      var n := |title| - 1;
      CleanUnits(title[..n]);
      CleanIsAllowed(title[n]);
      assert Mapped(CleanChar, title)[..n] == Mapped(CleanChar, title[..n]);
    }
  }

  lemma TidyUnits(title: string)
    ensures Units(TrimRight(Mapped(CleanChar, title))) <= Units(title)
  {
    CleanUnits(title);
    UnitsPrefix(TrimRight(Mapped(CleanChar, title)), Mapped(CleanChar, title));
    hide Mapped, TrimRight, Units;
  }

  // ---- When a sanitized name is reserved all the same ----

  lemma WordChars(w: string)
    requires w in RESERVED
    ensures 3 <= |w| <= 4 && forall i :: 0 <= i < |w| ==> w[i] != '.' && w[i] != ' ' && w[i] != '_' && w[i] != 'H'
  {
  }

  /** What upper-cases to a reserved word has none of these characters. */
  lemma ReservedChars(casing: Casing, s: string)
    requires Usual(casing) && Mapped(casing.upper, s) in RESERVED
    ensures 3 <= |s| <= 4 && forall i :: 0 <= i < |s| ==> s[i] != '.' && s[i] != ' ' && s[i] != '_' && s[i] != 'h'
  {
    WordChars(Mapped(casing.upper, s));
    hide RESERVED;
    forall i | 0 <= i < |s| ensures s[i] != '.' && s[i] != ' ' && s[i] != '_' && s[i] != 'h' {
      assert Mapped(casing.upper, s)[i] == casing.upper(s[i]);
    }
  }

  lemma ChatNotReserved(casing: Casing)
    requires Usual(casing)
    ensures !Reserved(casing, "chat")
  {
    assert Base("chat") == "chat" by { BaseWhole("chat"); }
    assert "chat"[1] == 'h';
    if Reserved(casing, "chat") {
      ReservedChars(casing, "chat");
      assert false;
    }
  }

  lemma BaseWhole(s: string)
    requires '.' !in s
    ensures Base(s) == s
  {
    assert forall i :: 0 <= i < |s| ==> s[i] in s;
  }

  /** Both have the same first dot. */
  lemma BaseOfPrefix(r: string, s: string)
    requires r <= s && (|Base(r)| < |r| || (|r| < |s| && s[|r|] == '.'))
    ensures Base(s) == Base(r)
  {
    var a, b := Base(r), Base(s);
    assert s[|a|] == '.';
    assert forall i :: 0 <= i < |b| ==> b[i] == s[i] && b[i] in b;
    assert forall i :: 0 <= i < |a| ==> a[i] == s[i] && a[i] in a;
    assert |b| <= |a|;
    assert |b| >= |a|;
  }

  lemma NamedNotReserved(casing: Casing, title: string)
    requires Usual(casing)
    ensures !Reserved(casing, Named(casing, title))
  {
    var trimmed := TrimRight(Mapped(CleanChar, title));
    var name := if trimmed == "" then "chat" else trimmed;
    if Reserved(casing, name) {
      var b := Base("_" + name);
      assert b != [] && b[0] == '_';
      if Mapped(casing.upper, b) in RESERVED {
        ReservedChars(casing, b);
        assert false;
      }
    }
  }

  lemma {:induction false} UnitsShort(s: string)
    ensures Units(s) <= 2 * |s|
  {
    if s != [] { UnitsShort(s[..|s| - 1]); }
  }

  /** A reserved word, a space, and nothing but dots and spaces after it. */
  ghost predicate WordThenBlanks(casing: Casing, s: string, k: nat) {
    k < |s| && Mapped(casing.upper, s[..k]) in RESERVED && s[k] == ' ' && forall i :: k <= i < |s| ==> Trimmable(s[i])
  }

  lemma ReservedThenBlanks(casing: Casing, name: string)
    requires Usual(casing) && !Reserved(casing, name)
    requires var r := TrimRight(Truncate(name, MAX_UNITS)); r != "" && Reserved(casing, r)
    ensures var cut := Truncate(name, MAX_UNITS); WordThenBlanks(casing, cut, |TrimRight(cut)|)
  {
    hide RESERVED, Truncate, Base, TrimRight, Mapped;
    var cut := Truncate(name, MAX_UNITS);
    var r := TrimRight(cut);
    assert r <= name;
    ReservedChars(casing, Base(r));
    BaseIsAll(casing, r, name);
    assert cut[..|r|] == r;
    TooShortToCut(name, r);
    NoDotBehind(casing, r, name);
  }

  lemma BaseIsAll(casing: Casing, r: string, name: string)
    requires r <= name && Reserved(casing, r) && !Reserved(casing, name)
    ensures Base(r) == r
  {
    hide RESERVED;
    if |Base(r)| < |r| {
      BaseOfPrefix(r, name);
      assert false;
    }
  }

  lemma NoDotBehind(casing: Casing, r: string, name: string)
    requires r <= name && Reserved(casing, r) && !Reserved(casing, name)
    ensures |r| < |name| ==> name[|r|] != '.'
  {
    hide RESERVED;
    if |r| < |name| && name[|r|] == '.' {
      BaseOfPrefix(r, name);
      assert false;
    }
  }

  lemma TooShortToCut(name: string, r: string)
    requires |r| <= 4
    requires r == TrimRight(Truncate(name, MAX_UNITS)) && r != name
    ensures |r| < |Truncate(name, MAX_UNITS)|
  {
    UnitsShort(r);
    CutIsLong(name);
  }

  lemma CutIsLong(s: string)
    ensures Truncate(s, MAX_UNITS) == s || Units(Truncate(s, MAX_UNITS)) >= MAX_UNITS - 1
  {
    var r := Truncate(s, MAX_UNITS);
    if |r| < |s| {
      var more := s[..|r| + 1];
      assert more[..|r|] == r;
    }
  }

  lemma BlanksThenReserved(casing: Casing, cut: string, k: nat)
    requires Usual(casing) && WordThenBlanks(casing, cut, k)
    ensures TrimRight(cut) == cut[..k] && Reserved(casing, cut[..k])
  {
    ReservedChars(casing, cut[..k]);
    hide RESERVED;
    BaseWhole(cut[..k]);
    var r := TrimRight(cut);
    assert cut[..k][k - 1] == cut[k - 1];
    assert |r| <= k;
    assert |r| >= k;
  }

  /**
   A sanitized name is a reserved device name exactly when the first 255 units of the cleaned label
   are a reserved word, a space, and nothing but dots and spaces.
   */
  lemma ReservedExactly(casing: Casing, title: string)
    requires Usual(casing)
    ensures Reserved(casing, Sanitize(casing, title)) <==>
              exists k: nat :: WordThenBlanks(casing, Truncate(Named(casing, title), MAX_UNITS), k)
  {
    hide Named, Truncate, Reserved, WordThenBlanks;
    var name := Named(casing, title);
    var cut := Truncate(name, MAX_UNITS);
    NamedNotReserved(casing, title);
    ChatNotReserved(casing);
    if TrimRight(cut) != "" && Reserved(casing, TrimRight(cut)) {
      ReservedThenBlanks(casing, name);
    }
    if k: nat :| WordThenBlanks(casing, cut, k) {
      BlanksThenReserved(casing, cut, k);
      WordNonempty(casing, cut, k);
    }
  }

  lemma WordNonempty(casing: Casing, cut: string, k: nat)
    requires Usual(casing) && WordThenBlanks(casing, cut, k)
    ensures cut[..k] != ""
  {
    ReservedChars(casing, cut[..k]);
  }

  lemma {:induction false} UnitsPlain(s: string)
    requires forall i :: 0 <= i < |s| ==> s[i] as int <= 0xffff
    ensures Units(s) == |s|
  {
    if s != [] { UnitsPlain(s[..|s| - 1]); }
  }

  lemma TruncatePlain(s: string)
    requires forall i :: 0 <= i < |s| ==> s[i] as int <= 0xffff
    requires |s| > MAX_UNITS
    ensures Truncate(s, MAX_UNITS) == s[..MAX_UNITS]
  {
    hide Truncate, Units;
    var r := Truncate(s, MAX_UNITS);
    UnitsPlain(s);
    UnitsPlain(r);
    if |r| < |s| { UnitsPlain(s[..|r| + 1]); }
  }

  /** For one: "CON", enough spaces, and one more character come out as "CON". */
  lemma ReservedWitness(casing: Casing, blanks: string)
    requires Usual(casing) && Mapped(casing.upper, "CON") == "CON"
    requires |blanks| >= MAX_UNITS && forall i :: 0 <= i < |blanks| ==> blanks[i] == ' '
    ensures Sanitize(casing, "CON" + blanks + "x") == "CON"
  {
    hide Named, Truncate, Mapped, Usual, WordThenBlanks, Reserved;
    var title := "CON" + blanks + "x";
    WitnessNamed(casing, title, blanks);
    TruncatePlain(title);
    var cut := title[..MAX_UNITS];
    WitnessCut(casing, cut);
    BlanksThenReserved(casing, cut, 3);
  }

  lemma WitnessCut(casing: Casing, cut: string)
    requires Mapped(casing.upper, "CON") == "CON"
    requires |cut| > 3 && cut[0] == 'C' && cut[1] == 'O' && cut[2] == 'N' && forall i :: 3 <= i < |cut| ==>
             cut[i] == ' '
    ensures cut[..3] == "CON" && WordThenBlanks(casing, cut, 3)
  {
    assert cut[..3] == "CON";
    assert "CON" in RESERVED;
    hide RESERVED, Mapped;
  }

  lemma WitnessNamed(casing: Casing, title: string, blanks: string)
    requires Usual(casing) && title == "CON" + blanks + "x" && |blanks| >= MAX_UNITS
    requires forall i :: 0 <= i < |blanks| ==> blanks[i] == ' '
    ensures Named(casing, title) == title && forall i :: 0 <= i < |title| ==> title[i] as int <= 0xffff
  {
    assert forall i :: 0 <= i < |title| ==> title[i] in {'C', 'O', 'N', ' ', 'x'};
    assert Mapped(CleanChar, title) == title;
    assert title[|title| - 1] == 'x';
    assert TrimRight(title) == title;
    BaseWhole(title);
    if Reserved(casing, title) {
      ReservedChars(casing, title);
      assert false;
    }
    hide Reserved, Mapped;
  }

  // ---- The search for a free name ----

  function Suffix(counter: nat): string { " (" + Ids.Print(counter) + ")" }

  /** The name tried with a counter. */
  function Candidate(base: string, counter: nat): string {
    TrimRight(Truncate(base, MAX_UNITS - Units(Suffix(counter)))) + Suffix(counter)
  }

  /** A candidate: a beginning of the name that ends in neither dot nor space, and the counter in brackets. */
  lemma CandidateShape(base: string, counter: nat) returns (front: string)
    ensures front <= base && (front != "" ==> front[|front| - 1] != '.' && front[|front| - 1] != ' ')
    ensures Candidate(base, counter) == front + " (" + Ids.Print(counter) + ")"
  {
    hide TrimRight, Truncate, Units, Ids.Print;
    front := TrimRight(Truncate(base, MAX_UNITS - Units(Suffix(counter))));
    var digits := Ids.Print(counter);
    assert front + (" (" + digits + ")") == front + " (" + digits + ")";
  }

  function Lower(casing: Casing, s: string): string { Mapped(casing.lower, s) }

  /** The names of a directory's entries, lower-cased. */
  function Used(casing: Casing, entries: seq<string>): set<string> {
    if entries == [] then {}
    else Used(casing, entries[..|entries| - 1]) + {Lower(casing, entries[|entries| - 1])}
  }

  lemma {:induction false} UsedIs(casing: Casing, entries: seq<string>)
    ensures forall i :: 0 <= i < |entries| ==> Lower(casing, entries[i]) in Used(casing, entries)
    ensures |Used(casing, entries)| <= |entries|
  {
    hide Lower;
    if entries != [] {
      var n := |entries| - 1;
      UsedIs(casing, entries[..n]);
      forall i | 0 <= i < |entries| ensures Lower(casing, entries[i]) in Used(casing, entries) {
        if i < n { assert entries[..n][i] == entries[i]; }
      }
    }
  }

  lemma MappedAppend(f: char -> char, a: string, b: string)
    ensures Mapped(f, a + b) == Mapped(f, a) + Mapped(f, b)
  {
  }

  lemma LowerSuffix(casing: Casing, counter: nat)
    requires Usual(casing)
    ensures Lower(casing, Suffix(counter)) == Suffix(counter)
  {
    assert Ids.Digits(Ids.Print(counter));
    hide Ids.Print;
  }

  /** Whatever stands before it, a counter can be read back from the end of its candidate. */
  lemma SuffixTells(x: string, m: nat, y: string, n: nat)
    requires x + Suffix(m) == y + Suffix(n)
    ensures m == n
  {
    var s := x + Suffix(m);
    var a, b: Ids.Stem := x + " (", y + " (";
    assert s[..|s| - 1] == a + Ids.Print(m);
    assert s[..|s| - 1] == b + Ids.Print(n);
    Ids.DigitsBehind(a, Ids.Print(m));
    Ids.DigitsBehind(b, Ids.Print(n));
    Ids.PrintValue(m);
    Ids.PrintValue(n);
    hide Ids.Print, Ids.Value, Ids.DigitsFrom;
    assert (a + Ids.Print(m))[|a|..] == Ids.Print(m);
    assert (b + Ids.Print(n))[|b|..] == Ids.Print(n);
  }

  lemma LowerCandidate(casing: Casing, base: string, counter: nat) returns (front: string)
    requires Usual(casing)
    ensures Lower(casing, Candidate(base, counter)) == front + Suffix(counter)
  {
    hide Suffix, Mapped, Truncate, TrimRight, Units, Usual;
    var kept := TrimRight(Truncate(base, MAX_UNITS - Units(Suffix(counter))));
    front := Lower(casing, kept);
    MappedAppend(casing.lower, kept, Suffix(counter));
    LowerSuffix(casing, counter);
  }

  /** Distinct counters give candidates that differ even ignoring case. */
  lemma CandidatesDiffer(casing: Casing, base: string, m: nat, n: nat)
    requires Usual(casing) && Lower(casing, Candidate(base, m)) == Lower(casing, Candidate(base, n))
    ensures m == n
  {
    hide Suffix, Mapped, Truncate, TrimRight, Units, Usual;
    var a := LowerCandidate(casing, base, m);
    var b := LowerCandidate(casing, base, n);
    SuffixTells(a, m, b, n);
  }

  /** The lower-cased candidates with counters 2 up to `counter`, exclusive. */
  ghost function Tried(casing: Casing, base: string, counter: nat): set<string>
    requires counter >= 2
  {
    if counter == 2 then {} else Tried(casing, base, counter - 1) + {Lower(casing, Candidate(base, counter - 1))}
  }

  lemma {:induction false} TriedWith(casing: Casing, base: string, counter: nat, name: string) returns (k: nat)
    requires counter >= 2 && name in Tried(casing, base, counter)
    ensures 2 <= k < counter && name == Lower(casing, Candidate(base, k))
  {
    hide Candidate, Lower;
    if name in Tried(casing, base, counter - 1) {
      k := TriedWith(casing, base, counter - 1, name);
    } else {
      k := counter - 1;
    }
  }

  lemma {:induction false} TriedSize(casing: Casing, base: string, counter: nat)
    requires Usual(casing) && counter >= 2
    ensures |Tried(casing, base, counter)| == counter - 2
  {
    hide Candidate, Lower;
    if counter > 2 {
      TriedSize(casing, base, counter - 1);
      var last := Lower(casing, Candidate(base, counter - 1));
      if last in Tried(casing, base, counter - 1) {
        var k := TriedWith(casing, base, counter - 1, last);
        CandidatesDiffer(casing, base, k, counter - 1);
        assert false;
      }
    }
  }

  /** By pigeonhole, counters that are all taken are at most as many as the entries. */
  lemma TakenIsBounded(casing: Casing, base: string, used: set<string>, counter: nat)
    requires Usual(casing) && counter >= 2
    requires forall k: nat :: 2 <= k < counter ==> Lower(casing, Candidate(base, k)) in used
    ensures counter - 2 <= |used|
  {
    TriedSize(casing, base, counter);
    var tried := Tried(casing, base, counter);
    hide Candidate, Lower, Tried;
    forall name | name in tried ensures name in used {
      var k := TriedWith(casing, base, counter, name);
    }
    SubsetSize(tried, used);
  }

  lemma {:induction false} UnitsAppend(a: string, b: string)
    ensures Units(a + b) == Units(a) + Units(b)
  {
    if b == [] {
      assert a + b == a;
    } else {
      assert (a + b)[..|a + b| - 1] == a + b[..|b| - 1];
      UnitsAppend(a, b[..|b| - 1]);
    }
  }

  /** A candidate stays within the limit whenever its suffix does. */
  lemma CandidateFits(base: string, counter: nat)
    requires Units(Suffix(counter)) <= MAX_UNITS
    ensures Units(Candidate(base, counter)) <= MAX_UNITS
  {
    var cut := Truncate(base, MAX_UNITS - Units(Suffix(counter)));
    UnitsPrefix(TrimRight(cut), cut);
    UnitsAppend(TrimRight(cut), Suffix(counter));
    hide Units, Suffix, Truncate, TrimRight;
  }

  lemma SuffixClean(counter: nat)
    ensures Clean(Suffix(counter)) && Suffix(counter) != [] && Suffix(counter)[|Suffix(counter)| - 1] == ')'
  {
    var digits := Ids.Print(counter);
    assert Ids.Digits(digits);
    hide Ids.Print;
    assert forall i :: 0 <= i < |digits| ==> CleanChar(digits[i]) == digits[i];
  }

  lemma CleanBoth(a: string, b: string)
    requires Clean(a) && Clean(b)
    ensures Clean(a + b)
  {
    hide CleanChar;
  }

  /** A candidate is a component too, whenever its suffix fits. */
  lemma CandidateComponent(base: string, counter: nat)
    requires Clean(base) && Units(Suffix(counter)) <= MAX_UNITS
    ensures Component(Candidate(base, counter))
  {
    CandidateFits(base, counter);
    SuffixClean(counter);
    var cut := Truncate(base, MAX_UNITS - Units(Suffix(counter)));
    CleanPrefix(TrimRight(cut), base);
    CleanBoth(TrimRight(cut), Suffix(counter));
    hide Clean, Units, Suffix, Truncate, TrimRight;
  }

  /**
   The search ends; the name matches no entry, ignoring case; it is the sanitized label, or the
   candidate with the first free counter, tried after at most one more than there are entries, and a
   component as the sanitized label is, unless the counter's suffix alone is too long.
   */
  method AvailableName(casing: Casing, entries: seq<string>, title: string) returns (name: string)
    requires Usual(casing)
    ensures forall i :: 0 <= i < |entries| ==> Lower(casing, entries[i]) != Lower(casing, name)
    ensures var base := Sanitize(casing, title);
            if Lower(casing, base) !in Used(casing, entries) then name == base
            else exists counter: nat ::
              && 2 <= counter <= |entries| + 2 && name == Candidate(base, counter)
              && (forall k: nat :: 2 <= k < counter ==> Lower(casing, Candidate(base, k)) in Used(casing, entries))
              && (Units(Suffix(counter)) <= MAX_UNITS ==> Component(name))
  {
    SanitizeComponent(casing, title);
    hide Candidate, Lower, Sanitize, Units, Suffix, Usual, Used, Clean;
    var used := UsedNames(casing, entries);
    UsedIs(casing, entries);
    var base := SanitizeName(casing, title);
    if Lower(casing, base) !in used {
      return base;
    }
    var counter := 2;
    while true
      invariant counter >= 2
      invariant forall k: nat :: 2 <= k < counter ==> Lower(casing, Candidate(base, k)) in used
      decreases |used| + 2 - counter
    {
      TakenIsBounded(casing, base, used, counter);
      name := Candidate(base, counter);
      if Lower(casing, name) !in used {
        if Units(Suffix(counter)) <= MAX_UNITS { CandidateComponent(base, counter); }
        return;
      }
      counter := counter + 1;
      TakenIsBounded(casing, base, used, counter);
    }
  }

  method UsedNames(casing: Casing, entries: seq<string>) returns (used: set<string>)
    ensures used == Used(casing, entries)
  {
    hide Lower;
    used := {};
    for i := 0 to |entries|
      invariant used == Used(casing, entries[..i])
    {
      assert entries[..i + 1][..i] == entries[..i];
      used := used + {Lower(casing, entries[i])};
    }
    assert entries[..|entries|] == entries;
  }

  method SanitizeName(casing: Casing, title: string) returns (name: string)
    ensures name == Sanitize(casing, title)
  {
    var value := "";
    for i := 0 to |title|
      invariant value == Mapped(CleanChar, title[..i])
    {
      assert title[..i + 1][..i] == title[..i];
      var c := title[i];
      if c as int < 32 || c in FORBIDDEN { c := '_'; }
      value := value + [c];
    }
    assert title[..|title|] == title;
    hide Mapped, Base, TrimRight, Truncate, RESERVED, Reserved;
    name := TrimRight(value);
    if name == "" { name := "chat"; }
    if Reserved(casing, name) { name := "_" + name; }
    name := TruncateUnits(name, MAX_UNITS);
    name := TrimRight(name);
    if name == "" { name := "chat"; }
  }

  method TruncateUnits(value: string, maximum: int) returns (result: string)
    ensures result == Truncate(value, maximum)
  {
    var units := 0;
    result := "";
    var i := 0;
    while i < |value|
      invariant i <= |value| && result == value[..i] && units == Units(result) && (units <= maximum || result == "")
      decreases |value| - i
    {
      var size := if value[i] as int > 0xffff then 2 else 1;
      assert value[..i + 1][..i] == value[..i];
      if units + size > maximum { break; }
      result := result + [value[i]];
      units := units + size;
      i := i + 1;
    }
    TruncatedIs(value, maximum, result);
  }

  lemma TruncatedIs(s: string, maximum: int, r: string)
    requires r <= s && (Units(r) <= maximum || r == "")
    requires |r| < |s| ==> Units(s[..|r| + 1]) > maximum
    ensures r == Truncate(s, maximum)
  {
    hide Units, Truncate;
    var t := Truncate(s, maximum);
    if |r| < |t| {
      assert s[..|r| + 1] <= t;
      UnitsPrefix(s[..|r| + 1], t);
    } else if |t| < |r| {
      assert s[..|t| + 1] <= r;
      UnitsPrefix(s[..|t| + 1], r);
    }
  }
}
