/**
 Message and run ids across a restart: the floor taken over every restored chat
 (cmd/harness/main.go), the reminting of repeated message ids (internal/context/compact.go) and the
 counters moved past the floor (internal/agent/run.go). Numbers are 64-bit and wrap.
 */
module Ids {
  import opened Common

  const MAX: int := 0x7fff_ffff_ffff_ffff
  const MIN: int := -0x8000_0000_0000_0000
  const SPAN: int := 0x1_0000_0000_0000_0000

  type Int64 = n: int | MIN <= n <= MAX witness 0

  function Next(n: Int64): Int64 { if n == MAX then MIN else n + 1 }

  // ---- Decimal numerals ----

  predicate IsDigit(c: char) { '0' <= c <= '9' }

  ghost predicate Digits(s: string) { forall i :: 0 <= i < |s| ==> IsDigit(s[i]) }

  function Print(n: nat): (s: string)
    ensures s != [] && Digits(s)
  {
    if n < 10 then [('0' as int + n) as char] else Print(n / 10) + [('0' as int + n % 10) as char]
  }

  function PrintInt(n: int): string { if n < 0 then "-" + Print(-n) else Print(n) }

  function Value(s: string): nat
    requires Digits(s)
  {
    if s == [] then 0 else 10 * Value(s[..|s| - 1]) + (s[|s| - 1] as int - '0' as int)
  }

  lemma {:induction false} PrintValue(n: nat)
    ensures Value(Print(n)) == n
  {
    if n < 10 {
      assert Print(n)[..0] == [];
    } else {
      PrintValue(n / 10);
      assert Print(n)[..|Print(n)| - 1] == Print(n / 10);
    }
  }

  /** Numerals are decimal, the highest digit first. */
  lemma DecimalPlaces(s: string, d: nat)
    requires Digits(s) && d < 10
    ensures var c := ('0' as int + d) as char;
            && Digits(s + [c]) && Value(s + [c]) == 10 * Value(s) + d && Value([]) == 0
  {
    var c := ('0' as int + d) as char;
    assert (s + [c])[..|s|] == s;
  }

  lemma PrintIntInjective(m: int, n: int)
    requires PrintInt(m) == PrintInt(n)
    ensures m == n
  {
    var a, b := if m < 0 then -m else m, if n < 0 then -n else n;
    PrintValue(a);
    PrintValue(b);
    assert IsDigit(Print(a)[0]) && IsDigit(Print(b)[0]);
    if m < 0 && n < 0 {
      assert PrintInt(m)[1..] == Print(a) && PrintInt(n)[1..] == Print(b);
    }
  }

  // ---- The number at the end of an id ----

  function DigitsFrom(id: string): (start: nat)
    ensures start <= |id| && Digits(id[start..])
    ensures start > 0 ==> !IsDigit(id[start - 1])
  {
    if id == [] || !IsDigit(id[|id| - 1]) then |id| else
      var start := DigitsFrom(id[..|id| - 1]);
      assert id[start..] == id[..|id| - 1][start..] + [id[|id| - 1]];
      start
  }

  /** The number an id ends in; one that no counter can hold is not read. */
  function Noted(id: string): Option<nat> {
    var start := DigitsFrom(id);
    if start == |id| || Value(id[start..]) > MAX then None else Some(Value(id[start..]))
  }

  /** What an id starts with: not empty, and not ending in a digit. */
  type Stem = s: string | s != [] && !IsDigit(s[|s| - 1]) witness "m-"

  function Minted(stem: Stem, n: int): string { stem + PrintInt(n) }

  lemma {:induction false} DigitsBehind(stem: Stem, digits: string)
    requires Digits(digits)
    ensures DigitsFrom(stem + digits) == |stem|
  {
    if digits == [] {
      assert stem + digits == stem;
    } else {
      var id := stem + digits;
      assert id[..|id| - 1] == stem + digits[..|digits| - 1];
      DigitsBehind(stem, digits[..|digits| - 1]);
    }
  }

  /** The number an id is minted from is the number read off it. */
  lemma MintedNoted(stem: Stem, n: nat)
    requires n <= MAX
    ensures Noted(Minted(stem, n)) == Some(n)
  {
    DigitsBehind(stem, Print(n));
    PrintValue(n);
    assert (stem + Print(n))[|stem|..] == Print(n);
  }

  // ---- The floor over the restored chats ----

  datatype Chat = Chat(messages: seq<string>, chatRuns: seq<string>, timelineRuns: seq<string>)

  function Note(id: string, floor: int): int {
    if Noted(id).Some? && Noted(id).value > floor then Noted(id).value else floor
  }

  function NoteAll(ids: seq<string>, floor: int): int {
    if ids == [] then floor else Note(ids[|ids| - 1], NoteAll(ids[..|ids| - 1], floor))
  }

  /** snapshotIDFloor. */
  function ChatFloor(chat: Chat, floor: int): int {
    NoteAll(chat.timelineRuns, NoteAll(chat.chatRuns, NoteAll(chat.messages, floor)))
  }

  function Floor(chats: seq<Chat>, floor: int): int {
    if chats == [] then floor else ChatFloor(chats[|chats| - 1], Floor(chats[..|chats| - 1], floor))
  }

  /** No id of the list ends in a number above the floor. */
  ghost predicate Below(ids: seq<string>, floor: int) {
    forall i :: 0 <= i < |ids| ==> Noted(ids[i]).None? || Noted(ids[i]).value <= floor
  }

  ghost predicate ChatBelow(chat: Chat, floor: int) {
    Below(chat.messages, floor) && Below(chat.chatRuns, floor) && Below(chat.timelineRuns, floor)
  }

  lemma {:induction false} NoteAllBelow(ids: seq<string>, floor: int)
    ensures NoteAll(ids, floor) >= floor && Below(ids, NoteAll(ids, floor))
    ensures floor <= MAX ==> NoteAll(ids, floor) <= MAX
  {
    if ids != [] {
      var n := |ids| - 1;
      var before := NoteAll(ids[..n], floor);
      NoteAllBelow(ids[..n], floor);
      hide NoteAll;
      assert NoteAll(ids, floor) == Note(ids[n], before) by { NoteAllStep(ids, floor); }
      forall k | 0 <= k < |ids| ensures Noted(ids[k]).None? || Noted(ids[k]).value <= Note(ids[n], before) {
        if k < n { assert ids[k] == ids[..n][k]; }
      }
      hide Noted;
    }
  }

  lemma NoteAllStep(ids: seq<string>, floor: int)
    requires ids != []
    ensures NoteAll(ids, floor) == Note(ids[|ids| - 1], NoteAll(ids[..|ids| - 1], floor))
  {
  }

  lemma BelowMore(ids: seq<string>, floor: int, higher: int)
    requires Below(ids, floor) && floor <= higher
    ensures Below(ids, higher)
  {
  }

  lemma ChatBelowMore(chat: Chat, floor: int, higher: int)
    requires ChatBelow(chat, floor) && floor <= higher
    ensures ChatBelow(chat, higher)
  {
  }

  lemma ChatFloorBelow(chat: Chat, floor: int)
    ensures ChatFloor(chat, floor) >= floor && ChatBelow(chat, ChatFloor(chat, floor))
    ensures floor <= MAX ==> ChatFloor(chat, floor) <= MAX
  {
    hide Below;
    var a := NoteAll(chat.messages, floor);
    var b := NoteAll(chat.chatRuns, a);
    NoteAllBelow(chat.messages, floor);
    NoteAllBelow(chat.chatRuns, a);
    NoteAllBelow(chat.timelineRuns, b);
    BelowMore(chat.messages, a, ChatFloor(chat, floor));
    BelowMore(chat.chatRuns, b, ChatFloor(chat, floor));
  }

  lemma {:induction false} FloorBelow(chats: seq<Chat>, floor: int)
    ensures Floor(chats, floor) >= floor && (floor <= MAX ==> Floor(chats, floor) <= MAX)
    ensures forall k :: 0 <= k < |chats| ==> ChatBelow(chats[k], Floor(chats, floor))
  {
    hide ChatBelow, ChatFloor;
    if chats != [] {
      var n := |chats| - 1;
      var before := Floor(chats[..n], floor);
      FloorBelow(chats[..n], floor);
      ChatFloorBelow(chats[n], before);
      forall k | 0 <= k < |chats| ensures ChatBelow(chats[k], Floor(chats, floor)) {
        if k < n {
          assert chats[k] == chats[..n][k];
          ChatBelowMore(chats[k], before, Floor(chats, floor));
        }
      }
    }
  }

  /** Some id of the list ends in this number. */
  ghost predicate Ends(ids: seq<string>, n: int) {
    exists i :: 0 <= i < |ids| && Noted(ids[i]).Some? && Noted(ids[i]).value == n
  }

  ghost predicate ChatEnds(chat: Chat, n: int) {
    Ends(chat.messages, n) || Ends(chat.chatRuns, n) || Ends(chat.timelineRuns, n)
  }

  lemma {:induction false} NoteAllHeld(ids: seq<string>, floor: int)
    ensures NoteAll(ids, floor) == floor || Ends(ids, NoteAll(ids, floor))
  {
    if ids != [] {
      var n := |ids| - 1;
      NoteAllHeld(ids[..n], floor);
      NoteAllStep(ids, floor);
      hide NoteAll, Noted;
      var before := NoteAll(ids[..n], floor);
      if Ends(ids[..n], before) {
        var i :| 0 <= i < n && Noted(ids[..n][i]).Some? && Noted(ids[..n][i]).value == before;
        assert ids[i] == ids[..n][i];
      }
    }
  }

  /** The floor is no higher than it has to be: where it starts, or a number some restored id ends in. */
  lemma {:induction false} FloorHeld(chats: seq<Chat>, floor: int)
    ensures Floor(chats, floor) == floor || exists k :: 0 <= k < |chats| && ChatEnds(chats[k], Floor(chats, floor))
  {
    if chats != [] {
      var n := |chats| - 1;
      var chat, before := chats[n], Floor(chats[..n], floor);
      FloorHeld(chats[..n], floor);
      var a := NoteAll(chat.messages, before);
      var b := NoteAll(chat.chatRuns, a);
      NoteAllHeld(chat.messages, before);
      NoteAllHeld(chat.chatRuns, a);
      NoteAllHeld(chat.timelineRuns, b);
      assert Floor(chats, floor) == NoteAll(chat.timelineRuns, b);
      hide NoteAll, Ends;
      if Floor(chats, floor) == before && before != floor {
        var k :| 0 <= k < n && ChatEnds(chats[..n][k], before);
        assert chats[k] == chats[..n][k];
      }
    }
  }

  /** An id minted above the floor is none of the ids the floor was taken over. */
  lemma AboveFloorFresh(ids: seq<string>, floor: int, stem: Stem, n: nat)
    requires Below(ids, floor) && floor < n <= MAX
    ensures Minted(stem, n) !in ids
  {
    MintedNoted(stem, n);
  }

  method SnapshotIDFloor(chat: Chat, from: Int64) returns (floor: Int64)
    ensures floor == ChatFloor(chat, from)
  {
    NoteAllBelow(chat.messages, from);
    NoteAllBelow(chat.chatRuns, NoteAll(chat.messages, from));
    floor := NoteIDs(chat.messages, from);
    floor := NoteIDs(chat.chatRuns, floor);
    floor := NoteIDs(chat.timelineRuns, floor);
  }

  method NoteIDs(ids: seq<string>, from: Int64) returns (floor: Int64)
    ensures floor == NoteAll(ids, from)
  {
    floor := from;
    for k := 0 to |ids|
      invariant floor == NoteAll(ids[..k], from)
    {
      assert ids[..k + 1][..k] == ids[..k];
      var start := TrailingDigits(ids[k]);
      if start < |ids[k]| {
        var value := Value(ids[k][start..]);
        if value <= MAX && value > floor {
          floor := value;
        }
      }
    }
    assert ids[..|ids|] == ids;
  }

  method TrailingDigits(id: string) returns (start: nat)
    ensures start == DigitsFrom(id)
  {
    start := |id|;
    assert id[..start] == id;
    while start > 0 && IsDigit(id[start - 1])
      invariant start <= |id| && DigitsFrom(id[..start]) == DigitsFrom(id)
    {
      assert id[..start][..start - 1] == id[..start - 1];
      start := start - 1;
    }
  }
}
