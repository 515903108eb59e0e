/**
 RemintDuplicateIDs of internal/context/compact.go: every repetition of a message id gets a new one,
 and the restoring loop of cmd/harness/main.go that threads the floor through the chats.
 */
module Reminting {
  import Common
  import opened Ids

  datatype Change = Change(index: nat, from: string, to: string)

  /** The loop's state after the first `k` messages. */
  datatype Pass = Pass(out: seq<string>, changes: seq<Change>, seen: set<string>, floor: Int64)

  function Fresh(n: Int64): string { Minted("m-", n) }

  /** One message; a message without an id is passed over. */
  function PassOne(p: Pass, id: string): Pass {
    if id == "" then p.(out := p.out + [id])
    else if id !in p.seen then p.(out := p.out + [id], seen := p.seen + {id})
    else
      var to := Fresh(Next(p.floor));
      Pass(p.out + [to], p.changes + [Change(|p.out|, id, to)], p.seen + {to}, Next(p.floor))
  }

  function PassOver(ids: seq<string>, floor: Int64): (p: Pass)
    ensures |p.out| == |ids| && |p.changes| <= |ids|
  {
    if ids == [] then Pass([], [], {}, floor)
    else PassOne(PassOver(ids[..|ids| - 1], floor), ids[|ids| - 1])
  }

  // ---- Counting on, with wrap-around ----

  /** `floor` counted on `k` times. */
  function Plus(floor: Int64, k: nat): (n: Int64)
  {
    (floor - MIN + k) % SPAN + MIN
  }

  lemma PlusNext(floor: Int64, k: nat)
    ensures Plus(floor, 0) == floor && Plus(floor, k + 1) == Next(Plus(floor, k))
  {
    var a := floor - MIN + k;
    assert (a + 1) % SPAN == if a % SPAN == SPAN - 1 then 0 else a % SPAN + 1;
  }

  lemma PlusApart(floor: Int64, j: nat, k: nat)
    requires j < k < j + SPAN
    ensures Plus(floor, j) != Plus(floor, k)
  {
  }

  // ---- What a pass leaves ----

  ghost predicate Distinct(ids: seq<string>) {
    forall i, j :: 0 <= i < j < |ids| && ids[i] != "" ==> ids[i] != ids[j]
  }

  /** Each change stands where an id stood and carries the next number. */
  ghost predicate ChangesAre(ids: seq<string>, out: seq<string>, changes: seq<Change>, floor: Int64)
    requires |out| == |ids|
  {
    forall c :: 0 <= c < |changes| ==>
      && changes[c].index < |ids| && changes[c].from == ids[changes[c].index] && changes[c].from != ""
      && changes[c].to == Fresh(Plus(floor, c + 1)) && out[changes[c].index] == changes[c].to
  }

  ghost predicate Listed(changes: seq<Change>, i: nat) {
    exists c :: 0 <= c < |changes| && changes[c].index == i
  }

  /** Positions that are not listed are untouched. */
  ghost predicate OthersKept(ids: seq<string>, out: seq<string>, changes: seq<Change>)
    requires |out| == |ids|
  {
    forall i :: 0 <= i < |ids| && !Listed(changes, i) ==> out[i] == ids[i]
  }

  ghost predicate Ordered(changes: seq<Change>) {
    forall c, d :: 0 <= c < d < |changes| ==> changes[c].index < changes[d].index
  }

  /** What was seen: every id there was, every id there is now, and nothing else. */
  ghost predicate SeenIs(ids: seq<string>, out: seq<string>, seen: set<string>) {
    && (forall id :: id in seen <==> id != "" && id in out)
    && (forall i :: 0 <= i < |ids| && ids[i] != "" ==> ids[i] in seen)
  }

  ghost predicate Inv(ids: seq<string>, p: Pass, floor: Int64) {
    && |p.out| == |ids|
    && ChangesAre(ids, p.out, p.changes, floor) && OthersKept(ids, p.out, p.changes) && Ordered(p.changes)
    && SeenIs(ids, p.out, p.seen)
    && p.floor == Plus(floor, |p.changes|)
  }

  lemma FreshNonempty(n: Int64)
    ensures Fresh(n) != ""
  {
    assert |Fresh(n)| >= 2;
  }

  lemma SeenGrows(ids: seq<string>, out: seq<string>, seen: set<string>, id: string, to: string)
    requires |out| == |ids| && SeenIs(ids, out, seen)
    requires if id == "" then to == "" else to != "" && (id in seen || to == id)
    ensures SeenIs(ids + [id], out + [to], if to == "" then seen else seen + {to})
  {
    assert forall x :: x in out + [to] <==> x in out || x == to;
  }

  lemma KeptGrows(ids: seq<string>, out: seq<string>, changes: seq<Change>, id: string, floor: Int64)
    requires |out| == |ids| && OthersKept(ids, out, changes) && ChangesAre(ids, out, changes, floor)
    ensures OthersKept(ids + [id], out + [id], changes) && ChangesAre(ids + [id], out + [id], changes, floor)
  {
  }

  lemma ChangeAdded(ids: seq<string>, out: seq<string>, changes: seq<Change>, id: string, to: string, floor: Int64)
    requires |out| == |ids| && ChangesAre(ids, out, changes, floor) && OthersKept(ids, out, changes) && Ordered(changes)
    requires id != "" && to == Fresh(Plus(floor, |changes| + 1))
    ensures var more := changes + [Change(|out|, id, to)];
            ChangesAre(ids + [id], out + [to], more, floor) && OthersKept(ids + [id], out + [to], more) && Ordered(more)
  {
    OthersStay(ids, out, changes, id, to);
    ChangesMore(ids, out, changes, id, to, floor);
    OrderedMore(ids, out, changes, id, to, floor);
    hide *;
  }

  lemma ChangesMore(ids: seq<string>, out: seq<string>, changes: seq<Change>, id: string, to: string, floor: Int64)
    requires |out| == |ids| && ChangesAre(ids, out, changes, floor)
    requires id != "" && to == Fresh(Plus(floor, |changes| + 1))
    ensures ChangesAre(ids + [id], out + [to], changes + [Change(|out|, id, to)], floor)
  {
    hide Fresh, Plus;
    var more := changes + [Change(|out|, id, to)];
    assert more[|changes|] == Change(|out|, id, to);
    assert forall c :: 0 <= c < |changes| ==> more[c] == changes[c];
  }

  lemma OrderedMore(ids: seq<string>, out: seq<string>, changes: seq<Change>, id: string, to: string, floor: Int64)
    requires |out| == |ids| && ChangesAre(ids, out, changes, floor) && Ordered(changes)
    ensures Ordered(changes + [Change(|out|, id, to)])
  {
    hide Fresh, Plus;
    assert forall c :: 0 <= c < |changes| ==> changes[c].index < |out|;
    hide ChangesAre;
  }

  lemma OthersStay(ids: seq<string>, out: seq<string>, changes: seq<Change>, id: string, to: string)
    requires |out| == |ids| && OthersKept(ids, out, changes)
    ensures OthersKept(ids + [id], out + [to], changes + [Change(|out|, id, to)])
  {
    var more := changes + [Change(|out|, id, to)];
    assert more[|changes|] == Change(|out|, id, to);
    assert forall c :: 0 <= c < |changes| ==> more[c] == changes[c];
    forall i | 0 <= i < |ids| + 1 && !Listed(more, i) ensures (out + [to])[i] == (ids + [id])[i] {
      assert i != |ids|;
      assert !Listed(changes, i);
    }
  }

  lemma {:induction false} PassInv(ids: seq<string>, floor: Int64)
    ensures Inv(ids, PassOver(ids, floor), floor)
  {
    hide *;
    if ids == [] {
      NothingPassed(floor);
    } else {
      var n := |ids| - 1;
      PassInv(ids[..n], floor);
      PassStep(ids, floor);
      PassOneInv(ids[..n], PassOver(ids[..n], floor), ids[n], floor);
    }
  }

  lemma NothingPassed(floor: Int64)
    ensures Inv([], PassOver([], floor), floor)
  {
    PlusNext(floor, 0);
  }

  lemma PassOneInv(ids: seq<string>, p: Pass, id: string, floor: Int64)
    requires Inv(ids, p, floor)
    ensures Inv(ids + [id], PassOne(p, id), floor)
  {
    hide ChangesAre, OthersKept, Ordered, SeenIs, Fresh, Plus, Next;
    if id == "" || id !in p.seen {
      SeenGrows(ids, p.out, p.seen, id, id);
      KeptGrows(ids, p.out, p.changes, id, floor);
    } else {
      var to := Fresh(Next(p.floor));
      PlusNext(floor, |p.changes|);
      FreshNonempty(Next(p.floor));
      SeenGrows(ids, p.out, p.seen, id, to);
      ChangeAdded(ids, p.out, p.changes, id, to, floor);
    }
  }

  // ---- Distinctness ----

  lemma FreshApart(floor: Int64, j: nat, k: nat)
    requires j < k < j + SPAN
    ensures Fresh(Plus(floor, j)) != Fresh(Plus(floor, k))
  {
    PlusApart(floor, j, k);
    var a, b := Plus(floor, j), Plus(floor, k);
    if Fresh(a) == Fresh(b) {
      assert Fresh(a)[2..] == PrintInt(a) && Fresh(b)[2..] == PrintInt(b);
      PrintIntInjective(a, b);
    }
  }

  /** No new id was already there before it was given out. */
  ghost predicate NoneTaken(ids: seq<string>, changes: seq<Change>) {
    forall c :: 0 <= c < |changes| ==> changes[c].index <= |ids| && changes[c].to !in ids[..changes[c].index]
  }

  lemma NextTaken(ids: seq<string>, p: Pass, floor: Int64)
    requires Inv(ids, p, floor) && |p.changes| < SPAN - 1
    ensures var to := Fresh(Plus(floor, |p.changes| + 1));
            to in p.out <==> to in ids
  {
    var k := |p.changes| + 1;
    var to := Fresh(Plus(floor, k));
    FreshNonempty(Plus(floor, k));
    if to in p.out {
      var i :| 0 <= i < |p.out| && p.out[i] == to;
      if Listed(p.changes, i) {
        var c :| 0 <= c < |p.changes| && p.changes[c].index == i;
        FreshApart(floor, c + 1, k);
        assert false;
      }
    }
    hide Plus, Fresh;
  }

  lemma DistinctGrows(out: seq<string>, to: string)
    ensures Distinct(out + [to]) <==> Distinct(out) && (to == "" || to !in out)
  {
    var more := out + [to];
    assert more[|out|] == to;
    assert forall i :: 0 <= i < |out| ==> more[i] == out[i];
    assert Distinct(more) ==> Distinct(out) by {
      if Distinct(more) {
        forall i, j | 0 <= i < j < |out| && out[i] != "" ensures out[i] != out[j] {
          assert more[i] != more[j];
        }
      }
    }
  }

  lemma NoneTakenGrows(ids: seq<string>, changes: seq<Change>, id: string, from: string, to: string)
    requires forall c :: 0 <= c < |changes| ==> changes[c].index < |ids|
    ensures NoneTaken(ids + [id], changes) <==> NoneTaken(ids, changes)
    ensures NoneTaken(ids + [id], changes + [Change(|ids|, from, to)]) <==> NoneTaken(ids, changes) && to !in ids
  {
    var more := changes + [Change(|ids|, from, to)];
    assert forall k :: 0 <= k <= |ids| ==> (ids + [id])[..k] == ids[..k];
    assert ids[..|ids|] == ids;
    assert forall c :: 0 <= c < |changes| ==> more[c] == changes[c];
    assert more[|changes|] == Change(|ids|, from, to);
  }

  /**
   For every list of ids and every floor: the new list repeats no id exactly when no new id was
   already held by an earlier message.
   */
  lemma {:induction false} DistinctIff(ids: seq<string>, floor: Int64)
    requires |ids| < SPAN - 1
    ensures var p := PassOver(ids, floor);
            Distinct(p.out) <==> NoneTaken(ids, p.changes)
  {
    hide *;
    if ids != [] {
      var n := |ids| - 1;
      var front, id := ids[..n], ids[n];
      DistinctIff(front, floor);
      PassInv(front, floor);
      PassStep(ids, floor);
      DistinctStep(front, PassOver(front, floor), id, floor);
    } else {
      NothingTaken(floor);
    }
  }

  lemma NothingTaken(floor: Int64)
    ensures Distinct(PassOver([], floor).out) && NoneTaken([], PassOver([], floor).changes)
  {
  }

  lemma PassStep(ids: seq<string>, floor: Int64)
    requires ids != []
    ensures var n := |ids| - 1;
            PassOver(ids, floor) == PassOne(PassOver(ids[..n], floor), ids[n]) && ids == ids[..n] + [ids[n]]
  {
  }

  lemma DistinctStep(ids: seq<string>, p: Pass, id: string, floor: Int64)
    requires Inv(ids, p, floor) && |p.changes| < SPAN - 1
    requires Distinct(p.out) <==> NoneTaken(ids, p.changes)
    ensures Distinct(PassOne(p, id).out) <==> NoneTaken(ids + [id], PassOne(p, id).changes)
  {
    hide *;
    var to := Fresh(Next(p.floor));
    InvFacts(ids, p, id, floor);
    NextTaken(ids, p, floor);
    PassOneIs(p, id);
    DistinctGrows(p.out, id);
    DistinctGrows(p.out, to);
    NoneTakenGrows(ids, p.changes, id, id, to);
  }

  lemma InvFacts(ids: seq<string>, p: Pass, id: string, floor: Int64)
    requires Inv(ids, p, floor)
    ensures |p.out| == |ids| && (id in p.seen <==> id != "" && id in p.out)
    ensures forall c :: 0 <= c < |p.changes| ==> p.changes[c].index < |ids|
    ensures Fresh(Next(p.floor)) == Fresh(Plus(floor, |p.changes| + 1)) != ""
  {
    PlusNext(floor, |p.changes|);
    FreshNonempty(Next(p.floor));
  }

  lemma PassOneIs(p: Pass, id: string)
    ensures var q, to := PassOne(p, id), Fresh(Next(p.floor));
            if id == "" || id !in p.seen then q.out == p.out + [id] && q.changes == p.changes
            else q.out == p.out + [to] && q.changes == p.changes + [Change(|p.out|, id, to)]
  {
  }

  // ---- The same, from the list and the floor alone ----

  /** The id at `i` is held by an earlier message, or is one of the `given` ids handed out before it. */
  ghost predicate Again(ids: seq<string>, floor: Int64, i: nat, given: nat)
    requires i < |ids|
  {
    ids[i] != "" && (ids[i] in ids[..i] || GivenOut(floor, given, ids[i]))
  }

  /** The new id handed out after `c` others. */
  function NewId(floor: Int64, c: nat): string { Fresh(Plus(floor, c + 1)) }

  ghost predicate GivenOut(floor: Int64, given: nat, id: string) {
    exists c :: 0 <= c < given && NewId(floor, c) == id
  }

  /** How many new ids are handed out before position `k`. */
  ghost function Given(ids: seq<string>, floor: Int64, k: nat): nat
    requires k <= |ids|
  {
    if k == 0 then 0
    else
      var given := Given(ids, floor, k - 1);
      given + if Again(ids, floor, k - 1, given) then 1 else 0
  }

  /** The message at `i` needs a new id, and the next one is already held by an earlier message. */
  ghost predicate Clash(ids: seq<string>, floor: Int64, i: nat)
    requires i < |ids|
  {
    var given := Given(ids, floor, i);
    Again(ids, floor, i, given) && NewId(floor, given) in ids[..i]
  }

  ghost predicate NoClash(ids: seq<string>, floor: Int64) {
    forall i :: 0 <= i < |ids| ==> !Clash(ids, floor, i)
  }

  lemma SeenIsAgain(ids: seq<string>, p: Pass, floor: Int64, id: string)
    requires Inv(ids, p, floor)
    ensures id in p.seen <==> id != "" && (id in ids || GivenOut(floor, |p.changes|, id))
  {
    SeenFacts(ids, p, floor, id);
    hide SeenIs, Ordered, Fresh, Plus;
    if id in p.seen {
      var i :| 0 <= i < |p.out| && p.out[i] == id;
      var c := OutAt(ids, p, floor, i);
      assert c >= 0 ==> NewId(floor, c) == id;
    }
    if id != "" && GivenOut(floor, |p.changes|, id) {
      var c :| 0 <= c < |p.changes| && NewId(floor, c) == id;
      assert p.out[p.changes[c].index] == id;
    }
  }

  lemma {:induction false} GivenPrefix(ids: seq<string>, floor: Int64, k: nat, n: nat)
    requires k <= n <= |ids|
    ensures Given(ids[..n], floor, k) == Given(ids, floor, k)
  {
    if k > 0 {
      GivenPrefix(ids, floor, k - 1, n);
      assert ids[..n][..k - 1] == ids[..k - 1] && ids[..n][k - 1] == ids[k - 1];
      hide GivenOut;
    }
  }

  lemma ClashPrefix(ids: seq<string>, floor: Int64, i: nat, n: nat)
    requires i < n <= |ids|
    ensures Clash(ids[..n], floor, i) <==> Clash(ids, floor, i)
  {
    GivenPrefix(ids, floor, i, n);
    assert ids[..n][..i] == ids[..i] && ids[..n][i] == ids[i];
    hide GivenOut, Given, Fresh, Plus;
  }

  lemma {:induction false} ChangesAreGiven(ids: seq<string>, floor: Int64)
    ensures |PassOver(ids, floor).changes| == Given(ids, floor, |ids|)
  {
    if ids != [] {
      var n := |ids| - 1;
      var front, p := ids[..n], PassOver(ids[..n], floor);
      ChangesAreGiven(front, floor);
      GivenPrefix(ids, floor, n, n);
      PassStep(ids, floor);
      PassInv(front, floor);
      SeenIsAgain(front, p, floor, ids[n]);
      PassOneIs(p, ids[n]);
      hide Fresh, Plus, Next, Inv, PassOver, PassOne, GivenOut;
    }
  }

  lemma {:induction false} NoneTakenIffNoClash(ids: seq<string>, floor: Int64)
    ensures NoneTaken(ids, PassOver(ids, floor).changes) <==> NoClash(ids, floor)
  {
    if ids != [] {
      var n := |ids| - 1;
      var front, p := ids[..n], PassOver(ids[..n], floor);
      NoneTakenIffNoClash(front, floor);
      hide *;
      PassInv(front, floor);
      PassStep(ids, floor);
      PassOneIs(p, ids[n]);
      InvFacts(front, p, ids[n], floor);
      NoneTakenGrows(front, p.changes, ids[n], ids[n], Fresh(Next(p.floor)));
      LastClash(ids, floor);
      NoClashGrows(ids, floor);
    } else {
      NothingTaken(floor);
    }
  }

  lemma NoClashGrows(ids: seq<string>, floor: Int64)
    requires ids != []
    ensures var n := |ids| - 1;
            NoClash(ids, floor) <==> NoClash(ids[..n], floor) && !Clash(ids, floor, n)
  {
    var n := |ids| - 1;
    forall i | 0 <= i < n ensures Clash(ids[..n], floor, i) <==> Clash(ids, floor, i) {
      ClashPrefix(ids, floor, i, n);
    }
    hide Clash;
  }

  /** The last message clashes exactly when it is given an id an earlier message holds. */
  lemma LastClash(ids: seq<string>, floor: Int64)
    requires ids != []
    ensures var n := |ids| - 1;
            var p := PassOver(ids[..n], floor);
            Clash(ids, floor, n) <==> ids[n] != "" && ids[n] in p.seen && Fresh(Next(p.floor)) in ids[..n]
  {
    hide *;
    var n := |ids| - 1;
    var front, p := ids[..n], PassOver(ids[..n], floor);
    ChangesAreGiven(front, floor);
    GivenPrefix(ids, floor, n, n);
    PassInv(front, floor);
    SeenIsAgain(front, p, floor, ids[n]);
    InvFacts(front, p, ids[n], floor);
    ClashIs(ids, floor, n, |p.changes|);
  }

  lemma ClashIs(ids: seq<string>, floor: Int64, i: nat, given: nat)
    requires i < |ids| && given == Given(ids, floor, i)
    ensures Clash(ids, floor, i) <==>
              && ids[i] != "" && (ids[i] in ids[..i] || GivenOut(floor, given, ids[i]))
              && Fresh(Plus(floor, given + 1)) in ids[..i]
  {
    hide GivenOut, Given, Fresh, Plus;
  }

  /**
   For every list of ids and every floor, from these alone: the reminted list repeats no id if and
   only if no message that needs a new id is given one that an earlier message holds.
   */
  lemma DistinctIffNoClash(ids: seq<string>, floor: Int64)
    requires |ids| < SPAN - 1
    ensures Distinct(PassOver(ids, floor).out) <==> NoClash(ids, floor)
  {
    hide *;
    DistinctIff(ids, floor);
    NoneTakenIffNoClash(ids, floor);
  }

  /** With a sufficient floor only an id counted past the top of the range can clash. */
  lemma OnlyWrappedClash(ids: seq<string>, floor: Int64, i: nat)
    requires floor >= 0 && Below(ids, floor) && i < |ids| && Clash(ids, floor, i)
    ensures floor + Given(ids, floor, i) + 1 > MAX
  {
    var k := Given(ids, floor, i) + 1;
    assert Fresh(Plus(floor, k)) in ids;
    hide Below, Fresh, Plus, Given;
    if floor + k <= MAX {
      FreshNotHeld(ids, floor, k);
      assert false;
    }
  }

  /** At the top of the range the counter wraps, and a new id can repeat one the chat already holds. */
  lemma WrapRepeats(top: Int64, low: Int64)
    requires top == MAX && low == MIN
    ensures var ids := [Fresh(top), Fresh(low), Fresh(top)];
            && NoteAll(ids, 0) == top
            && PassOver(ids, top).out == [Fresh(top), Fresh(low), Fresh(low)]
            && !Distinct(PassOver(ids, top).out)
  {
    hide *;
    var a, b := Fresh(top), Fresh(low);
    TopAndLow(top, low);
    NoteThree(a, b, top);
    PassThree(a, b, top, low);
  }

  lemma TopAndLow(top: Int64, low: Int64)
    requires top == MAX && low == MIN
    ensures Noted(Fresh(top)) == Common.Some(top) && Noted(Fresh(low)).None? && Next(top) == low
    ensures Fresh(top) != "" && Fresh(low) != "" && Fresh(top) != Fresh(low) && top > 0
  {
    hide Noted, Print, Value, DigitsFrom;
    MintedNoted("m-", top);
    var size: int := low;
    TooBigToNote(-size);
    assert "m-" + ("-" + Print(-size)) == "m--" + Print(-size);
  }

  lemma TooBigToNote(n: nat)
    requires n > MAX
    ensures Noted("m--" + Print(n)).None?
  {
    DigitsBehind("m--", Print(n));
    PrintValue(n);
    assert ("m--" + Print(n))[3..] == Print(n);
  }

  lemma NoteThree(a: string, b: string, top: Int64)
    requires Noted(a) == Common.Some(top) && Noted(b).None? && top > 0
    ensures NoteAll([a, b, a], 0) == top
  {
    hide Noted;
    assert [a, b, a][..2] == [a, b] && [a, b][..1] == [a] && [a][..0] == [];
    assert NoteAll([a], 0) == top;
    assert NoteAll([a, b], 0) == top;
  }

  lemma PassThree(a: string, b: string, top: Int64, low: Int64)
    requires a != "" && b != "" && a != b && b == Fresh(low) && Next(top) == low
    ensures PassOver([a, b, a], top).out == [a, b, b] && !Distinct(PassOver([a, b, a], top).out)
  {
    hide Fresh;
    var ids := [a, b, a];
    assert ids[..2] == [a, b] && [a, b][..1] == [a] && [a][..0] == [];
    var p := Pass([a], [], {a}, top);
    var q := Pass([a, b], [], {a, b}, top);
    assert PassOver([a], top) == p;
    assert PassOver([a, b], top) == q;
    assert PassOver(ids, top) == PassOne(q, a);
    var out := PassOver(ids, top).out;
    assert out == [a, b] + [b];
    assert out[1] == out[2];
  }

  // ---- Below the top of the range ----

  /** How many messages repeat an earlier one's id. */
  function Repeats(ids: seq<string>): (n: nat)
    ensures n <= |ids|
  {
    if ids == [] then 0
    else
      var n := |ids| - 1;
      Repeats(ids[..n]) + if ids[n] != "" && ids[n] in ids[..n] then 1 else 0
  }

  ghost predicate Repeated(ids: seq<string>, i: nat)
    requires i < |ids|
  {
    ids[i] != "" && ids[i] in ids[..i]
  }

  lemma PlusNoWrap(floor: Int64, k: nat)
    requires floor + k <= MAX
    ensures Plus(floor, k) == floor + k
  {
  }

  lemma FreshNotHeld(ids: seq<string>, floor: Int64, k: nat)
    requires floor >= 0 && Below(ids, floor) && k > 0 && floor + k <= MAX
    ensures Fresh(Plus(floor, k)) !in ids
  {
    PlusNoWrap(floor, k);
    AboveFloorFresh(ids, floor, "m-", floor + k);
  }

  /** Only repeated positions are listed. */
  ghost predicate ListsRepeats(ids: seq<string>, changes: seq<Change>) {
    forall i :: 0 <= i < |ids| ==> (Listed(changes, i) <==> Repeated(ids, i))
  }

  lemma SeenOnlyHeld(all: seq<string>, ids: seq<string>, p: Pass, floor: Int64, id: string)
    requires Inv(ids, p, floor) && id in all && floor >= 0 && Below(all, floor) && floor + |p.changes| <= MAX
    ensures id in p.seen <==> id != "" && id in ids
  {
    hide *;
    SeenFacts(ids, p, floor, id);
    if id in p.seen {
      var i := IndexOf(p.out, id);
      var c := OutAt(ids, p, floor, i);
      if c >= 0 {
        FreshNotHeld(all, floor, c + 1);
        assert false;
      }
    }
  }

  lemma IndexOf(ids: seq<string>, id: string) returns (i: nat)
    requires id in ids
    ensures i < |ids| && ids[i] == id
  {
    i :| 0 <= i < |ids| && ids[i] == id;
  }

  lemma SeenFacts(ids: seq<string>, p: Pass, floor: Int64, id: string)
    requires Inv(ids, p, floor)
    ensures |p.out| == |ids|
    ensures id in p.seen <==> id != "" && id in p.out
    ensures id != "" && id in ids ==> id in p.seen
  {
  }

  /** A message's id is its own, or the change that gave it a new one. */
  lemma OutAt(ids: seq<string>, p: Pass, floor: Int64, i: nat) returns (c: int)
    requires Inv(ids, p, floor) && i < |ids|
    ensures -1 <= c < |p.changes| && |p.out| == |ids|
    ensures p.out[i] == if c < 0 then ids[i] else Fresh(Plus(floor, c + 1))
  {
    hide SeenIs, Ordered;
    if Listed(p.changes, i) {
      c :| 0 <= c < |p.changes| && p.changes[c].index == i;
    } else {
      c := -1;
    }
  }

  lemma ListsGrow(ids: seq<string>, changes: seq<Change>, id: string, change: Change)
    requires ListsRepeats(ids, changes) && change.index == |ids|
    requires forall c :: 0 <= c < |changes| ==> changes[c].index < |ids|
    ensures !(id != "" && id in ids) ==> ListsRepeats(ids + [id], changes)
    ensures id != "" && id in ids ==> ListsRepeats(ids + [id], changes + [change])
  {
    var more := ids + [id];
    assert forall i :: 0 <= i <= |ids| ==> more[..i] == ids[..i];
    assert ids[..|ids|] == ids;
    assert forall i :: 0 <= i < |ids| ==> (Repeated(more, i) <==> Repeated(ids, i));
    assert Repeated(more, |ids|) <==> id != "" && id in ids;
    forall i | 0 <= i <= |ids| ensures Listed(changes + [change], i) <==> Listed(changes, i) || i == |ids| {
      ListedGrows(changes, change, i);
    }
    assert !Listed(changes, |ids|);
    hide Listed, Repeated;
  }

  lemma ListedGrows(changes: seq<Change>, change: Change, i: nat)
    ensures Listed(changes + [change], i) <==> Listed(changes, i) || i == change.index
  {
    var more := changes + [change];
    assert more[|changes|] == change;
    assert forall c :: 0 <= c < |changes| ==> more[c] == changes[c];
  }

  lemma {:induction false} ListsExactly(all: seq<string>, ids: seq<string>, floor: Int64)
    requires floor >= 0 && Below(all, floor) && floor + Repeats(ids) <= MAX
    requires forall i :: 0 <= i < |ids| ==> ids[i] in all
    ensures var p := PassOver(ids, floor);
            |p.changes| == Repeats(ids) && ListsRepeats(ids, p.changes)
  {
    if ids != [] {
      var n := |ids| - 1;
      var front, id, p := ids[..n], ids[n], PassOver(ids[..n], floor);
      assert Repeats(ids) == Repeats(front) + if id != "" && id in front then 1 else 0;
      hide Repeats, Below, ListsRepeats;
      ListsExactly(all, front, floor);
      PassStep(ids, floor);
      PassInv(front, floor);
      SeenOnlyHeld(all, front, p, floor, id);
      InvFacts(front, p, id, floor);
      PassOneIs(p, id);
      ListsGrow(front, p.changes, id, Change(n, id, Fresh(Next(p.floor))));
      hide *;
    }
  }

  lemma NoneTakenBelow(ids: seq<string>, floor: Int64, changes: seq<Change>, out: seq<string>)
    requires floor >= 0 && Below(ids, floor) && floor + |changes| <= MAX
    requires |out| == |ids| && ChangesAre(ids, out, changes, floor)
    ensures forall c :: 0 <= c < |changes| ==> changes[c].to !in ids
  {
    hide Below, Noted, Fresh, Plus;
    forall c | 0 <= c < |changes| ensures changes[c].to !in ids {
      FreshNotHeld(ids, floor, c + 1);
    }
  }

  lemma OutBelow(ids: seq<string>, p: Pass, floor: Int64)
    requires Inv(ids, p, floor) && floor >= 0 && Below(ids, floor) && floor + |p.changes| <= MAX
    ensures Below(p.out, floor + |p.changes|)
  {
    InvFacts(ids, p, "", floor);
    hide Noted, Inv, Fresh, Plus;
    forall i | 0 <= i < |p.out| ensures Noted(p.out[i]).None? || Noted(p.out[i]).value <= floor + |p.changes| {
      var c := OutAt(ids, p, floor, i);
      if c >= 0 {
        PlusNoWrap(floor, c + 1);
        FreshNoted(floor + c + 1);
      }
    }
  }

  lemma FreshNoted(n: Int64)
    requires n >= 0
    ensures Noted(Fresh(n)) == Common.Some(n)
  {
    MintedNoted("m-", n);
  }

  /**
   With the floor at or above every number the chat's ids end in, and room for its repetitions below
   the top of the range: no id is repeated afterwards, exactly the repetitions are listed and all
   else is kept, and the new floor is again at or above every number.
   */
  lemma RemintSound(ids: seq<string>, floor: Int64)
    requires |ids| < SPAN - 1 && floor >= 0 && Below(ids, floor) && floor + Repeats(ids) <= MAX
    ensures var p := PassOver(ids, floor);
            && Distinct(p.out)
            && ListsRepeats(ids, p.changes) && OthersKept(ids, p.out, p.changes)
            && (forall c :: 0 <= c < |p.changes| ==> p.changes[c].to !in ids)
            && |p.changes| == Repeats(ids) && p.floor == floor + Repeats(ids) && Below(p.out, p.floor)
  {
    hide Noted;
    var p := PassOver(ids, floor);
    PassInv(ids, floor);
    assert forall i :: 0 <= i < |ids| ==> ids[i] in ids;
    ListsExactly(ids, ids, floor);
    PlusNoWrap(floor, |p.changes|);
    OutBelow(ids, p, floor);
    NoneTakenBelow(ids, floor, p.changes, p.out);
    assert forall c :: 0 <= c < |p.changes| ==> p.changes[c].index < |ids|;
    assert NoneTaken(ids, p.changes);
    hide PassOver, Repeats, Below, ListsRepeats, OthersKept, Distinct, NoneTaken;
    DistinctIff(ids, floor);
  }

  /** Below the top of the range: the changes in order, each naming the id replaced and "m-" with the next number. */
  lemma ChangesSpelled(ids: seq<string>, floor: Int64, c: nat)
    requires floor >= 0 && c < |PassOver(ids, floor).changes| && floor + c + 1 <= MAX
    ensures var p := PassOver(ids, floor);
            var change := p.changes[c];
            && |p.out| == |ids| && change.index < |ids| && change.from == ids[change.index]
            && change.to == p.out[change.index] == "m-" + Print(floor + c + 1)
            && (c > 0 ==> p.changes[c - 1].index < change.index)
  {
    PassInv(ids, floor);
    PlusNoWrap(floor, c + 1);
    hide PassOver, Plus, Print;
  }

  /** Reminting again changes nothing. */
  lemma {:induction false} RemintTwice(ids: seq<string>, floor: Int64)
    requires Distinct(ids)
    ensures var p := PassOver(ids, floor);
            p.out == ids && p.changes == [] && p.floor == floor && forall id :: id in p.seen ==> id in ids
  {
    if ids != [] {
      var n := |ids| - 1;
      LastIsNew(ids);
      hide *;
      PassStep(ids, floor);
      RemintTwice(ids[..n], floor);
      OneNew(PassOver(ids[..n], floor), ids[n]);
    }
  }

  lemma LastIsNew(ids: seq<string>)
    requires ids != [] && Distinct(ids)
    ensures var n := |ids| - 1; Distinct(ids[..n]) && (ids[n] == "" || ids[n] !in ids[..n])
  {
  }

  lemma OneNew(p: Pass, id: string)
    requires id == "" || id !in p.seen
    ensures var q := PassOne(p, id);
            q.out == p.out + [id] && q.changes == p.changes && q.floor == p.floor && forall x :: x in q.seen ==>
                x in p.seen || x == id
  {
  }

  method RemintDuplicateIDs(ids: seq<string>, from: Int64) returns (out: seq<string>, changes: seq<Change>,
                            floor: Int64)
    ensures var p := PassOver(ids, from);
            out == p.out && changes == p.changes && floor == p.floor
  {
    hide Fresh;
    var seen: set<string> := {};
    out, changes, floor := ids, [], from;
    for index := 0 to |ids|
      invariant |out| == |ids| && out[index..] == ids[index..]
      invariant PassOver(ids[..index], from) == Pass(out[..index], changes, seen, floor)
    {
      var id := out[index];
      assert id == ids[index] by { assert out[index..][0] == ids[index..][0]; }
      assert ids[..index + 1][..index] == ids[..index];
      ghost var before := out;
      if id != "" && id !in seen {
        seen := seen + {id};
      } else if id != "" {
        floor := Next(floor);
        var to := Fresh(floor);
        changes := changes + [Change(index, id, to)];
        out, seen := out[index := to], seen + {to};
      }
      assert out[..index + 1] == before[..index] + [out[index]];
      assert out[index + 1..] == before[index..][1..] == ids[index..][1..] == ids[index + 1..];
    }
    assert ids[..|ids|] == ids && out[..|ids|] == out;
  }
}
