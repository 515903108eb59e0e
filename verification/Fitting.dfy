/**
 Fitting a turn's tool results into the room left in the context window: the loop of
 internal/agent/run_phases.go that shares the room out, and the search of
 internal/agent/tool_window.go that cuts one result to its share.
 */
module Fitting {

  /** A string of bytes. */
  type Text = seq<char>

  /**
   What the model does not look into: the tokenizer, the removal of the broken characters at a cut,
   and the server's byte limit with what caps a result to it.
   */
  datatype Env = Env(count: Text -> nat, clean: Text -> Text, byteLimit: int, capped: Text -> Text)

  const SEPARATOR: Text := "\n\n"
  const MARGIN := 1024

  /** A tool's output, the note that replaces what is cut from it, and what the model is sent. */
  datatype ToolResult = ToolResult(content: Text, note: Text, tokens: nat, tooLarge: bool)

  // ---- Cutting one result ----

  function HeadLength(keep: nat): (n: nat)
    ensures n <= keep
  {
    keep * 2 / 3
  }

  function Head(content: Text, keep: nat): Text
    requires keep <= |content|
  {
    content[..HeadLength(keep)]
  }

  function Tail(content: Text, keep: nat): Text
    requires keep <= |content|
  {
    content[|content| - (keep - HeadLength(keep))..]
  }

  function Build(env: Env, content: Text, note: Text, keep: nat): Text
    requires keep <= |content|
  {
    env.clean(Head(content, keep)) + SEPARATOR + note + SEPARATOR + env.clean(Tail(content, keep))
  }

  predicate KeepFits(env: Env, content: Text, note: Text, limit: int, keep: nat)
    requires keep <= |content|
  {
    env.count(Build(env, content, note, keep)) <= limit
  }

  /** The binary search: the last probe that fitted, or `best` if none did. */
  function Search(env: Env, content: Text, note: Text, limit: int, low: nat, high: int, best: int): (k: int)
    requires -1 <= best < low && low <= high + 1 <= |content| + 1
    ensures -1 <= k <= |content| && k >= best
    ensures k == best || KeepFits(env, content, note, limit, k)
    decreases high - low + 1
  {
    if low > high then best
    else
      var keep := low + (high - low) / 2;
      if KeepFits(env, content, note, limit, keep) then Search(env, content, note, limit, keep + 1, high, keep)
      else Search(env, content, note, limit, low, keep - 1, best)
  }

  /** cutResultToTokens. */
  function Cut(env: Env, content: Text, note: Text, limit: int): Text {
    var k := Search(env, content, note, limit, 0, |content|, -1);
    if k < 0 then note else Build(env, content, note, k)
  }

  /** The parts kept of a result are its own beginning and end, with no overlap. */
  lemma PartsDisjoint(content: Text, keep: nat)
    requires keep <= |content|
    ensures var head, tail := Head(content, keep), Tail(content, keep);
            && |head| + |tail| == keep
            && content == head + content[|head|..|content| - |tail|] + tail
  {
  }

  /** A longer cut never costs fewer tokens. */
  ghost predicate Growing(env: Env, content: Text, note: Text) {
    forall j: nat, k: nat :: j <= k <= |content| ==>
      env.count(Build(env, content, note, j)) <= env.count(Build(env, content, note, k))
  }

  /** What fits stays fitting when less is kept. */
  ghost predicate FitsBelow(env: Env, content: Text, note: Text, limit: int) {
    forall j: nat, k: nat :: j <= k <= |content| && KeepFits(env, content, note, limit, k) ==>
        KeepFits(env, content, note, limit, j)
  }

  lemma GrowingFitsBelow(env: Env, content: Text, note: Text, limit: int)
    requires Growing(env, content, note)
    ensures FitsBelow(env, content, note, limit)
  {
    hide Build;
  }

  lemma SearchStep(env: Env, content: Text, note: Text, limit: int, low: nat, high: int, best: int)
    requires -1 <= best < low && low <= high + 1 <= |content| + 1
    ensures low > high ==> Search(env, content, note, limit, low, high, best) == best
    ensures low <= high ==>
              var keep := low + (high - low) / 2;
              low <= keep <= high && Search(env, content, note, limit, low, high, best) ==
              if KeepFits(env, content, note, limit, keep) then Search(env, content, note, limit, keep + 1, high, keep)
              else Search(env, content, note, limit, low, keep - 1, best)
  {
    hide KeepFits;
  }

  lemma {:induction false} SearchLongest(env: Env, content: Text, note: Text, limit: int, low: nat, high: int,
                                         best: int)
    requires -1 <= best < low && low <= high + 1 <= |content| + 1
    requires FitsBelow(env, content, note, limit)
    requires forall k: nat :: best < k < low ==> !KeepFits(env, content, note, limit, k)
    requires forall k: nat :: high < k <= |content| ==> !KeepFits(env, content, note, limit, k)
    ensures var found := Search(env, content, note, limit, low, high, best);
            forall k: nat :: found < k <= |content| ==> !KeepFits(env, content, note, limit, k)
    decreases high - low + 1
  {
    hide KeepFits, Search;
    SearchStep(env, content, note, limit, low, high, best);
    if low <= high {
      var keep := low + (high - low) / 2;
      if KeepFits(env, content, note, limit, keep) {
        SearchLongest(env, content, note, limit, keep + 1, high, keep);
      } else {
        SearchLongest(env, content, note, limit, low, keep - 1, best);
      }
    }
  }

  /**
   A cut is the bare note, or parts around the note that fit the limit. When tokens grow with the
   kept length it is the longest cut that fits, and the bare note only when no cut fits.
   */
  lemma CutIsLongest(env: Env, content: Text, note: Text, limit: int) returns (k: int)
    ensures -1 <= k <= |content|
    ensures Cut(env, content, note, limit) == if k < 0 then note else Build(env, content, note, k)
    ensures k >= 0 ==> KeepFits(env, content, note, limit, k)
    ensures Growing(env, content, note) ==>
              forall j: nat :: k < j <= |content| ==> !KeepFits(env, content, note, limit, j)
  {
    k := Search(env, content, note, limit, 0, |content|, -1);
    if Growing(env, content, note) {
      GrowingFitsBelow(env, content, note, limit);
      SearchLongest(env, content, note, limit, 0, |content|, -1);
    }
    hide KeepFits, Build;
  }

  /** A beginning and an end of the content around the note. */
  function Pasted(env: Env, content: Text, note: Text, p: nat, q: nat): Text
    requires p + q <= |content|
  {
    env.clean(content[..p]) + "\n\n" + note + "\n\n" + env.clean(content[|content| - q..])
  }

  /** The beginning is two thirds of what is kept, rounded down. */
  predicate TwoThirds(p: nat, q: nat) { 3 * p <= 2 * (p + q) < 3 * p + 3 }

  /** Keeping more never costs fewer tokens. */
  ghost predicate Costlier(env: Env, content: Text, note: Text) {
    forall p: nat, q: nat, p': nat, q': nat ::
      TwoThirds(p, q) && TwoThirds(p', q') && p + q <= p' + q' <= |content| ==>
        env.count(Pasted(env, content, note, p, q)) <= env.count(Pasted(env, content, note, p', q'))
  }

  /**
   A result cut to its limit: the bare note, or the content's beginning, a blank line, the note, a blank
   line and the content's end, within the limit; and when keeping more costs no fewer tokens, nothing
   longer fits.
   */
  ghost predicate IsCut(env: Env, content: Text, note: Text, limit: int, cut: Text) {
    || (cut == note && (Costlier(env, content, note) ==> NothingFits(env, content, note, limit, 0)))
    || exists p: nat, q: nat ::
         && p + q <= |content| && TwoThirds(p, q) && cut == Pasted(env, content, note, p, q)
         && env.count(cut) <= limit
         && (Costlier(env, content, note) ==> NothingFits(env, content, note, limit, p + q + 1))
  }

  ghost predicate NothingFits(env: Env, content: Text, note: Text, limit: int, from: nat) {
    forall p: nat, q: nat :: TwoThirds(p, q) && from <= p + q <= |content| ==>
      env.count(Pasted(env, content, note, p, q)) > limit
  }

  /** Where a kept length is split. */
  lemma SplitAt(keep: nat)
    ensures TwoThirds(HeadLength(keep), keep - HeadLength(keep))
    ensures forall p: nat, q: nat :: TwoThirds(p, q) && p + q == keep ==> p == HeadLength(keep)
  {
  }

  lemma BuildIsPasted(env: Env, content: Text, note: Text, keep: nat)
    requires keep <= |content|
    ensures var p := HeadLength(keep);
            p + (keep - p) <= |content| && Build(env, content, note, keep) == Pasted(env, content, note, p, keep - p)
  {
  }

  lemma CostlierGrows(env: Env, content: Text, note: Text)
    requires Costlier(env, content, note)
    ensures Growing(env, content, note)
  {
    forall j: nat, k: nat | j <= k <= |content|
      ensures env.count(Build(env, content, note, j)) <= env.count(Build(env, content, note, k))
    {
      SplitAt(j);
      SplitAt(k);
      BuildIsPasted(env, content, note, j);
      BuildIsPasted(env, content, note, k);
    }
  }

  lemma NothingLonger(env: Env, content: Text, note: Text, limit: int, from: nat)
    requires forall j: nat :: from <= j <= |content| ==> !KeepFits(env, content, note, limit, j)
    ensures NothingFits(env, content, note, limit, from)
  {
    forall p: nat, q: nat | TwoThirds(p, q) && from <= p + q <= |content|
      ensures env.count(Pasted(env, content, note, p, q)) > limit
    {
      SplitAt(p + q);
      BuildIsPasted(env, content, note, p + q);
      assert !KeepFits(env, content, note, limit, p + q);
    }
  }

  /** What the search finds is a cut. */
  lemma CutIsCut(env: Env, content: Text, note: Text, limit: int)
    ensures IsCut(env, content, note, limit, Cut(env, content, note, limit))
  {
    var k := CutIsLongest(env, content, note, limit);
    if Costlier(env, content, note) {
      CostlierGrows(env, content, note);
      NothingLonger(env, content, note, limit, k + 1);
    }
    if k >= 0 {
      SplitAt(k);
      BuildIsPasted(env, content, note, k);
    }
    hide Cut, Build, Pasted, Costlier, Growing, NothingFits;
  }

  method CutResultToTokens(env: Env, content: Text, note: Text, limit: int) returns (best: Text)
    ensures best == Cut(env, content, note, limit) && IsCut(env, content, note, limit, best)
  {
    CutIsCut(env, content, note, limit);
    hide Build, Search, IsCut;
    SearchStep(env, content, note, limit, 0, |content|, -1);
    var low, high := 0, |content|;
    best := note;
    ghost var kept := -1;
    while low <= high
      invariant -1 <= kept < low <= high + 1 <= |content| + 1
      invariant best == if kept < 0 then note else Build(env, content, note, kept)
      invariant Search(env, content, note, limit, low, high, kept) ==
                Search(env, content, note, limit, 0, |content|, -1)
      decreases high - low + 1
    {
      SearchStep(env, content, note, limit, low, high, kept);
      var keep := low + (high - low) / 2;
      var candidate := Build(env, content, note, keep);
      if env.count(candidate) <= limit {
        best, low := candidate, keep + 1;
        kept := keep;
      } else {
        high := keep - 1;
      }
    }
    SearchStep(env, content, note, limit, low, high, kept);
  }

  // ---- Fitting one result to its share ----

  /** fitWindowResult, then the byte cap; a negative share means the window is unknown. */
  function Fit(env: Env, item: ToolResult, share: int): ToolResult {
    var whole := env.count(item.content);
    var fitted :=
      if share < 0 || whole <= share then item.(tokens := whole)
      else
        var cut := Cut(env, item.content, item.note, share);
        item.(content := cut, tokens := env.count(cut), tooLarge := true);
    if env.byteLimit > 0 && |fitted.content| > env.byteLimit / 4 then
      var capped := env.capped(fitted.content);
      fitted.(content := capped, tokens := env.count(capped), tooLarge := true)
    else fitted
  }

  /** No byte limit is in force, or capping to it adds no tokens. */
  ghost predicate CapsQuietly(env: Env) {
    env.byteLimit > 0 ==> forall t :: env.count(env.capped(t)) <= env.count(t)
  }

  /** A result goes over its share only as the bare note, and only when the note itself does. */
  lemma OverOnlyByNote(env: Env, item: ToolResult, share: nat)
    requires CapsQuietly(env)
    ensures Fit(env, item, share).tokens <= share || env.count(item.note) > share
  {
    var k := CutIsLongest(env, item.content, item.note, share);
    hide Cut, Build;
  }

  /** What a result's content becomes for its share: itself where it fits, and otherwise a cut. */
  ghost predicate Fitted(env: Env, item: ToolResult, share: int, content: Text) {
    if share < 0 || env.count(item.content) <= share then content == item.content
    else IsCut(env, item.content, item.note, share, content)
  }

  /**
   What is sent is the content itself or its cut, capped when it is over a quarter of the byte limit;
   it is marked too large exactly when it was cut or capped, or was marked before.
   */
  lemma FittedAndCapped(env: Env, item: ToolResult, share: int) returns (content: Text)
    ensures Fitted(env, item, share, content)
    ensures var out, over := Fit(env, item, share), env.byteLimit > 0 && |content| > env.byteLimit / 4;
            && out.content == (if over then env.capped(content) else content)
            && out.tokens == env.count(out.content) && out.note == item.note
            && (out.tooLarge <==> item.tooLarge || over || (0 <= share < env.count(item.content)))
  {
    CutIsCut(env, item.content, item.note, share);
    hide Cut, Build, IsCut;
    content := if share < 0 || env.count(item.content) <= share then item.content
               else Cut(env, item.content, item.note, share);
  }

  lemma WithinShareUntouched(env: Env, item: ToolResult, share: int)
    requires env.byteLimit <= 0 && (share < 0 || env.count(item.content) <= share)
    ensures Fit(env, item, share) == item.(tokens := env.count(item.content))
  {
  }

  // ---- Sharing the room out ----

  function Max(a: int, b: int): int { if a >= b then a else b }

  /** The room for a turn's results; -1 when the window is unknown. */
  function Room(window: int, reserve: int, used: int): (room: int)
    ensures room >= -1 && (room == -1 <==> window <= 0)
  {
    if window > 0 then Max(0, window - reserve - used - MARGIN) else -1
  }

  /** With a known window the room, the reserve, what is used and 1024 tokens of margin fill it, or there is no room. */
  lemma RoomLeavesMargin(window: int, reserve: int, used: int)
    requires window > 0
    ensures var room := Room(window, reserve, used);
            room >= 0 && (room + reserve + used + 1024 == window || (room == 0 && reserve + used + 1024 > window))
  {
  }

  /** The share of result `i` out of what is left when its turn comes. */
  function Share(left: int, n: nat, i: nat): int
    requires i < n
  {
    if left >= 0 then left / (n - i) else left
  }

  /** What is left after the first `i` results. */
  function Left(env: Env, items: seq<ToolResult>, room: int, i: nat): (left: int)
    requires i <= |items|
    ensures room >= 0 ==> left >= 0
    ensures room < 0 ==> left == room
  {
    if i == 0 then room
    else
      var before := Left(env, items, room, i - 1);
      if before < 0 then before
      else Max(0, before - Fit(env, items[i - 1], Share(before, |items|, i - 1)).tokens)
  }

  function ShareOf(env: Env, items: seq<ToolResult>, room: int, i: nat): int
    requires i < |items|
  {
    Share(Left(env, items, room, i), |items|, i)
  }

  function FittedAt(env: Env, items: seq<ToolResult>, room: int, i: nat): ToolResult
    requires i < |items|
  {
    Fit(env, items[i], ShareOf(env, items, room, i))
  }

  /** Tokens of the first `i` fitted results. */
  function Spent(env: Env, items: seq<ToolResult>, room: int, i: nat): nat
    requires i <= |items|
  {
    if i == 0 then 0 else Spent(env, items, room, i - 1) + FittedAt(env, items, room, i - 1).tokens
  }

  /** Every bare note fits an even share. */
  ghost predicate NotesFit(env: Env, items: seq<ToolResult>, room: int) {
    forall i :: 0 <= i < |items| ==> env.count(items[i].note) * |items| <= room
  }

  lemma ShareGrows(left: nat, tokens: nat, n: nat, i: nat)
    requires i + 1 < n && tokens <= Share(left, n, i)
    ensures tokens <= left && Share(left - tokens, n, i + 1) >= Share(left, n, i)
  {
    var m, a := n - i, left / (n - i);
    assert left >= a * m;
    assert left - tokens >= a * (m - 1);
    Quotient(left - tokens, m - 1, a);
  }

  lemma Quotient(x: int, m: int, a: int)
    requires m > 0 && x >= a * m
    ensures x / m >= a
  {
    var q := x / m;
    assert (q + 1) * m > x;
    assert (q + 1 - a) * m > 0;
    PositiveFactor(q + 1 - a, m);
  }

  lemma PositiveFactor(y: int, m: int)
    requires m > 0 && y * m > 0
    ensures y > 0
  {
  }

  /** An even part of the whole room. */
  function EvenShare(room: int, n: nat): int
    requires n > 0
  {
    Share(room, n, 0)
  }

  lemma EvenShareBelow(count: nat, n: nat, room: nat)
    requires n > 0 && count * n <= room
    ensures count <= EvenShare(room, n)
  {
    Quotient(room, n, count);
  }

  /** What the loop keeps: the room not spent is what is left, and shares never shrink. */
  lemma {:induction false} LoopKeeps(env: Env, items: seq<ToolResult>, room: nat, i: nat)
    requires i < |items| && CapsQuietly(env) && NotesFit(env, items, room)
    ensures Left(env, items, room, i) == room - Spent(env, items, room, i)
    ensures ShareOf(env, items, room, i) >= EvenShare(room, |items|)
    ensures i > 0 ==> ShareOf(env, items, room, i) >= ShareOf(env, items, room, i - 1)
    ensures FittedAt(env, items, room, i).tokens <= ShareOf(env, items, room, i)
  {
    hide *;
    SpentStep(env, items, room, i);
    if i > 0 {
      LoopKeeps(env, items, room, i - 1);
      SpentStep(env, items, room, i - 1);
      NextShare(env, items, room, i - 1);
    } else {
      FirstShare(env, items, room);
    }
    NoteWithin(env, items, room, i);
    OverOnlyByNote(env, items[i], ShareOf(env, items, room, i));
    LeftStep(env, items, room, i);
  }

  lemma FirstShare(env: Env, items: seq<ToolResult>, room: nat)
    requires 0 < |items|
    ensures ShareOf(env, items, room, 0) == EvenShare(room, |items|)
  {
  }

  /** A result within its share leaves at least as large a share to the next. */
  lemma NextShare(env: Env, items: seq<ToolResult>, room: nat, i: nat)
    requires i + 1 < |items| && FittedAt(env, items, room, i).tokens <= ShareOf(env, items, room, i)
    ensures Left(env, items, room, i + 1) == Left(env, items, room, i) - FittedAt(env, items, room, i).tokens
    ensures ShareOf(env, items, room, i + 1) >= ShareOf(env, items, room, i)
  {
    LeftStep(env, items, room, i);
    ShareGrows(Left(env, items, room, i), FittedAt(env, items, room, i).tokens, |items|, i);
    hide Left, FittedAt, Share, Fit;
  }

  lemma NoteWithin(env: Env, items: seq<ToolResult>, room: nat, i: nat)
    requires i < |items| && NotesFit(env, items, room)
    ensures env.count(items[i].note) <= EvenShare(room, |items|)
  {
    EvenShareBelow(env.count(items[i].note), |items|, room);
  }

  lemma SpentStep(env: Env, items: seq<ToolResult>, room: int, i: nat)
    requires i < |items|
    ensures Spent(env, items, room, i + 1) == Spent(env, items, room, i) + FittedAt(env, items, room, i).tokens
    ensures Spent(env, items, room, 0) == 0 && Left(env, items, room, 0) == room
  {
  }

  lemma ShareWithin(left: nat, n: nat, i: nat)
    requires i < n
    ensures Share(left, n, i) <= left
  {
  }

  /**
   With a known window and every bare note within an even share: the fitted results take no more
   than the room, whichever result the turn is cancelled at, and each is offered the even part of
   what the ones before it left, never less than an even part of the whole and never less than the
   one before.
   */
  lemma FairAndWithinRoom(env: Env, items: seq<ToolResult>, room: nat, stop: nat)
    requires stop <= |items| && CapsQuietly(env) && NotesFit(env, items, room)
    ensures Spent(env, items, room, stop) <= room
    ensures forall i :: 0 <= i < |items| ==>
            ShareOf(env, items, room, i) == (room - Spent(env, items, room, i)) / (|items| - i)
    ensures forall i :: 0 <= i < |items| ==> ShareOf(env, items, room, i) >= room / |items|
    ensures forall i, j :: 0 <= i <= j < |items| ==> ShareOf(env, items, room, i) <= ShareOf(env, items, room, j)
  {
    hide *;
    forall i | 0 <= i < |items|
      ensures ShareOf(env, items, room, i) == (room - Spent(env, items, room, i)) / (|items| - i)
      ensures ShareOf(env, items, room, i) >= room / |items|
    {
      LoopKeeps(env, items, room, i);
      ShareIs(env, items, room, i);
      EvenIs(room, |items|);
    }
    forall i, j | 0 <= i <= j < |items| ensures ShareOf(env, items, room, i) <= ShareOf(env, items, room, j) {
      SharesRise(env, items, room, i, j);
    }
    SpentWithin(env, items, room, stop);
  }

  lemma ShareIs(env: Env, items: seq<ToolResult>, room: nat, i: nat)
    requires i < |items|
    ensures ShareOf(env, items, room, i) == Left(env, items, room, i) / (|items| - i)
  {
  }

  lemma EvenIs(room: nat, n: nat)
    requires n > 0
    ensures EvenShare(room, n) == room / n
  {
  }

  lemma SpentWithin(env: Env, items: seq<ToolResult>, room: nat, stop: nat)
    requires stop <= |items| && CapsQuietly(env) && NotesFit(env, items, room)
    ensures Spent(env, items, room, stop) <= room
  {
    if stop > 0 {
      LoopKeeps(env, items, room, stop - 1);
      ShareWithin(Left(env, items, room, stop - 1), |items|, stop - 1);
      hide Fit;
    }
  }

  lemma {:induction false} SharesRise(env: Env, items: seq<ToolResult>, room: nat, i: nat, j: nat)
    requires i <= j < |items| && CapsQuietly(env) && NotesFit(env, items, room)
    ensures ShareOf(env, items, room, i) <= ShareOf(env, items, room, j)
  {
    if i < j {
      SharesRise(env, items, room, i, j - 1);
      LoopKeeps(env, items, room, j);
    }
  }

  /** Result i is cut to its bare note, and the note alone is more than all that is left. */
  predicate NoteOver(env: Env, items: seq<ToolResult>, room: int, i: nat)
    requires i < |items|
  {
    var item, share := items[i], ShareOf(env, items, room, i);
    && env.count(item.content) > share
    && Search(env, item.content, item.note, share, 0, |item.content|, -1) < 0
    && env.count(item.note) > Left(env, items, room, i)
  }

  lemma OverIsNote(env: Env, items: seq<ToolResult>, room: nat, i: nat)
    requires i < |items| && env.byteLimit <= 0
    ensures FittedAt(env, items, room, i).tokens > Left(env, items, room, i) <==> NoteOver(env, items, room, i)
  {
    var left := Left(env, items, room, i);
    ShareWithin(left, |items|, i);
    FitsOrNote(env, items[i], Share(left, |items|, i));
    hide Search, Fit, Left;
  }

  /** What one result costs, with no byte limit. */
  lemma FitsOrNote(env: Env, item: ToolResult, share: nat)
    requires env.byteLimit <= 0
    ensures var tokens := Fit(env, item, share).tokens;
            var bare := Search(env, item.content, item.note, share, 0, |item.content|, -1) < 0;
            if env.count(item.content) > share && bare then tokens == env.count(item.note) else tokens <= share
  {
    hide Search, Build;
  }

  ghost predicate NoneOver(env: Env, items: seq<ToolResult>, room: int, stop: nat)
    requires stop <= |items|
  {
    forall i :: 0 <= i < stop ==> !NoteOver(env, items, room, i)
  }

  lemma {:induction false} WithinRoomUpTo(env: Env, items: seq<ToolResult>, room: nat, stop: nat)
    requires stop <= |items| && env.byteLimit <= 0
    ensures Spent(env, items, room, stop) <= room <==> NoneOver(env, items, room, stop)
    ensures Spent(env, items, room, stop) <= room ==>
            Left(env, items, room, stop) == room - Spent(env, items, room, stop)
  {
    hide NoteOver, Fit, Share;
    if stop > 0 {
      var i := stop - 1;
      WithinRoomUpTo(env, items, room, i);
      SpentStep(env, items, room, i);
      LeftStep(env, items, room, i);
      OverIsNote(env, items, room, i);
      hide Spent, Left, FittedAt;
      assert NoneOver(env, items, room, stop) <==> NoneOver(env, items, room, i) && !NoteOver(env, items, room, i);
    }
  }

  /**
   Without a byte limit, the results fitted before result `stop` take no more than the room if and
   only if none of them is cut to a bare note larger than all that is left when its turn comes.
   */
  lemma WithinRoomExactly(env: Env, items: seq<ToolResult>, room: nat, stop: nat)
    requires stop <= |items| && env.byteLimit <= 0
    ensures Spent(env, items, room, stop) <= room <==> NoneOver(env, items, room, stop)
  {
    WithinRoomUpTo(env, items, room, stop);
  }

  /** A note that does not fit its share can take the turn over its room. */
  lemma NoteOverRoom()
    ensures var env, items := Env((t: Text) => |t|, (t: Text) => t, 0, (t: Text) => t),
            [ToolResult("output", "note", 0, false)];
            Spent(env, items, 3, 1) == 4
  {
    var env, items := Env((t: Text) => |t|, (t: Text) => t, 0, (t: Text) => t),
        [ToolResult("output", "note", 0, false)];
    assert forall k: nat :: k <= 6 ==> |Build(env, "output", "note", k)| >= 8;
    assert Cut(env, "output", "note", 3) == "note";
    assert Spent(env, items, 3, 1) == FittedAt(env, items, 3, 0).tokens;
  }

  /** Every result is at most an even part of the room. */
  ghost predicate AllSmall(env: Env, items: seq<ToolResult>, room: int) {
    forall i :: 0 <= i < |items| ==> env.count(items[i].content) * |items| <= room
  }

  lemma SmallWithin(env: Env, items: seq<ToolResult>, room: nat, i: nat)
    requires i < |items| && AllSmall(env, items, room)
    ensures env.count(items[i].content) <= EvenShare(room, |items|)
  {
    EvenShareBelow(env.count(items[i].content), |items|, room);
  }

  lemma {:induction false} SmallKeepsShares(env: Env, items: seq<ToolResult>, room: nat, i: nat)
    requires i < |items| && env.byteLimit <= 0 && AllSmall(env, items, room)
    ensures ShareOf(env, items, room, i) >= EvenShare(room, |items|)
    ensures FittedAt(env, items, room, i) == items[i].(tokens := env.count(items[i].content))
    ensures FittedAt(env, items, room, i).tokens <= ShareOf(env, items, room, i)
  {
    hide *;
    if i > 0 {
      SmallKeepsShares(env, items, room, i - 1);
      NextShare(env, items, room, i - 1);
    } else {
      FirstShare(env, items, room);
    }
    SmallWithin(env, items, room, i);
    WithinShareUntouched(env, items[i], ShareOf(env, items, room, i));
    LeftStep(env, items, room, i);
  }

  /**
   Without a byte limit a turn's results are all sent whole when the window is unknown, and when each
   is at most an even part of the room.
   */
  lemma SmallResultsUntouched(env: Env, items: seq<ToolResult>, room: int, i: nat)
    requires i < |items| && env.byteLimit <= 0 && (room < 0 || AllSmall(env, items, room))
    ensures FittedAt(env, items, room, i) == items[i].(tokens := env.count(items[i].content))
  {
    if room < 0 {
      WithinShareUntouched(env, items[i], ShareOf(env, items, room, i));
    } else {
      SmallKeepsShares(env, items, room, i);
    }
  }

  method FitWindowResult(env: Env, item: ToolResult, share: int) returns (fitted: ToolResult)
    ensures fitted == Fit(env, item, share)
  {
    hide Cut, Build;
    fitted := item.(tokens := env.count(item.content));
    if share >= 0 && fitted.tokens > share {
      var cut := CutResultToTokens(env, item.content, item.note, share);
      fitted := fitted.(content := cut, tokens := env.count(cut), tooLarge := true);
    }
    if env.byteLimit > 0 && |fitted.content| > env.byteLimit / 4 {
      var capped := env.capped(fitted.content);
      fitted := fitted.(content := capped, tokens := env.count(capped), tooLarge := true);
    }
  }

  lemma LeftStep(env: Env, items: seq<ToolResult>, room: int, i: nat)
    requires i < |items|
    ensures var left, fitted := Left(env, items, room, i), FittedAt(env, items, room, i);
            && fitted == Fit(env, items[i], Share(left, |items|, i)) == Fit(env, items[i], ShareOf(env, items, room, i))
            && Left(env, items, room, i + 1) == if left >= 0 then Max(0, left - fitted.tokens) else left
  {
  }

  /** The loop over the turn's results, cancelled before result `stop`. */
  method FitResults(env: Env, results: array<ToolResult>, window: int, reserve: int, used: int, stop: nat)
    modifies results
    ensures forall i :: 0 <= i < results.Length ==>
              results[i] == if i < stop then FittedAt(env, old(results[..]), Room(window, reserve, used), i)
                  else old(results[i])
  {
    hide Fit, Left, FittedAt;
    var remaining := -1;
    if window > 0 {
      remaining := Max(0, window - reserve - used - MARGIN);
    }
    ghost var room := Room(window, reserve, used);
    ghost var before := results[..];
    assert Left(env, before, room, 0) == room by { LeftAtStart(env, before, room); }
    for index := 0 to results.Length
      invariant remaining == Left(env, before, room, index)
      invariant index <= stop
      invariant forall i :: 0 <= i < index ==> results[i] == FittedAt(env, before, room, i)
      invariant forall i :: index <= i < results.Length ==> results[i] == before[i]
    {
      if index == stop {
        break;
      }
      var allowance := remaining;
      if allowance >= 0 {
        allowance := allowance / (results.Length - index);
      }
      LeftStep(env, before, room, index);
      var fitted := FitWindowResult(env, results[index], allowance);
      results[index] := fitted;
      if remaining >= 0 {
        remaining := Max(0, remaining - fitted.tokens);
      }
    }
  }

  lemma LeftAtStart(env: Env, items: seq<ToolResult>, room: int)
    ensures Left(env, items, room, 0) == room
  {
  }
}
