/**
 A restart: every retained chat is restored with the floor threaded through it
 (restoreRetainedChats in cmd/harness/main.go), and the shared id counter is moved past the floor while
 other goroutines may be minting or reserving (Runner.id and reserveCounter in internal/agent/run.go).
 */
module Restart {
  import opened Ids
  import opened Reminting

  // ---- Restoring every chat ----

  datatype Restored = Restored(messages: seq<seq<string>>, floor: Int64)

  /** The chats' message ids after reminting, and the floor at the end. */
  function Restore(chats: seq<Chat>, floor: Int64): (r: Restored)
    ensures |r.messages| == |chats|
  {
    if chats == [] then Restored([], floor)
    else
      var n := |chats| - 1;
      var before := Restore(chats[..n], floor);
      var p := PassOver(chats[n].messages, before.floor);
      Restored(before.messages + [p.out], p.floor)
  }

  function AllRepeats(chats: seq<Chat>): nat {
    if chats == [] then 0 else AllRepeats(chats[..|chats| - 1]) + Repeats(chats[|chats| - 1].messages)
  }

  ghost predicate ChatsBelow(chats: seq<Chat>, floor: int) {
    forall k :: 0 <= k < |chats| ==> Below(chats[k].messages, floor)
  }

  /** Each restored list: distinct, below the floor, and new ids only above the floor at the start. */
  ghost predicate RestoredOk(was: seq<string>, now: seq<string>, start: int, floor: int) {
    && Distinct(now) && Below(now, floor)
    && (forall id :: id in now && id !in was ==> Noted(id).Some? && start < Noted(id).value <= floor)
  }

  ghost predicate AllOk(chats: seq<Chat>, r: Restored, start: int)
    requires |r.messages| == |chats|
  {
    forall k :: 0 <= k < |chats| ==> RestoredOk(chats[k].messages, r.messages[k], start, r.floor)
  }

  /** An id that two restored chats share was in both before. */
  ghost predicate NoNewShared(chats: seq<Chat>, r: Restored)
    requires |r.messages| == |chats|
  {
    forall j, k, id :: 0 <= j < k < |chats| && id in r.messages[j] && id in r.messages[k] ==>
      id in chats[j].messages && id in chats[k].messages
  }

  lemma RestoredOkMore(was: seq<string>, now: seq<string>, start: int, floor: int, lower: int, higher: int)
    requires RestoredOk(was, now, start, floor) && lower <= start && floor <= higher
    ensures RestoredOk(was, now, lower, higher)
  {
    BelowMore(now, floor, higher);
    hide Below, Noted;
  }

  lemma OneChat(ids: seq<string>, floor: Int64)
    requires |ids| < SPAN - 1 && floor >= 0 && Below(ids, floor) && floor + Repeats(ids) <= MAX
    ensures var p := PassOver(ids, floor);
            p.floor == floor + Repeats(ids) && RestoredOk(ids, p.out, floor, p.floor)
  {
    hide *;
    var p := PassOver(ids, floor);
    RemintSound(ids, floor);
    PassInv(ids, floor);
    assert p.floor == floor + |p.changes| <= MAX;
    forall id | id in p.out && id !in ids ensures Noted(id).Some? && floor < Noted(id).value <= p.floor {
      NewIdNoted(ids, p, floor, id);
    }
    RestoredOkIs(ids, p.out, floor, p.floor);
  }

  lemma RestoredOkIs(was: seq<string>, now: seq<string>, start: int, floor: int)
    requires Distinct(now) && Below(now, floor)
    requires forall id :: id in now && id !in was ==> Noted(id).Some? && start < Noted(id).value <= floor
    ensures RestoredOk(was, now, start, floor)
  {
  }

  lemma NewIdNoted(ids: seq<string>, p: Pass, floor: Int64, id: string)
    requires Inv(ids, p, floor) && floor >= 0 && floor + |p.changes| <= MAX
    requires id in p.out && id !in ids
    ensures Noted(id).Some? && floor < Noted(id).value <= floor + |p.changes| == p.floor
  {
    assert p.floor == Plus(floor, |p.changes|);
    hide *;
    SeenFacts(ids, p, floor, id);
    var i := IndexOf(p.out, id);
    var c := OutAt(ids, p, floor, i);
    PlusNoWrap(floor, c + 1);
    FreshNoted(floor + c + 1);
    PlusNoWrap(floor, |p.changes|);
  }

  lemma RestoreStep(chats: seq<Chat>, floor: Int64)
    requires chats != []
    ensures var n := |chats| - 1;
            var before := Restore(chats[..n], floor);
            var p := PassOver(chats[n].messages, before.floor);
            && Restore(chats, floor) == Restored(before.messages + [p.out], p.floor)
            && AllRepeats(chats) == AllRepeats(chats[..n]) + Repeats(chats[n].messages)
  {
  }

  lemma ChatsBelowAt(chats: seq<Chat>, floor: int, k: nat)
    requires ChatsBelow(chats, floor) && k < |chats|
    ensures Below(chats[k].messages, floor) && ChatsBelow(chats[..k], floor)
  {
  }

  ghost predicate Short(chats: seq<Chat>) {
    forall k :: 0 <= k < |chats| ==> |chats[k].messages| < SPAN - 1
  }

  lemma {:induction false} RestoreSound(chats: seq<Chat>, floor: Int64)
    requires Short(chats) && floor >= 0 && ChatsBelow(chats, floor) && floor + AllRepeats(chats) <= MAX
    ensures var r := Restore(chats, floor);
            && r.floor == floor + AllRepeats(chats)
            && AllOk(chats, r, floor) && NoNewShared(chats, r)
  {
    if chats == [] {
      assert AllRepeats(chats) == 0;
    } else {
      var n := |chats| - 1;
      var front, chat := chats[..n], chats[n];
      assert |chat.messages| < SPAN - 1 && Short(front);
      hide *;
      RestoreStep(chats, floor);
      ChatsBelowAt(chats, floor, n);
      RestoreSound(front, floor);
      var before := Restore(front, floor);
      BelowMore(chat.messages, floor, before.floor);
      OneChat(chat.messages, before.floor);
      var p := PassOver(chat.messages, before.floor);
      AllOkGrows(chats, before, p, floor);
      NoneSharedGrows(chats, before, p, floor);
    }
  }

  lemma AllOkGrows(chats: seq<Chat>, before: Restored, p: Pass, floor: int)
    requires chats != [] && |before.messages| == |chats| - 1
    requires AllOk(chats[..|chats| - 1], before, floor) && floor <= before.floor <= p.floor
    requires RestoredOk(chats[|chats| - 1].messages, p.out, before.floor, p.floor)
    ensures AllOk(chats, Restored(before.messages + [p.out], p.floor), floor)
  {
    hide RestoredOk;
    var n := |chats| - 1;
    var r := Restored(before.messages + [p.out], p.floor);
    forall k | 0 <= k < |chats| ensures RestoredOk(chats[k].messages, r.messages[k], floor, p.floor) {
      if k < n {
        assert chats[..n][k] == chats[k];
        RestoredOkMore(chats[k].messages, before.messages[k], floor, before.floor, floor, p.floor);
      } else {
        RestoredOkMore(chats[n].messages, p.out, before.floor, p.floor, floor, p.floor);
      }
    }
  }

  /** An id in a restored chat and in the next one is no new id of either. */
  lemma SharedIsOld(was: seq<string>, now: seq<string>, next: seq<string>, p: Pass, start: int, floor: int, id: string)
    requires RestoredOk(was, now, start, floor) && RestoredOk(next, p.out, floor, p.floor) && Below(next, start)
    requires id in now && id in p.out
    ensures id in was && id in next
  {
    hide Noted, Distinct;
    assert Noted(id).None? || Noted(id).value <= floor;
    assert id in next;
    assert Noted(id).None? || Noted(id).value <= start;
  }

  lemma NoneSharedGrows(chats: seq<Chat>, before: Restored, p: Pass, floor: int)
    requires chats != [] && |before.messages| == |chats| - 1
    requires AllOk(chats[..|chats| - 1], before, floor) && NoNewShared(chats[..|chats| - 1], before)
    requires Below(chats[|chats| - 1].messages, floor)
    requires RestoredOk(chats[|chats| - 1].messages, p.out, before.floor, p.floor)
    ensures NoNewShared(chats, Restored(before.messages + [p.out], p.floor))
  {
    hide RestoredOk, Below;
    var n := |chats| - 1;
    var front, r := chats[..n], Restored(before.messages + [p.out], p.floor);
    forall j, k, id | 0 <= j < k < |chats| && id in r.messages[j] && id in r.messages[k]
      ensures id in chats[j].messages && id in chats[k].messages
    {
      assert front[j] == chats[j] && r.messages[j] == before.messages[j];
      if k == n {
        SharedIsOld(chats[j].messages, before.messages[j], chats[n].messages, p, floor, before.floor, id);
      } else {
        assert front[k] == chats[k] && r.messages[k] == before.messages[k];
      }
    }
  }

  // ---- The counter ----

  /** Where a call of reserveCounter stands. */
  datatype Call = Loading(floor: Int64) | Swapping(floor: Int64, current: Int64)

  /**
   The counter, the calls under way, what has been minted so far, the floors of the calls that have
   returned, and whether the counter has gone past its top.
   */
  datatype Counter = Counter(value: Int64, calls: map<nat, Call>, minted: seq<Int64>, floors: set<Int64>, wrapped: bool)

  datatype Step = Add | Enter(call: nat, floor: Int64) | Load(call: nat) | CompareAndSwap(call: nat)

  function Apply(c: Counter, step: Step): Counter {
    match step
    case Add =>
      var value := Next(c.value);
      c.(value := value, minted := c.minted + [value], wrapped := c.wrapped || c.value == MAX)
    case Enter(id, floor) => if id in c.calls then c else c.(calls := c.calls[id := Loading(floor)])
    case Load(id) =>
      if id !in c.calls || !c.calls[id].Loading? then c
      else if c.value >= c.calls[id].floor then c.(calls := c.calls - {id}, floors := c.floors + {c.calls[id].floor})
      else c.(calls := c.calls[id := Swapping(c.calls[id].floor, c.value)])
    case CompareAndSwap(id) =>
      if id !in c.calls || !c.calls[id].Swapping? then c
      else if c.value == c.calls[id].current then
        c.(value := c.calls[id].floor, calls := c.calls - {id}, floors := c.floors + {c.calls[id].floor})
      else c.(calls := c.calls[id := Loading(c.calls[id].floor)])
  }

  function After(c: Counter, steps: seq<Step>): Counter
    decreases |steps|
  {
    if steps == [] then c else After(Apply(c, steps[0]), steps[1..])
  }

  ghost predicate Rising(minted: seq<Int64>) {
    forall i, j :: 0 <= i < j < |minted| ==> minted[i] < minted[j]
  }

  ghost predicate CounterInv(c: Counter) {
    !c.wrapped ==>
      && Rising(c.minted)
      && (forall i :: 0 <= i < |c.minted| ==> c.minted[i] <= c.value)
      && (forall f :: f in c.floors ==> f <= c.value)
      && (forall id :: id in c.calls && c.calls[id].Swapping? ==> c.calls[id].current < c.calls[id].floor)
  }

  lemma ApplyKeeps(c: Counter, step: Step)
    requires CounterInv(c)
    ensures CounterInv(Apply(c, step))
    ensures var d := Apply(c, step);
            && (c.wrapped ==> d.wrapped) && c.floors <= d.floors && |c.minted| <= |d.minted|
                 && d.minted[..|c.minted|] == c.minted
            && (!d.wrapped ==> c.value <= d.value)
            && (!d.wrapped ==> forall i :: |c.minted| <= i < |d.minted| ==> d.minted[i] > c.value)
  {
  }

  /** Over any interleaving: ids minted later are above the counter's value, until it wraps. */
  lemma {:induction false} LaterAbove(c: Counter, steps: seq<Step>)
    requires CounterInv(c)
    ensures var d := After(c, steps);
            && CounterInv(d) && (c.wrapped ==> d.wrapped)
            && |c.minted| <= |d.minted| && d.minted[..|c.minted|] == c.minted
            && (!d.wrapped ==> c.value <= d.value && forall i :: |c.minted| <= i < |d.minted| ==> d.minted[i] > c.value)
    decreases |steps|
  {
    if steps != [] {
      var next, d := Apply(c, steps[0]), After(c, steps);
      ApplyKeeps(c, steps[0]);
      LaterAbove(next, steps[1..]);
      hide CounterInv, Apply;
      assert d.minted[..|c.minted|] == d.minted[..|next.minted|][..|c.minted|];
      forall i | |c.minted| <= i < |d.minted| && !d.wrapped ensures d.minted[i] > c.value {
        if i < |next.minted| {
          assert d.minted[i] == d.minted[..|next.minted|][i] == next.minted[i];
        }
      }
    }
  }

  /**
   However reservations, their retries and other callers' ids interleave: until the counter wraps,
   every id number minted is new, and once a reservation has returned every later one is above its floor.
   */
  lemma ReservedForGood(start: Int64, steps: seq<Step>, more: seq<Step>, floor: Int64)
    ensures var c := After(Counter(start, map[], [], {}, false), steps);
            var d := After(c, more);
            !d.wrapped ==>
              && Rising(d.minted)
              && |c.minted| <= |d.minted|
              && (floor in c.floors ==> forall i :: |c.minted| <= i < |d.minted| ==> d.minted[i] > floor)
  {
    var start := Counter(start, map[], [], {}, false);
    var c := After(start, steps);
    LaterAbove(start, steps);
    LaterAbove(c, more);
    hide After;
  }

  /**
   The restart as a whole: the floor is taken over every chat, the chats are reminted from it, and
   the counter is reserved at the floor they leave. An id minted after that, under any stem and by
   any caller, is neither a message id of a restored chat nor a run id one mentions.
   */
  lemma FreshAfterRestart(chats: seq<Chat>, start: Int64, steps: seq<Step>, more: seq<Step>, stem: Stem, k: nat, i: nat)
    requires Short(chats) && Floor(chats, 0) + AllRepeats(chats) <= MAX && k < |chats|
    ensures 0 <= Floor(chats, 0) <= MAX
    ensures var r := Restore(chats, Floor(chats, 0));
            var c := After(Counter(start, map[], [], {}, false), steps);
            var d := After(c, more);
            r.floor in c.floors && !d.wrapped && |c.minted| <= i < |d.minted| ==>
              && Minted(stem, d.minted[i]) !in r.messages[k]
              && Minted(stem, d.minted[i]) !in chats[k].chatRuns && Minted(stem, d.minted[i]) !in chats[k].timelineRuns
  {
    hide *;
    FloorBelow(chats, 0);
    var floor := Floor(chats, 0);
    ZeroInRange();
    AllChatsBelow(chats, floor);
    RestoreSound(chats, floor);
    var r := Restore(chats, floor);
    ReservedForGood(start, steps, more, r.floor);
    var c := After(Counter(start, map[], [], {}, false), steps);
    var d := After(c, more);
    if r.floor in c.floors && !d.wrapped && |c.minted| <= i < |d.minted| {
      RestoredBelow(chats, r, floor, k);
      InRange(d.minted[i]);
      AboveFloorFresh(r.messages[k], r.floor, stem, d.minted[i]);
      AboveFloorFresh(chats[k].chatRuns, r.floor, stem, d.minted[i]);
      AboveFloorFresh(chats[k].timelineRuns, r.floor, stem, d.minted[i]);
    }
  }

  lemma ZeroInRange()
    ensures MIN <= 0 <= MAX
  {
  }

  lemma InRange(n: Int64)
    ensures MIN <= n <= MAX
  {
  }

  lemma AllChatsBelow(chats: seq<Chat>, floor: int)
    requires forall k :: 0 <= k < |chats| ==> ChatBelow(chats[k], floor)
    ensures ChatsBelow(chats, floor)
  {
  }

  lemma RestoredBelow(chats: seq<Chat>, r: Restored, floor: int, k: nat)
    requires |r.messages| == |chats| && k < |chats| && AllOk(chats, r, floor) && ChatBelow(chats[k], floor)
             && floor <= r.floor
    ensures Below(r.messages[k], r.floor) && Below(chats[k].chatRuns, r.floor) && Below(chats[k].timelineRuns, r.floor)
  {
    assert RestoredOk(chats[k].messages, r.messages[k], floor, r.floor);
  }

  // ---- The loops ----

  /** Both loops of restoreRetainedChats. */
  method RestoreRetainedChats(chats: seq<Chat>, from: Int64) returns (messages: seq<seq<string>>, floor: Int64)
    ensures Floor(chats, from) <= MAX && Floor(chats, from) >= from
    ensures var r := Restore(chats, Floor(chats, from));
            messages == r.messages && floor == r.floor
  {
    hide ChatFloor, PassOver;
    floor := from;
    for k := 0 to |chats|
      invariant floor == Floor(chats[..k], from)
    {
      assert chats[..k + 1][..k] == chats[..k];
      floor := SnapshotIDFloor(chats[k], floor);
    }
    assert chats[..|chats|] == chats;
    FloorBelow(chats, from);
    ghost var start := floor;
    messages := [];
    for k := 0 to |chats|
      invariant Restore(chats[..k], start) == Restored(messages, floor)
    {
      assert chats[..k + 1][..k] == chats[..k];
      var out, changes, next := RemintDuplicateIDs(chats[k].messages, floor);
      messages, floor := messages + [out], next;
    }
  }

  /** The shared counter, as one caller sees it. */
  class IdCounter {
    var ids: Int64

    constructor (start: Int64)
      ensures ids == start
    {
      ids := start;
    }

    method Id(stem: Stem) returns (id: string)
      modifies this
      ensures ids == Next(old(ids)) && id == Minted(stem, ids)
    {
      ids := Next(ids);
      id := Minted(stem, ids);
    }

    /**
     reserveCounter. `others[n]` is where other callers move the counter between this call's n-th load
     and its swap; they only move it up.
     */
    method ReserveCounter(floor: Int64, others: seq<Int64>)
      modifies this
      ensures ids >= floor && ids >= old(ids)
      ensures ids == floor || ids == old(ids) || ids in others
    {
      var attempt := 0;
      while true
        invariant ids >= old(ids) && (ids == old(ids) || ids in others)
        decreases |others| - attempt
      {
        var current := ids;
        if current >= floor {
          return;
        }
        if attempt < |others| && others[attempt] > ids {
          ids := others[attempt];
        }
        if ids == current {
          ids := floor;
          return;
        }
        attempt := attempt + 1;
      }
    }
  }
}
