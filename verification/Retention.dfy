/**
 The messages a sender of internal/broker/client.go retains until they are acknowledged: a map, the
 order they were first sent in, and a byte count, kept within two bounds by evicting the oldest
 message that the broker does not hold an intent for.
 */
module Retention {
  import opened Common

  type MessageId = string

  newtype Octet = x: int | 0 <= x < 256

  const MAX_BYTES := 0x100_0000
  const MAX_DELIVERIES := 2048

  datatype Sealed = Sealed(session: nat, counter: nat, epoch: nat)

  datatype Delivery = Delivery(plaintext: seq<Octet>, queued: bool, last: Sealed)

  datatype Store = Store(pending: map<MessageId, Delivery>, order: seq<MessageId>, bytes: int)

  const EMPTY := Store(map[], [], 0)

  // ---- The steps ----

  function Size(pending: map<MessageId, Delivery>, id: MessageId): nat {
    if id in pending then |pending[id].plaintext| else 0
  }

  /** The first index of `id`, or the length. */
  function Find(order: seq<MessageId>, id: MessageId): (at: nat)
    ensures at <= |order|
    ensures at < |order| ==> order[at] == id
    ensures at == |order| <==> id !in order
    ensures forall k :: 0 <= k < at ==> order[k] != id
  {
    if order == [] || order[0] == id then 0 else 1 + Find(order[1..], id)
  }

  /** removePendingLocked. */
  function Remove(st: Store, id: MessageId): Store {
    var at := Find(st.order, id);
    var order := if at < |st.order| then Without(st.order, at) else st.order;
    Store(st.pending - {id}, order, st.bytes - Size(st.pending, id))
  }

  predicate Evictable(pending: map<MessageId, Delivery>, id: MessageId) {
    id in pending && !pending[id].queued
  }

  /** The index of the oldest message that may be evicted, or the length. */
  function Oldest(order: seq<MessageId>, pending: map<MessageId, Delivery>): (at: nat)
    ensures at <= |order|
    ensures at < |order| ==> Evictable(pending, order[at])
    ensures forall k :: 0 <= k < at ==> !Evictable(pending, order[k])
  {
    if order == [] || Evictable(pending, order[0]) then 0 else 1 + Oldest(order[1..], pending)
  }

  predicate Fits(st: Store, size: nat) {
    st.bytes + size <= MAX_BYTES && |st.pending| < MAX_DELIVERIES
  }

  lemma RemoveShrinks(st: Store, id: MessageId)
    requires id in st.pending
    ensures |Remove(st, id).pending| == |st.pending| - 1
  {
    assert st.pending.Keys == (st.pending - {id}).Keys + {id};
  }

  /** The eviction loop of retainPendingLocked. */
  function MakeRoom(st: Store, size: nat): Store
    decreases |st.pending|
  {
    var at := Oldest(st.order, st.pending);
    if Fits(st, size) || at == |st.order| then st
    else
      RemoveShrinks(st, st.order[at]);
      MakeRoom(Remove(st, st.order[at]), size)
  }

  /** retainPendingLocked. */
  function Retain(st: Store, id: MessageId, plaintext: seq<Octet>, last: Sealed): Store {
    if id in st.pending then st.(pending := st.pending[id := st.pending[id].(last := last)])
    else
      var room := MakeRoom(st, |plaintext|);
      if Fits(room, |plaintext|) then
        Store(room.pending[id := Delivery(plaintext, false, last)], room.order + [id], room.bytes + |plaintext|)
      else room
  }

  /** The broker holds an intent for the message. */
  function MarkQueued(st: Store, id: MessageId): Store {
    if id in st.pending then st.(pending := st.pending[id := st.pending[id].(queued := true)]) else st
  }

  datatype Step =
    | DoRetain(id: MessageId, plaintext: seq<Octet>, last: Sealed)
    | DoRemove(id: MessageId)
    | DoMarkQueued(id: MessageId)

  function Apply(st: Store, step: Step): Store {
    match step
    case DoRetain(id, plaintext, last) => Retain(st, id, plaintext, last)
    case DoRemove(id) => Remove(st, id)
    case DoMarkQueued(id) => MarkQueued(st, id)
  }

  function After(st: Store, steps: seq<Step>): Store
    decreases |steps|
  {
    if steps == [] then st else After(Apply(st, steps[0]), steps[1..])
  }

  // ---- The accounts ----

  function Total(order: seq<MessageId>, pending: map<MessageId, Delivery>): nat {
    if order == [] then 0 else Size(pending, order[0]) + Total(order[1..], pending)
  }

  /** The order list is a duplicate-free listing of the map's keys, and the byte count is exact. */
  ghost predicate Listed(st: Store) {
    && Distinct(st.order)
    && (forall id :: id in st.pending <==> id in st.order)
    && st.bytes == Total(st.order, st.pending)
  }

  ghost predicate Bounded(st: Store) {
    st.bytes <= MAX_BYTES && |st.pending| <= MAX_DELIVERIES
  }

  lemma {:induction false} TotalFrame(order: seq<MessageId>, p: map<MessageId, Delivery>, q: map<MessageId, Delivery>)
    requires forall k :: 0 <= k < |order| ==> Size(p, order[k]) == Size(q, order[k])
    ensures Total(order, p) == Total(order, q)
  {
    if order != [] {
      assert forall k :: 0 <= k < |order| - 1 ==> order[1..][k] == order[k + 1];
      TotalFrame(order[1..], p, q);
    }
  }

  lemma {:induction false} TotalAppend(a: seq<MessageId>, b: seq<MessageId>, p: map<MessageId, Delivery>)
    ensures Total(a + b, p) == Total(a, p) + Total(b, p)
  {
    if a == [] {
      assert a + b == b;
    } else {
      assert (a + b)[1..] == a[1..] + b;
      TotalAppend(a[1..], b, p);
    }
  }

  lemma TotalWithout(order: seq<MessageId>, at: nat, p: map<MessageId, Delivery>)
    requires at < |order|
    ensures Total(order, p) == Total(Without(order, at), p) + Size(p, order[at])
  {
    assert order == order[..at] + ([order[at]] + order[at + 1..]);
    TotalAppend(order[..at], [order[at]] + order[at + 1..], p);
    TotalAppend([order[at]], order[at + 1..], p);
    TotalAppend(order[..at], order[at + 1..], p);
    assert Total([order[at]], p) == Size(p, order[at]);
  }

  lemma WithoutLists(order: seq<MessageId>, at: nat, id: MessageId)
    requires at < |order| && Distinct(order)
    ensures Distinct(Without(order, at))
    ensures id in Without(order, at) <==> id in order && id != order[at]
  {
    var less := Without(order, at);
    assert forall k :: 0 <= k < |less| ==> less[k] == if k < at then order[k] else order[k + 1];
    if id in order && id != order[at] {
      var k :| 0 <= k < |order| && order[k] == id;
      assert less[if k < at then k else k - 1] == id;
    }
  }

  lemma RemoveListed(st: Store, id: MessageId)
    requires Listed(st)
    ensures Listed(Remove(st, id))
  {
    var out, at := Remove(st, id), Find(st.order, id);
    if id in st.pending {
      forall other ensures other in out.order <==> other in st.order && other != id {
        WithoutLists(st.order, at, other);
      }
      assert Distinct(out.order) by { WithoutLists(st.order, at, id); }
      TotalWithout(st.order, at, st.pending);
      TotalFrame(out.order, st.pending, out.pending);
    } else {
      assert st.pending - {id} == st.pending;
    }
  }

  lemma SameKeysListed(st: Store, id: MessageId, d: Delivery)
    requires Listed(st) && id in st.pending && |d.plaintext| == |st.pending[id].plaintext|
    ensures Listed(st.(pending := st.pending[id := d]))
    ensures |st.pending[id := d]| == |st.pending|
  {
    TotalFrame(st.order, st.pending, st.pending[id := d]);
    assert st.pending[id := d].Keys == st.pending.Keys;
  }

  lemma AppendLists(order: seq<MessageId>, id: MessageId)
    requires Distinct(order) && id !in order
    ensures Distinct(order + [id])
    ensures forall other :: other in order + [id] <==> other in order || other == id
  {
  }

  lemma AppendListed(st: Store, id: MessageId, d: Delivery)
    requires Listed(st) && id !in st.pending
    ensures Listed(Store(st.pending[id := d], st.order + [id], st.bytes + |d.plaintext|))
  {
    var p := st.pending[id := d];
    AppendLists(st.order, id);
    TotalFrame(st.order, st.pending, p);
    TotalAppend(st.order, [id], p);
    assert Total([id], p) == |d.plaintext|;
    hide Distinct, Total;
  }

  // ---- What an eviction run keeps ----

  /** The listing without its `k` oldest evictable messages. */
  function Keep(order: seq<MessageId>, pending: map<MessageId, Delivery>, k: nat): seq<MessageId> {
    if order == [] then []
    else if k > 0 && Evictable(pending, order[0]) then Keep(order[1..], pending, k - 1)
    else [order[0]] + Keep(order[1..], pending, k)
  }

  function Evictables(order: seq<MessageId>, pending: map<MessageId, Delivery>): nat {
    if order == [] then 0
    else (if Evictable(pending, order[0]) then 1 else 0) + Evictables(order[1..], pending)
  }

  /** Whether a message of `size` bytes fits beside the messages of `order`. */
  predicate FitsBeside(order: seq<MessageId>, pending: map<MessageId, Delivery>, size: nat) {
    Total(order, pending) + size <= 16 * 1024 * 1024 && |order| < 2048
  }

  lemma {:induction false} KeepNone(order: seq<MessageId>, pending: map<MessageId, Delivery>)
    ensures Keep(order, pending, 0) == order
  {
    if order != [] { KeepNone(order[1..], pending); }
  }

  /** Evicting the oldest and then `k` more is evicting `k + 1`. */
  lemma {:induction false} KeepStep(order: seq<MessageId>, p: map<MessageId, Delivery>, q: map<MessageId, Delivery>,
                                    k: nat)
    requires Oldest(order, p) < |order|
    requires forall i :: 0 <= i < |order| && i != Oldest(order, p) ==>
             (Evictable(p, order[i]) <==> Evictable(q, order[i]))
    ensures Keep(Without(order, Oldest(order, p)), q, k) == Keep(order, p, k + 1)
    ensures Evictables(order, p) == 1 + Evictables(Without(order, Oldest(order, p)), q)
  {
    var at := Oldest(order, p);
    if at == 0 {
      assert Without(order, 0) == order[1..];
      assert forall i :: 0 <= i < |order| - 1 ==> order[1..][i] == order[i + 1];
      KeepFrame(order[1..], p, q, k);
    } else {
      assert Without(order, at) == [order[0]] + Without(order[1..], at - 1);
      assert Without(order, at)[1..] == Without(order[1..], at - 1);
      assert forall i :: 0 <= i < |order| - 1 ==> order[1..][i] == order[i + 1];
      KeepStep(order[1..], p, q, k);
    }
  }

  lemma {:induction false} KeepFrame(order: seq<MessageId>, p: map<MessageId, Delivery>, q: map<MessageId, Delivery>,
                                     k: nat)
    requires forall i :: 0 <= i < |order| ==> (Evictable(p, order[i]) <==> Evictable(q, order[i]))
    ensures Keep(order, p, k) == Keep(order, q, k)
    ensures Evictables(order, p) == Evictables(order, q)
  {
    if order != [] {
      assert forall i :: 0 <= i < |order| - 1 ==> order[1..][i] == order[i + 1];
      KeepFrame(order[1..], p, q, k);
      KeepFrame(order[1..], p, q, if k > 0 then k - 1 else 0);
    }
  }

  /** The listing of what may not be evicted. */
  function Held(order: seq<MessageId>, pending: map<MessageId, Delivery>): seq<MessageId> {
    if order == [] then []
    else (if Evictable(pending, order[0]) then [] else [order[0]]) + Held(order[1..], pending)
  }

  lemma {:induction false} KeepAll(order: seq<MessageId>, pending: map<MessageId, Delivery>)
    ensures Keep(order, pending, Evictables(order, pending)) == Held(order, pending)
  {
    if order != [] { KeepAll(order[1..], pending); }
  }

  lemma {:induction false} KeepLess(order: seq<MessageId>, p: map<MessageId, Delivery>, j: nat, k: nat)
    requires j <= k
    ensures |Keep(order, p, k)| <= |Keep(order, p, j)|
    ensures Total(Keep(order, p, k), p) <= Total(Keep(order, p, j), p)
  {
    if order != [] {
      if j > 0 && Evictable(p, order[0]) {
        KeepLess(order[1..], p, j - 1, k - 1);
      } else if k > 0 && Evictable(p, order[0]) {
        KeepLess(order[1..], p, 0, k - 1);
        KeepNone(order[1..], p);
      } else {
        KeepLess(order[1..], p, j, k);
      }
    }
  }

  lemma {:induction false} ListingSize(order: seq<MessageId>, keys: set<MessageId>)
    requires Distinct(order) && forall id :: id in keys <==> id in order
    ensures |order| == |keys|
  {
    if order != [] {
      WithoutTail(order);
      ListingSize(order[1..], keys - {order[0]});
    } else {
      assert keys == {};
    }
  }

  lemma WithoutTail(order: seq<MessageId>)
    requires order != [] && Distinct(order)
    ensures Distinct(order[1..])
    ensures forall id :: id in order[1..] <==> id in order && id != order[0]
  {
    forall id ensures id in order[1..] <==> id in order && id != order[0] {
      WithoutLists(order, 0, id);
      assert Without(order, 0) == order[1..];
    }
    assert forall i :: 0 <= i < |order| - 1 ==> order[1..][i] == order[i + 1];
  }

  /** The least number of evictions, oldest first, after which the message fits; all, if none does. */
  ghost predicate Least(order: seq<MessageId>, p: map<MessageId, Delivery>, size: nat, k: nat) {
    && k <= Evictables(order, p)
    && (forall j {:trigger Keep(order, p, j)} :: 0 <= j < k ==> !FitsBeside(Keep(order, p, j), p, size))
    && (FitsBeside(Keep(order, p, k), p, size) || k == Evictables(order, p))
  }

  lemma FitsIs(st: Store, size: nat)
    requires Listed(st)
    ensures Fits(st, size) <==> FitsBeside(st.order, st.pending, size)
  {
    ListingSize(st.order, st.pending.Keys);
  }

  lemma {:induction false} OldestAt(order: seq<MessageId>, p: map<MessageId, Delivery>)
    ensures Oldest(order, p) == |order| <==> Evictables(order, p) == 0
  {
    if order != [] { OldestAt(order[1..], p); }
  }

  /** What a store still holds after other messages were dropped from it. */
  ghost predicate Within(p: map<MessageId, Delivery>, q: map<MessageId, Delivery>) {
    forall id :: id in q ==> id in p && q[id] == p[id]
  }

  lemma WithinBoth(p: map<MessageId, Delivery>, q: map<MessageId, Delivery>, r: map<MessageId, Delivery>)
    requires Within(p, q) && Within(q, r)
    ensures Within(p, r)
  {
  }

  lemma NothingToEvict(st: Store, size: nat)
    requires Listed(st) && (Fits(st, size) || Oldest(st.order, st.pending) == |st.order|)
    ensures MakeRoom(st, size) == st
    ensures Least(st.order, st.pending, size, 0) && Keep(st.order, st.pending, 0) == st.order
  {
    FitsIs(st, size);
    OldestAt(st.order, st.pending);
    KeepNone(st.order, st.pending);
  }

  lemma FirstEviction(st: Store, size: nat)
    requires Listed(st) && !Fits(st, size) && Oldest(st.order, st.pending) < |st.order|
    ensures var at := Oldest(st.order, st.pending);
            var next := Remove(st, st.order[at]);
            && MakeRoom(st, size) == MakeRoom(next, size)
            && Listed(next) && |next.pending| < |st.pending|
            && next.order == Without(st.order, at)
            && Within(st.pending, next.pending) && SameElsewhere(st.order, at, st.pending, next.pending)
            && !FitsBeside(st.order, st.pending, size)
  {
    var at := Oldest(st.order, st.pending);
    RemoveShrinks(st, st.order[at]);
    RemoveListed(st, st.order[at]);
    FitsIs(st, size);
    FindAt(st.order, at);
    RemoveSameElsewhere(st, at);
    hide Listed, SameElsewhere, Fits, FitsBeside;
  }

  /** Making room evicts the least possible number of messages, the oldest evictable ones. */
  lemma {:induction false} MakeRoomEvicts(st: Store, size: nat) returns (k: nat)
    requires Listed(st)
    ensures Listed(MakeRoom(st, size)) && Within(st.pending, MakeRoom(st, size).pending)
    ensures Least(st.order, st.pending, size, k)
    ensures MakeRoom(st, size).order == Keep(st.order, st.pending, k)
    decreases |st.pending|
  {
    hide *;
    var at := Oldest(st.order, st.pending);
    if Fits(st, size) || at == |st.order| {
      k := 0;
      NothingToEvict(st, size);
      WithinSelf(st.pending);
    } else {
      FirstEviction(st, size);
      var next := Remove(st, st.order[at]);
      var more := MakeRoomEvicts(next, size);
      k := more + 1;
      OneMoreEviction(st.order, st.pending, next.pending, size, more);
      WithinBoth(st.pending, next.pending, MakeRoom(next, size).pending);
    }
  }

  lemma WithinSelf(p: map<MessageId, Delivery>)
    ensures Within(p, p)
  {
  }

  lemma FindAt(order: seq<MessageId>, at: nat)
    requires at < |order| && Distinct(order)
    ensures Find(order, order[at]) == at
  {
    assert order[at] in order;
    assert forall k :: 0 <= k < |order| && order[k] == order[at] ==> k == at;
  }

  ghost predicate SameElsewhere(order: seq<MessageId>, at: nat, p: map<MessageId, Delivery>,
                                q: map<MessageId, Delivery>) {
    forall i :: 0 <= i < |order| && i != at ==>
        (order[i] in p <==> order[i] in q) && (order[i] in p ==> p[order[i]] == q[order[i]])
  }

  lemma RemoveSameElsewhere(st: Store, at: nat)
    requires Distinct(st.order) && at < |st.order|
    ensures SameElsewhere(st.order, at, st.pending, st.pending - {st.order[at]})
  {
  }

  /** Room after `j` evictions from the store left by the first eviction is room after `j + 1`. */
  lemma EvictionShifts(order: seq<MessageId>, p: map<MessageId, Delivery>, q: map<MessageId, Delivery>, size: nat,
                       j: nat)
    requires Oldest(order, p) < |order| && SameElsewhere(order, Oldest(order, p), p, q)
    ensures var next := Without(order, Oldest(order, p));
            && Keep(next, q, j) == Keep(order, p, j + 1)
            && Evictables(order, p) == 1 + Evictables(next, q)
            && (FitsBeside(Keep(next, q, j), q, size) <==> FitsBeside(Keep(order, p, j + 1), p, size))
  {
    var at := Oldest(order, p);
    var next := Without(order, at);
    KeepStep(order, p, q, j);
    var kept := Keep(next, q, j);
    KeepWithin(next, q, j);
    forall i | 0 <= i < |kept| ensures Size(p, kept[i]) == Size(q, kept[i]) {
      var n :| 0 <= n < |next| && next[n] == kept[i];
      assert next[n] == order[if n < at then n else n + 1];
    }
    TotalFrame(kept, p, q);
  }

  lemma OneMoreEviction(order: seq<MessageId>, p: map<MessageId, Delivery>, q: map<MessageId, Delivery>, size: nat,
                        more: nat)
    requires Oldest(order, p) < |order| && SameElsewhere(order, Oldest(order, p), p, q)
    requires !FitsBeside(order, p, size)
    requires Least(Without(order, Oldest(order, p)), q, size, more)
    ensures Least(order, p, size, more + 1)
    ensures Keep(Without(order, Oldest(order, p)), q, more) == Keep(order, p, more + 1)
  {
    hide SameElsewhere, FitsBeside;
    var next := Without(order, Oldest(order, p));
    EvictionShifts(order, p, q, size, more);
    KeepNone(order, p);
    forall j | 0 <= j < more + 1 ensures !FitsBeside(Keep(order, p, j), p, size) {
      if j > 0 {
        EvictionShifts(order, p, q, size, j - 1);
        assert !FitsBeside(Keep(next, q, j - 1), q, size);
      }
    }
  }

  lemma {:induction false} KeepWithin(order: seq<MessageId>, p: map<MessageId, Delivery>, k: nat)
    ensures forall i :: 0 <= i < |Keep(order, p, k)| ==> Keep(order, p, k)[i] in order
  {
    if order != [] {
      KeepWithin(order[1..], p, k);
      KeepWithin(order[1..], p, if k > 0 then k - 1 else 0);
    }
  }

  lemma {:induction false} KeepsUnevictable(order: seq<MessageId>, p: map<MessageId, Delivery>, k: nat, id: MessageId)
    requires id in order && !Evictable(p, id)
    ensures id in Keep(order, p, k)
  {
    if order[0] != id {
      KeepsUnevictable(order[1..], p, k, id);
      KeepsUnevictable(order[1..], p, if k > 0 then k - 1 else 0, id);
    }
  }

  // ---- The results ----

  /**
   Retaining a new message: the `k` oldest evictable messages go, with the least `k` that makes the
   message fit, and it is listed last. It is retained exactly when it fits beside the messages that
   may not be evicted; when it is not, every other message is gone all the same.
   */
  lemma RetainIsExact(st: Store, id: MessageId, plaintext: seq<Octet>, last: Sealed) returns (k: nat)
    requires Listed(st) && id !in st.pending
    ensures var out, held := Retain(st, id, plaintext, last), Held(st.order, st.pending);
            && Least(st.order, st.pending, |plaintext|, k)
            && (id in out.pending <==> FitsBeside(held, st.pending, |plaintext|))
            && out.order == (if id in out.pending then Keep(st.order, st.pending, k) + [id] else held)
            && (id in out.pending ==> out.pending[id] == Delivery(plaintext, false, last))
            && Within(st.pending, out.pending - {id})
            && Listed(out)
  {
    hide *;
    var size := |plaintext|;
    var room := MakeRoom(st, size);
    k := MakeRoomEvicts(st, size);
    assert id !in room.pending by { WithinAt(st.pending, room.pending, id); }
    LeastFits(st.order, st.pending, room.pending, size, k, room.order) by {
      ListedWithin(st, room);
    }
    FitsIs(room, size);
    RetainCases(st, id, plaintext, last);
    if Fits(room, size) {
      AppendListed(room, id, Delivery(plaintext, false, last));
    }
    WithinMinus(st.pending, room.pending, id, Delivery(plaintext, false, last));
  }

  lemma RetainCases(st: Store, id: MessageId, plaintext: seq<Octet>, last: Sealed)
    requires id !in st.pending
    ensures var room := MakeRoom(st, |plaintext|);
            var added := Delivery(plaintext, false, last);
            Retain(st, id, plaintext, last) ==
            if Fits(room, |plaintext|) then Store(room.pending[id := added], room.order + [id],
                room.bytes + |plaintext|)
            else room
  {
  }

  lemma WithinAt(p: map<MessageId, Delivery>, q: map<MessageId, Delivery>, id: MessageId)
    requires Within(p, q) && id !in p
    ensures id !in q
  {
  }

  lemma WithinMinus(p: map<MessageId, Delivery>, q: map<MessageId, Delivery>, id: MessageId, d: Delivery)
    requires Within(p, q)
    ensures Within(p, q - {id}) && Within(p, q[id := d] - {id})
  {
  }

  lemma ListedWithin(st: Store, room: Store)
    requires Listed(room) && Within(st.pending, room.pending)
    ensures forall i :: 0 <= i < |room.order| ==> Size(st.pending, room.order[i]) == Size(room.pending, room.order[i])
  {
    forall i | 0 <= i < |room.order| ensures Size(st.pending, room.order[i]) == Size(room.pending, room.order[i]) {
      assert room.order[i] in room.pending;
    }
  }

  /** The message fits after the least evictions exactly when it fits after all of them. */
  lemma LeastFits(order: seq<MessageId>, p: map<MessageId, Delivery>, q: map<MessageId, Delivery>, size: nat, k: nat,
                  kept: seq<MessageId>)
    requires Least(order, p, size, k) && kept == Keep(order, p, k)
    requires forall i :: 0 <= i < |kept| ==> Size(p, kept[i]) == Size(q, kept[i])
    ensures FitsBeside(kept, q, size) <==> FitsBeside(Held(order, p), p, size)
    ensures !FitsBeside(kept, q, size) ==> kept == Held(order, p)
  {
    TotalFrame(kept, p, q);
    KeepAll(order, p);
    KeepLess(order, p, k, Evictables(order, p));
    hide Keep, Evictables, Held, Total;
  }

  /** For one: a message too big to retain costs the store the only message it held. */
  lemma EvictedForNothing(plaintext: seq<Octet>, last: Sealed)
    requires |plaintext| > MAX_BYTES
    ensures var held := Store(map["a" := Delivery([7], false, last)], ["a"], 1);
            Listed(held) && Bounded(held) && Retain(held, "b", plaintext, last) == EMPTY
  {
    var held := Store(map["a" := Delivery([7], false, last)], ["a"], 1);
    assert Total(["a"], held.pending) == 1 by { assert ["a"][1..] == []; }
    var next := Remove(held, "a");
    assert next == EMPTY by {
      assert held.pending - {"a"} == map[] && ["a"][..0] + ["a"][1..] == [];
    }
    assert MakeRoom(held, |plaintext|) == MakeRoom(EMPTY, |plaintext|) == EMPTY;
  }

  /** A queued message survives every retention untouched. */
  lemma QueuedNotEvicted(st: Store, id: MessageId, plaintext: seq<Octet>, last: Sealed, queued: MessageId)
    requires Listed(st) && queued in st.pending && st.pending[queued].queued
    ensures var out := Retain(st, id, plaintext, last);
            queued in out.pending && out.pending[queued].plaintext == st.pending[queued].plaintext
                && out.pending[queued].queued
  {
    if id !in st.pending {
      var out := Retain(st, id, plaintext, last);
      var k := RetainIsExact(st, id, plaintext, last);
      KeepsUnevictable(st.order, st.pending, k, queued);
      KeepAll(st.order, st.pending);
      KeepsUnevictable(st.order, st.pending, Evictables(st.order, st.pending), queued);
      assert queued in out.order;
      assert queued in out.pending - {id};
      hide Retain, Keep, Held, Least, FitsBeside;
    }
  }

  /** A message already retained is sealed again: nothing but its last sealing changes. */
  lemma RetainAgain(st: Store, id: MessageId, plaintext: seq<Octet>, last: Sealed)
    requires Listed(st) && id in st.pending
    ensures var out := Retain(st, id, plaintext, last);
            && Listed(out) && out.order == st.order && out.bytes == st.bytes && |out.pending| == |st.pending|
            && out.pending[id] == st.pending[id].(last := last)
            && forall other :: other in st.pending && other != id ==>
                 other in out.pending && out.pending[other] == st.pending[other]
  {
    SameKeysListed(st, id, st.pending[id].(last := last));
  }

  lemma RetainKeeps(st: Store, id: MessageId, plaintext: seq<Octet>, last: Sealed)
    requires Listed(st) && Bounded(st)
    ensures Listed(Retain(st, id, plaintext, last)) && Bounded(Retain(st, id, plaintext, last))
  {
    hide *;
    if id in st.pending {
      RetainAgain(st, id, plaintext, last);
      assert Bounded(Retain(st, id, plaintext, last)) by { BoundedIs(st); BoundedIs(Retain(st, id, plaintext, last)); }
    } else {
      var room, out := MakeRoom(st, |plaintext|), Retain(st, id, plaintext, last);
      var k := RetainIsExact(st, id, plaintext, last);
      k := MakeRoomEvicts(st, |plaintext|);
      RetainCases(st, id, plaintext, last);
      RoomBounded(st, room);
      assert id !in room.pending by { WithinAt(st.pending, room.pending, id); }
      if Fits(room, |plaintext|) {
        RetainedBounded(room, id, Delivery(plaintext, false, last));
      }
    }
  }

  lemma BoundedIs(st: Store)
    ensures Bounded(st) <==> st.bytes <= MAX_BYTES && |st.pending| <= MAX_DELIVERIES
  {
  }

  lemma RoomBounded(st: Store, room: Store)
    requires Listed(st) && Listed(room) && Bounded(st) && Within(st.pending, room.pending)
    ensures Bounded(room)
  {
    assert room.pending.Keys <= st.pending.Keys;
    SubsetSize(room.pending.Keys, st.pending.Keys);
    ListedWithin(st, room);
    TotalFrame(room.order, st.pending, room.pending);
    assert forall i :: 0 <= i < |room.order| ==> room.order[i] in room.pending;
    SubsetTotal(room.order, st.order, st.pending);
  }

  lemma {:induction false} SubsetTotal(a: seq<MessageId>, b: seq<MessageId>, p: map<MessageId, Delivery>)
    requires Distinct(a) && Distinct(b) && forall i :: 0 <= i < |a| ==> a[i] in b
    ensures Total(a, p) <= Total(b, p)
  {
    if a != [] {
      var at := Find(b, a[0]);
      TotalWithout(b, at, p);
      forall i | 0 <= i < |a[1..]| ensures a[1..][i] in Without(b, at) {
        assert a[1..][i] == a[i + 1];
        WithoutLists(b, at, a[i + 1]);
      }
      WithoutLists(b, at, a[0]);
      WithoutTail(a);
      SubsetTotal(a[1..], Without(b, at), p);
    }
  }

  lemma RetainedBounded(room: Store, id: MessageId, d: Delivery)
    requires Bounded(room) && id !in room.pending && Fits(room, |d.plaintext|)
    ensures Bounded(Store(room.pending[id := d], room.order + [id], room.bytes + |d.plaintext|))
  {
    assert room.pending[id := d].Keys == room.pending.Keys + {id};
  }

  lemma RemoveKeeps(st: Store, id: MessageId)
    requires Listed(st) && Bounded(st)
    ensures Listed(Remove(st, id)) && Bounded(Remove(st, id))
  {
    RemoveListed(st, id);
    assert st.pending.Keys == Remove(st, id).pending.Keys + (if id in st.pending then {id} else {});
  }

  lemma MarkKeeps(st: Store, id: MessageId)
    requires Listed(st) && Bounded(st)
    ensures Listed(MarkQueued(st, id)) && Bounded(MarkQueued(st, id))
  {
    if id in st.pending {
      SameKeysListed(st, id, st.pending[id].(queued := true));
    }
  }

  lemma ApplyKeeps(st: Store, step: Step)
    requires Listed(st) && Bounded(st)
    ensures Listed(Apply(st, step)) && Bounded(Apply(st, step))
  {
    match step
    case DoRetain(id, plaintext, last) => RetainKeeps(st, id, plaintext, last);
    case DoRemove(id) => RemoveKeeps(st, id);
    case DoMarkQueued(id) => MarkKeeps(st, id);
  }

  lemma {:induction false} AfterKeeps(st: Store, steps: seq<Step>)
    requires Listed(st) && Bounded(st)
    ensures Listed(After(st, steps)) && Bounded(After(st, steps))
    decreases |steps|
  {
    if steps != [] {
      ApplyKeeps(st, steps[0]);
      AfterKeeps(Apply(st, steps[0]), steps[1..]);
    }
  }

  /** Over any sends, acknowledgements, expiries and queueings. */
  lemma EveryRun(steps: seq<Step>)
    ensures var st := After(EMPTY, steps);
            && Distinct(st.order) && (forall id :: id in st.pending <==> id in st.order)
            && st.bytes == Total(st.order, st.pending)
            && 0 <= st.bytes <= 16 * 1024 * 1024 && |st.pending| <= 2048
  {
    AfterKeeps(EMPTY, steps);
  }

  ghost predicate HeldQueued(st: Store, id: MessageId, plaintext: seq<Octet>) {
    id in st.pending && st.pending[id].queued && st.pending[id].plaintext == plaintext
  }

  lemma QueuedStep(st: Store, step: Step, id: MessageId, plaintext: seq<Octet>)
    requires Listed(st) && HeldQueued(st, id, plaintext) && step != DoRemove(id)
    ensures HeldQueued(Apply(st, step), id, plaintext)
  {
    match step
    case DoRetain(other, bytes, last) => QueuedNotEvicted(st, other, bytes, last, id);
    case DoRemove(other) =>
    case DoMarkQueued(other) =>
  }

  /**
   Once the broker holds an intent for a message, its plaintext is there for every RESEND until it
   is acknowledged or expires, whatever else is sent meanwhile.
   */
  lemma {:induction false} QueuedStays(st: Store, steps: seq<Step>, id: MessageId, plaintext: seq<Octet>)
    requires Listed(st) && Bounded(st) && HeldQueued(st, id, plaintext)
    requires forall i :: 0 <= i < |steps| ==> steps[i] != DoRemove(id)
    ensures HeldQueued(After(st, steps), id, plaintext)
    decreases |steps|
  {
    if steps != [] {
      ApplyKeeps(st, steps[0]);
      QueuedStep(st, steps[0], id, plaintext);
      QueuedStays(Apply(st, steps[0]), steps[1..], id, plaintext);
    }
  }

  /** A message the broker holds an intent for, from the moment it is marked. */
  lemma MarkedStays(st: Store, steps: seq<Step>, id: MessageId)
    requires Listed(st) && Bounded(st) && id in st.pending
    requires forall i :: 0 <= i < |steps| ==> steps[i] != DoRemove(id)
    ensures HeldQueued(After(MarkQueued(st, id), steps), id, st.pending[id].plaintext)
  {
    MarkKeeps(st, id);
    QueuedStays(MarkQueued(st, id), steps, id, st.pending[id].plaintext);
  }

  /** An acknowledged or expired message is gone, and every other is as it was and in its place. */
  lemma RemoveExactly(st: Store, id: MessageId)
    requires Listed(st)
    ensures var out := Remove(st, id);
            && id !in out.pending && id !in out.order
            && (forall other :: other != id ==> (other in out.pending <==> other in st.pending))
            && (forall other :: other in out.pending ==> out.pending[other] == st.pending[other])
            && out.order == Except(st.order, id)
  {
    RemoveListed(st, id);
    var at := Find(st.order, id);
    if at < |st.order| { ExceptOne(st.order, at); } else { ExceptNone(st.order, id); }
    hide Total;
  }

  /** The list without an id. */
  function Except(order: seq<MessageId>, id: MessageId): seq<MessageId> {
    if order == [] then [] else (if order[0] == id then [] else [order[0]]) + Except(order[1..], id)
  }

  lemma {:induction false} ExceptNone(order: seq<MessageId>, id: MessageId)
    requires id !in order
    ensures Except(order, id) == order
  {
    if order != [] { ExceptNone(order[1..], id); }
  }

  lemma {:induction false} ExceptOne(order: seq<MessageId>, at: nat)
    requires at < |order| && Distinct(order)
    ensures Except(order, order[at]) == Without(order, at)
  {
    WithoutTail(order);
    if at == 0 {
      assert Without(order, 0) == order[1..];
      ExceptNone(order[1..], order[0]);
    } else {
      ExceptOne(order[1..], at - 1);
      assert order[0] != order[at] && order[1..][at - 1] == order[at];
      assert Without(order, at) == [order[0]] + Without(order[1..], at - 1);
    }
  }

  // ---- The object ----

  class Retainer {
    var pending: map<MessageId, Delivery>
    var pendingOrder: seq<MessageId>
    var pendingBytes: int

    function St(): Store
      reads this
    {
      Store(pending, pendingOrder, pendingBytes)
    }

    constructor ()
      ensures St() == EMPTY
    {
      pending, pendingOrder, pendingBytes := map[], [], 0;
    }

    method RemovePending(id: MessageId)
      modifies this
      ensures St() == Remove(old(St()), id)
    {
      if id in pending {
        pendingBytes := pendingBytes - |pending[id].plaintext|;
      }
      pending := pending - {id};
      for index := 0 to |pendingOrder|
        invariant pendingOrder == old(pendingOrder)
        invariant pending == old(pending) - {id}
        invariant pendingBytes == old(pendingBytes) - Size(old(pending), id)
        invariant forall k :: 0 <= k < index ==> pendingOrder[k] != id
      {
        if pendingOrder[index] == id {
          FirstIs(pendingOrder, id, index);
          pendingOrder := pendingOrder[..index] + pendingOrder[index + 1..];
          return;
        }
      }
    }

    /** The inner loop of retainPendingLocked. */
    method EvictOldest() returns (evicted: bool)
      modifies this
      ensures var at := Oldest(old(pendingOrder), old(pending));
              && evicted == (at < |old(pendingOrder)|)
              && St() == if evicted then Remove(old(St()), old(pendingOrder)[at]) else old(St())
    {
      for index := 0 to |pendingOrder|
        invariant St() == old(St())
        invariant forall k :: 0 <= k < index ==> !Evictable(pending, pendingOrder[k])
      {
        var oldest := pendingOrder[index];
        if oldest in pending && !pending[oldest].queued {
          OldestIs(pendingOrder, pending, index);
          RemovePending(oldest);
          return true;
        }
      }
      return false;
    }

    method RetainPending(id: MessageId, plaintext: seq<Octet>, last: Sealed)
      modifies this
      ensures St() == Retain(old(St()), id, plaintext, last)
    {
      if id in pending {
        pending := pending[id := pending[id].(last := last)];
        return;
      }
      while pendingBytes + |plaintext| > MAX_BYTES || |pending| >= MAX_DELIVERIES
        invariant MakeRoom(St(), |plaintext|) == MakeRoom(old(St()), |plaintext|)
        invariant id !in pending
        decreases |pending|
      {
        ghost var before := St();
        var evicted := EvictOldest();
        if !evicted {
          return;
        }
        RemoveShrinks(before, before.order[Oldest(before.order, before.pending)]);
      }
      pending := pending[id := Delivery(plaintext, false, last)];
      pendingOrder := pendingOrder + [id];
      pendingBytes := pendingBytes + |plaintext|;
    }

    method Queued(id: MessageId)
      modifies this`pending
      ensures St() == MarkQueued(old(St()), id)
    {
      if id in pending {
        pending := pending[id := pending[id].(queued := true)];
      }
    }
  }

  lemma FirstIs(order: seq<MessageId>, id: MessageId, at: nat)
    requires at < |order| && order[at] == id
    requires forall k :: 0 <= k < at ==> order[k] != id
    ensures Find(order, id) == at
  {
    assert order[at] in order;
  }

  lemma OldestIs(order: seq<MessageId>, p: map<MessageId, Delivery>, at: nat)
    requires at < |order| && Evictable(p, order[at])
    requires forall k :: 0 <= k < at ==> !Evictable(p, order[k])
    ensures Oldest(order, p) == at
  {
    assert Oldest(order, p) < |order| ==> Evictable(p, order[Oldest(order, p)]);
  }
}
