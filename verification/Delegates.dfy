/**
 The helper semaphore of internal/agent/delegate_write.go: counters for each chat and each
 connection under one mutex, and a wake channel that every release closes and replaces. The
 channel is its generation: a caller blocked on generation g has been woken once `wake` is past g.
 */
module Delegates {
  import opened Common

  const CHAT_LIMIT := 4

  type Connections = map<string, Connection>

  function ChatKey(id: string): string { "chat:" + id }

  function ConnectionKey(id: string): string { "connection:" + id }

  datatype Place = Blocked(generation: nat) | Holding | Gone

  datatype Caller = Caller(chat: string, connection: string, place: Place)

  datatype State = State(active: map<string, int>, wake: nat, callers: seq<Caller>)

  const INIT := State(map[], 0, [])

  function Get(active: map<string, int>, key: string): int {
    if key in active then active[key] else 0
  }

  function Add(active: map<string, int>, key: string, n: int): map<string, int> {
    active[key := Get(active, key) + n]
  }

  predicate HasRoom(config: Connections, active: map<string, int>, c: Caller) {
    Get(active, ChatKey(c.chat)) < CHAT_LIMIT && Get(active, ConnectionKey(c.connection)) < Limit(config, c.connection)
  }

  function Count(active: map<string, int>, c: Caller, n: int): map<string, int> {
    Add(Add(active, ChatKey(c.chat), n), ConnectionKey(c.connection), n)
  }

  /** One turn of the loop in acquireDelegate for caller i. */
  function Try(config: Connections, st: State, i: nat): State
    requires i < |st.callers|
  {
    var c := st.callers[i];
    if HasRoom(config, st.active, c) then
      st.(active := Count(st.active, c, 1), callers := st.callers[i := c.(place := Holding)])
    else
      st.(callers := st.callers[i := c.(place := Blocked(st.wake))])
  }

  /** The release closure of caller i. */
  function Release(st: State, i: nat): State
    requires i < |st.callers|
  {
    var c := st.callers[i];
    State(Count(st.active, c, -1), st.wake + 1, st.callers[i := c.(place := Gone)])
  }

  datatype Step =
    | DoArrive(chat: string, connection: string)
    | DoRetry(caller: nat)    // the channel it waits on has been closed
    | DoCancel(caller: nat)
    | DoRelease(caller: nat)

  predicate Woken(st: State, i: nat) {
    i < |st.callers| && st.callers[i].place.Blocked? && st.callers[i].place.generation < st.wake
  }

  function Apply(config: Connections, st: State, step: Step): State {
    match step
    case DoArrive(chat, connection) =>
      Try(config, st.(callers := st.callers + [Caller(chat, connection, Gone)]), |st.callers|)
    case DoRetry(i) => if Woken(st, i) then Try(config, st, i) else st
    case DoCancel(i) =>
      if i < |st.callers| && st.callers[i].place.Blocked?
          then st.(callers := st.callers[i := st.callers[i].(place := Gone)]) else st
    case DoRelease(i) => if i < |st.callers| && st.callers[i].place.Holding? then Release(st, i) else st
  }

  function Run(config: Connections, steps: seq<Step>): State
    decreases |steps|
  {
    if steps == [] then INIT else Apply(config, Run(config, steps[..|steps| - 1]), steps[|steps| - 1])
  }

  // ---- Invariant ----

  /** The callers that hold a place and count under this key. */
  ghost function Holders(callers: seq<Caller>, key: string): set<int> {
    set i | 0 <= i < |callers| && callers[i].place.Holding?
            && (ChatKey(callers[i].chat) == key || ConnectionKey(callers[i].connection) == key)
  }

  ghost predicate Exact(active: map<string, int>, callers: seq<Caller>) {
    forall key :: Get(active, key) == |Holders(callers, key)|
  }

  ghost predicate Bounded(config: Connections, active: map<string, int>) {
    && (forall chat :: Get(active, ChatKey(chat)) <= CHAT_LIMIT)
    && (forall connection :: Get(active, ConnectionKey(connection)) <= Limit(config, connection))
  }

  /** Whoever is blocked on the current channel really has no room. */
  ghost predicate NoLostWakeup(config: Connections, st: State) {
    forall i :: 0 <= i < |st.callers| && st.callers[i].place.Blocked? ==>
      && st.callers[i].place.generation <= st.wake
      && (st.callers[i].place.generation == st.wake ==> !HasRoom(config, st.active, st.callers[i]))
  }

  ghost predicate Inv(config: Connections, st: State) {
    Exact(st.active, st.callers) && Bounded(config, st.active) && NoLostWakeup(config, st)
  }

  /** A chat's counter and a connection's counter are never the same entry. */
  lemma KeysApart(chat: string, connection: string)
    ensures ChatKey(chat) != ConnectionKey(connection)
  {
    assert ChatKey(chat)[1] == 'h' && ConnectionKey(connection)[1] == 'o';
  }

  lemma KeysInjective(a: string, b: string)
    ensures ChatKey(a) == ChatKey(b) <==> a == b
    ensures ConnectionKey(a) == ConnectionKey(b) <==> a == b
  {
    assert ChatKey(a)[5..] == a && ChatKey(b)[5..] == b;
    assert ConnectionKey(a)[11..] == a && ConnectionKey(b)[11..] == b;
  }

  lemma CountGet(active: map<string, int>, c: Caller, n: int, key: string)
    ensures Get(Count(active, c, n), key) ==
            Get(active, key) + if key == ChatKey(c.chat) || key == ConnectionKey(c.connection) then n else 0
  {
    KeysApart(c.chat, c.connection);
  }

  /** Only caller i's own standing changes the holders of a key. */
  lemma HoldersUpdate(callers: seq<Caller>, i: nat, c: Caller, key: string)
    requires i < |callers| && c.chat == callers[i].chat && c.connection == callers[i].connection
    ensures var counted := ChatKey(c.chat) == key || ConnectionKey(c.connection) == key;
            |Holders(callers[i := c], key)| == |Holders(callers, key)|
              - (if counted && callers[i].place.Holding? then 1 else 0) + (if counted && c.place.Holding? then 1 else 0)
  {
    hide ChatKey, ConnectionKey;
    var before, after := Holders(callers, key), Holders(callers[i := c], key);
    var counted := ChatKey(c.chat) == key || ConnectionKey(c.connection) == key;
    var rest := before - {i};
    assert after - {i} == rest;
    assert i in before <==> counted && callers[i].place.Holding?;
    assert i in after <==> counted && c.place.Holding?;
    assert before == if i in before then rest + {i} else rest;
    assert after == if i in after then rest + {i} else rest;
  }

  lemma HoldersAppend(callers: seq<Caller>, c: Caller, key: string)
    requires !c.place.Holding?
    ensures Holders(callers + [c], key) == Holders(callers, key)
  {
    hide ChatKey, ConnectionKey;
  }

  lemma MoveExact(active: map<string, int>, callers: seq<Caller>, i: nat, place: Place)
    requires Exact(active, callers) && i < |callers|
    ensures var c := callers[i];
            var n := (if place.Holding? then 1 else 0) - (if c.place.Holding? then 1 else 0);
            Exact(if n == 0 then active else Count(active, c, n), callers[i := c.(place := place)])
  {
    var c := callers[i];
    var n := (if place.Holding? then 1 else 0) - (if c.place.Holding? then 1 else 0);
    var next := if n == 0 then active else Count(active, c, n);
    hide Count, Get, Holders, ChatKey, ConnectionKey;
    forall key ensures Get(next, key) == |Holders(callers[i := c.(place := place)], key)| {
      CountGet(active, c, n, key);
      HoldersUpdate(callers, i, c.(place := place), key);
    }
  }

  lemma AcquireBounded(config: Connections, active: map<string, int>, c: Caller)
    requires Bounded(config, active) && HasRoom(config, active, c)
    ensures Bounded(config, Count(active, c, 1))
  {
    hide Count, Get, ChatKey, ConnectionKey, Limit;
    var next := Count(active, c, 1);
    forall chat ensures Get(next, ChatKey(chat)) <= CHAT_LIMIT {
      CountGet(active, c, 1, ChatKey(chat));
      KeysApart(chat, c.connection);
    }
    forall connection ensures Get(next, ConnectionKey(connection)) <= Limit(config, connection) {
      CountGet(active, c, 1, ConnectionKey(connection));
      KeysApart(c.chat, connection);
      KeysInjective(connection, c.connection);
    }
  }

  lemma ReleaseBounded(config: Connections, active: map<string, int>, c: Caller)
    requires Bounded(config, active)
    ensures Bounded(config, Count(active, c, -1))
  {
    hide Count, Get, ChatKey, ConnectionKey, Limit;
    forall key ensures Get(Count(active, c, -1), key) <= Get(active, key) { CountGet(active, c, -1, key); }
  }

  /** Others only take room away. */
  lemma AcquireKeepsOthersOut(config: Connections, active: map<string, int>, c: Caller, other: Caller)
    requires !HasRoom(config, active, other)
    ensures !HasRoom(config, Count(active, c, 1), other)
  {
    hide Count, Get, ChatKey, ConnectionKey, Limit;
    CountGet(active, c, 1, ChatKey(other.chat));
    CountGet(active, c, 1, ConnectionKey(other.connection));
  }

  lemma TryInv(config: Connections, st: State, i: nat)
    requires Inv(config, st) && i < |st.callers| && !st.callers[i].place.Holding?
    ensures Inv(config, Try(config, st, i))
  {
    var c := st.callers[i];
    if HasRoom(config, st.active, c) {
      MoveExact(st.active, st.callers, i, Holding);
      AcquireBounded(config, st.active, c);
      AcquireWakes(config, st, i);
    } else {
      MoveExact(st.active, st.callers, i, Blocked(st.wake));
      BlockWakes(config, st, i);
    }
    hide Exact, Bounded, NoLostWakeup, HasRoom, Count;
  }

  lemma AcquireWakes(config: Connections, st: State, i: nat)
    requires NoLostWakeup(config, st) && i < |st.callers| && HasRoom(config, st.active, st.callers[i])
    ensures NoLostWakeup(config, Try(config, st, i))
  {
    hide HasRoom, Count;
    var out := Try(config, st, i);
    forall k | 0 <= k < |out.callers| && out.callers[k].place.Blocked? && out.callers[k].place.generation == out.wake
      ensures !HasRoom(config, out.active, out.callers[k])
    {
      AcquireKeepsOthersOut(config, st.active, st.callers[i], st.callers[k]);
    }
  }

  lemma BlockWakes(config: Connections, st: State, i: nat)
    requires NoLostWakeup(config, st) && i < |st.callers| && !HasRoom(config, st.active, st.callers[i])
    ensures NoLostWakeup(config, Try(config, st, i))
  {
    assert forall place :: HasRoom(config, st.active, st.callers[i].(place := place)) <==>
           HasRoom(config, st.active, st.callers[i]);
    hide HasRoom;
  }

  lemma ReleaseInv(config: Connections, st: State, i: nat)
    requires Inv(config, st) && i < |st.callers| && st.callers[i].place.Holding?
    ensures Inv(config, Release(st, i))
  {
    MoveExact(st.active, st.callers, i, Gone);
    ReleaseBounded(config, st.active, st.callers[i]);
    hide Exact, Bounded, HasRoom, Count;
  }

  lemma StepInv(config: Connections, st: State, step: Step)
    requires Inv(config, st)
    ensures Inv(config, Apply(config, st, step))
  {
    match step
    case DoArrive(chat, connection) =>
      var longer := st.(callers := st.callers + [Caller(chat, connection, Gone)]);
      forall key ensures Holders(longer.callers, key) == Holders(st.callers, key) {
        HoldersAppend(st.callers, Caller(chat, connection, Gone), key);
      }
      hide Holders, HasRoom, Bounded;
      TryInv(config, longer, |st.callers|);
    case DoRetry(i) =>
      hide Inv;
      if Woken(st, i) { TryInv(config, st, i); }
    case DoCancel(i) =>
      if i < |st.callers| && st.callers[i].place.Blocked? {
        MoveExact(st.active, st.callers, i, Gone);
        hide Exact, Bounded, ChatKey, ConnectionKey, Get, Limit;
      }
    case DoRelease(i) =>
      hide Inv;
      if i < |st.callers| && st.callers[i].place.Holding? { ReleaseInv(config, st, i); }
  }

  /**
   Over every interleaving: at most four helpers for a chat and at most the limit for a connection,
   the counters exactly the helpers that hold a place (so never negative), and no wakeup lost.
   */
  lemma {:induction false} EveryRun(config: Connections, steps: seq<Step>)
    ensures var st := Run(config, steps);
            && Inv(config, st)
            && (forall key :: Get(st.active, key) >= 0)
    decreases |steps|
  {
    if steps == [] {
      assert forall key :: Holders([], key) == {};
    } else {
      EveryRun(config, steps[..|steps| - 1]);
      StepInv(config, Run(config, steps[..|steps| - 1]), steps[|steps| - 1]);
    }
  }

  /** The helpers of a chat, and those on a connection. */
  function OfChat(callers: seq<Caller>, chat: string): set<int> {
    set i | 0 <= i < |callers| && callers[i].place.Holding? && callers[i].chat == chat
  }

  function OnConnection(callers: seq<Caller>, connection: string): set<int> {
    set i | 0 <= i < |callers| && callers[i].place.Holding? && callers[i].connection == connection
  }

  lemma HoldersAre(callers: seq<Caller>, chat: string, connection: string)
    ensures Holders(callers, ChatKey(chat)) == OfChat(callers, chat)
    ensures Holders(callers, ConnectionKey(connection)) == OnConnection(callers, connection)
  {
    forall i | 0 <= i < |callers|
      ensures ChatKey(callers[i].chat) == ChatKey(chat) <==> callers[i].chat == chat
      ensures ConnectionKey(callers[i].connection) == ConnectionKey(connection) <==> callers[i].connection == connection
      ensures ConnectionKey(callers[i].connection) != ChatKey(chat)
              && ChatKey(callers[i].chat) != ConnectionKey(connection)
    {
      KeysInjective(callers[i].chat, chat);
      KeysInjective(callers[i].connection, connection);
      KeysApart(chat, callers[i].connection);
      KeysApart(callers[i].chat, connection);
    }
    hide ChatKey, ConnectionKey;
  }

  /**
   Over every interleaving, counting the helpers themselves: never more than four of a chat, never more
   on a connection than its limit, and whoever is blocked on the current channel is blocked by one of
   the two limits being used up.
   */
  lemma HelpersWithin(config: Connections, steps: seq<Step>, chat: string, connection: string)
    ensures var st := Run(config, steps);
            var here, there := |OfChat(st.callers, chat)|, |OnConnection(st.callers, connection)|;
            && here <= 4 && there <= Limit(config, connection)
            && forall c :: c in st.callers && c.chat == chat && c.connection == connection
                 && c.place == Blocked(st.wake)
                 ==> here == 4 || there == Limit(config, connection)
  {
    var st := Run(config, steps);
    EveryRun(config, steps);
    HoldersAre(st.callers, chat, connection);
    assert Get(st.active, ChatKey(chat)) == |OfChat(st.callers, chat)|;
    assert Get(st.active, ConnectionKey(connection)) == |OnConnection(st.callers, connection)|;
    hide Run, Holders, OfChat, OnConnection, ChatKey, ConnectionKey, Limit;
  }

  /** A caller blocked on the current channel waits for somebody: a helper that will release. */
  lemma BlockedOnSomeone(config: Connections, steps: seq<Step>, i: nat)
    requires var st := Run(config, steps);
             i < |st.callers| && st.callers[i].place == Blocked(st.wake)
    ensures var st := Run(config, steps);
            exists k :: 0 <= k < |st.callers| && st.callers[k].place.Holding? &&
                        (st.callers[k].chat == st.callers[i].chat
                            || st.callers[k].connection == st.callers[i].connection)
  {
    var st := Run(config, steps);
    EveryRun(config, steps);
    var c := st.callers[i];
    hide Run;
    assert !HasRoom(config, st.active, c);
    var key := if Get(st.active, ChatKey(c.chat)) >= CHAT_LIMIT then ChatKey(c.chat) else ConnectionKey(c.connection);
    assert |Holders(st.callers, key)| > 0;
    var k :| k in Holders(st.callers, key);
    KeysApart(st.callers[k].chat, c.connection);
    KeysApart(c.chat, st.callers[k].connection);
    KeysInjective(st.callers[k].chat, c.chat);
    KeysInjective(st.callers[k].connection, c.connection);
  }

  // ---- The object ----

  class Semaphore {
    const config: Connections
    var delegateActive: map<string, int>
    var delegateWake: nat
    var callers: seq<Caller>

    function St(): State
      reads this
    {
      State(delegateActive, delegateWake, callers)
    }

    constructor (config: Connections)
      ensures St() == INIT && this.config == config
    {
      this.config := config;
      delegateActive, delegateWake, callers := map[], 0, [];
    }

    /** The first locked section of acquireDelegate. */
    method Arrive(chat: string, connection: string) returns (i: nat)
      modifies this
      ensures St() == Apply(config, old(St()), DoArrive(chat, connection)) && i == |old(callers)|
    {
      i := |callers|;
      callers := callers + [Caller(chat, connection, Gone)];
      Turn(i);
    }

    method Turn(i: nat)
      requires i < |callers|
      modifies this
      ensures St() == Try(config, old(St()), i)
    {
      var c := callers[i];
      var limit := 1;
      if c.connection in config {
        if config[c.connection].maxConcurrent > 0 {
          limit := config[c.connection].maxConcurrent;
        } else if config[c.connection].parallelCapacity > 0 {
          limit := config[c.connection].parallelCapacity;
        }
      }
      if Get(delegateActive, ChatKey(c.chat)) < 4 && Get(delegateActive, ConnectionKey(c.connection)) < limit {
        delegateActive := Add(delegateActive, ChatKey(c.chat), 1);
        delegateActive := Add(delegateActive, ConnectionKey(c.connection), 1);
        callers := callers[i := c.(place := Holding)];
      } else {
        callers := callers[i := c.(place := Blocked(delegateWake))];
      }
    }

    /** A caller whose channel was closed takes the lock and goes round again. */
    method Retry(i: nat)
      requires Woken(St(), i)
      modifies this
      ensures St() == Apply(config, old(St()), DoRetry(i))
    {
      Turn(i);
    }

    method ReleaseDelegate(i: nat)
      requires i < |callers| && callers[i].place.Holding?
      modifies this
      ensures St() == Apply(config, old(St()), DoRelease(i))
    {
      var c := callers[i];
      delegateActive := Add(delegateActive, ChatKey(c.chat), -1);
      delegateActive := Add(delegateActive, ConnectionKey(c.connection), -1);
      delegateWake := delegateWake + 1;
      callers := callers[i := c.(place := Gone)];
    }
  }
}
