/**
 Slot safety, work conservation and queue order, over every history of the scheduler.
 */
module SchedulerAdmission {
  import opened Common
  import opened SchedulerSpec

  // ---- Admission only tightens as sessions become busy ----

  lemma BusyOnlyTightens(cfg: Config, busy: set<SessionId>, more: set<SessionId>, s: SessionId)
    requires busy <= more
    ensures Admits(cfg, more, s) ==> Admits(cfg, busy, s)
  {
    SubsetSize(busy, more);
    SubsetSize(OnConnection(cfg, busy, cfg.connectionOf(s)), OnConnection(cfg, more, cfg.connectionOf(s)));
  }

  lemma FullAdmitsNone(cfg: Config, busy: set<SessionId>)
    ensures |busy| >= cfg.maxConcurrent ==> forall s :: !Admits(cfg, busy, s)
  {
  }

  // ---- Slot safety ----

  ghost predicate SlotsSafe(cfg: Config, busy: set<SessionId>) {
    && (|busy| <= cfg.maxConcurrent || busy == {})
    && forall c :: |OnConnection(cfg, busy, c)| <= ConnectionLimit(cfg, c)
  }

  lemma FewerBusySafe(cfg: Config, busy: set<SessionId>, fewer: set<SessionId>)
    requires SlotsSafe(cfg, busy) && fewer <= busy
    ensures SlotsSafe(cfg, fewer)
  {
    hide ConnectionLimit;
    SubsetSize(fewer, busy);
    forall c ensures |OnConnection(cfg, fewer, c)| <= ConnectionLimit(cfg, c) {
      SubsetSize(OnConnection(cfg, fewer, c), OnConnection(cfg, busy, c));
    }
  }

  /** An admitted session may become busy. */
  lemma AdmittedSafe(cfg: Config, busy: set<SessionId>, s: SessionId)
    requires SlotsSafe(cfg, busy) && Admits(cfg, busy, s)
    ensures SlotsSafe(cfg, busy + {s})
  {
    hide ConnectionLimit;
    forall c ensures |OnConnection(cfg, busy + {s}, c)| <= ConnectionLimit(cfg, c) {
      OneMoreOn(cfg, busy, s, c);
    }
  }

  lemma OneMoreOn(cfg: Config, busy: set<SessionId>, s: SessionId, c: ConnectionId)
    requires |OnConnection(cfg, busy, c)| <= ConnectionLimit(cfg, c)
    requires Admits(cfg, busy, s)
    ensures |OnConnection(cfg, busy + {s}, c)| <= ConnectionLimit(cfg, c)
  {
    hide ConnectionLimit;
    if cfg.connectionOf(s) == c {
      assert OnConnection(cfg, busy + {s}, c) == OnConnection(cfg, busy, c) + {s};
    } else {
      assert OnConnection(cfg, busy + {s}, c) == OnConnection(cfg, busy, c);
    }
  }

  // ---- Work conservation ----

  /** No run left waiting could be admitted. */
  ghost predicate Conserving(cfg: Config, st: State) {
    && (forall i :: 0 <= i < |st.resuming| ==> !Admits(cfg, Busy(st), st.resuming[i].session))
    && (forall i :: 0 <= i < |st.queue| ==> !Admits(cfg, Busy(st), st.queue[i].session))
  }

  /** Starting or resuming more only keeps the others out. */
  lemma MoreBusyConserves(cfg: Config, st: State, st': State)
    requires Conserving(cfg, st) && Busy(st) <= Busy(st')
    requires forall i :: 0 <= i < |st'.resuming| ==> st'.resuming[i] in st.resuming
    requires forall i :: 0 <= i < |st'.queue| ==>
             st'.queue[i] in st.queue || !Admits(cfg, Busy(st'), st'.queue[i].session)
    ensures Conserving(cfg, st')
  {
    forall i | 0 <= i < |st'.resuming| ensures !Admits(cfg, Busy(st'), st'.resuming[i].session) {
      BusyOnlyTightens(cfg, Busy(st), Busy(st'), st'.resuming[i].session);
    }
    forall i | 0 <= i < |st'.queue| ensures !Admits(cfg, Busy(st'), st'.queue[i].session) {
      if st'.queue[i] in st.queue {
        BusyOnlyTightens(cfg, Busy(st), Busy(st'), st'.queue[i].session);
      }
    }
  }

  // ---- The two drain loops ----

  /** What the resume loop keeps and what it establishes. */
  lemma {:induction false} DrainResumingKeeps(cfg: Config, st: State, i: nat)
    requires i <= |st.resuming|
    requires SlotsSafe(cfg, Busy(st)) && st.paused <= st.active.Keys
    requires forall k :: 0 <= k < i ==> !Admits(cfg, Busy(st), st.resuming[k].session)
    ensures var out := DrainResuming(cfg, st, i);
            && SlotsSafe(cfg, Busy(out)) && out.paused <= out.active.Keys
            && Busy(st) <= Busy(out) && out.queue == st.queue && out.active == st.active
            && forall k :: 0 <= k < |out.resuming| ==> !Admits(cfg, Busy(out), out.resuming[k].session)
    decreases |st.resuming| - i
  {
    hide SlotsSafe, Admits, OnConnection;
    if i == |st.resuming| {
    } else if !Admits(cfg, Busy(st), st.resuming[i].session) {
      DrainResumingKeeps(cfg, st, i + 1);
    } else {
      var s, next := st.resuming[i].session, WakeAt(st, i);
      AdmittedSafe(cfg, Busy(st), s);
      FewerBusySafe(cfg, Busy(st) + {s}, Busy(next));
      forall k | 0 <= k < i ensures !Admits(cfg, Busy(next), next.resuming[k].session) {
        BusyOnlyTightens(cfg, Busy(st), Busy(next), st.resuming[k].session);
      }
      DrainResumingKeeps(cfg, next, i);
    }
  }

  lemma {:induction false} DrainQueueKeeps(cfg: Config, st: State, i: nat)
    requires i <= |st.queue|
    requires SlotsSafe(cfg, Busy(st)) && st.paused <= st.active.Keys
    requires forall k :: 0 <= k < |st.resuming| ==> !Admits(cfg, Busy(st), st.resuming[k].session)
    requires forall k :: 0 <= k < i ==> !Admits(cfg, Busy(st), st.queue[k].session)
    ensures var out := DrainQueue(cfg, st, i);
            && SlotsSafe(cfg, Busy(out)) && out.paused <= out.active.Keys
            && Busy(st) <= Busy(out) && out.resuming == st.resuming
            && Conserving(cfg, out)
    decreases |st.queue| - i
  {
    hide SlotsSafe, Admits, OnConnection;
    if i == |st.queue| || |Busy(st)| >= cfg.maxConcurrent {
      FullAdmitsNone(cfg, Busy(st));
    } else if !Admits(cfg, Busy(st), st.queue[i].session) {
      DrainQueueKeeps(cfg, st, i + 1);
    } else {
      var s, next := st.queue[i].session, StartAt(st, i);
      AdmittedSafe(cfg, Busy(st), s);
      FewerBusySafe(cfg, Busy(st) + {s}, Busy(next));
      forall k | 0 <= k < i ensures !Admits(cfg, Busy(next), next.queue[k].session) {
        BusyOnlyTightens(cfg, Busy(st), Busy(next), st.queue[k].session);
      }
      forall k | 0 <= k < |next.resuming| ensures !Admits(cfg, Busy(next), next.resuming[k].session) {
        BusyOnlyTightens(cfg, Busy(st), Busy(next), st.resuming[k].session);
      }
      DrainQueueKeeps(cfg, next, i);
    }
  }

  ghost predicate Safe(cfg: Config, st: State) {
    SlotsSafe(cfg, Busy(st)) && st.paused <= st.active.Keys
  }

  /** One pass reaches a state in which nothing more can be admitted. */
  lemma DrainConserves(cfg: Config, st: State)
    requires Safe(cfg, st)
    ensures Safe(cfg, Drain(cfg, st)) && Conserving(cfg, Drain(cfg, st))
  {
    DrainResumingKeeps(cfg, st, 0);
    DrainQueueKeeps(cfg, DrainResuming(cfg, st, 0), 0);
  }

  // ---- Every step ----

  lemma StartOrEnqueueKeeps(cfg: Config, st: State, entry: QueuedRun)
    requires Safe(cfg, st) && Conserving(cfg, st)
    ensures var out := StartOrEnqueue(cfg, st, entry); Safe(cfg, out) && Conserving(cfg, out)
  {
    hide SlotsSafe, Admits, OnConnection;
    var out := StartOrEnqueue(cfg, st, entry);
    if Admits(cfg, Busy(st), entry.session) {
      AdmittedSafe(cfg, Busy(st), entry.session);
      FewerBusySafe(cfg, Busy(st) + {entry.session}, Busy(out));
    }
    MoreBusyConserves(cfg, st, out);
  }

  lemma SubmitKeeps(cfg: Config, st: State, sub: Submission)
    requires Safe(cfg, st) && Conserving(cfg, st)
    ensures var out := Submit(cfg, st, sub).state; Safe(cfg, out) && Conserving(cfg, out)
  {
    hide SlotsSafe, Admits, OnConnection;
    if sub.open && sub.session !in st.unreachable && !(sub.session in st.active || sub.running) && sub.stored {
      var minted := DropPending(st, sub.session).(ids := st.ids + 1);
      assert Busy(minted) == Busy(st);
      StartOrEnqueueKeeps(cfg, minted, QueuedRun(sub.session, minted.ids, sub.messageId, "", sub.source));
    } else {
      var out := Submit(cfg, st, sub).state;
      assert Busy(out) == Busy(st) && out.queue == st.queue && out.resuming == st.resuming;
    }
  }

  lemma RetireSafe(cfg: Config, st: State, s: SessionId)
    requires Safe(cfg, st)
    ensures Safe(cfg, Retire(st, s))
  {
    hide SlotsSafe, Admits, OnConnection;
    FewerBusySafe(cfg, Busy(st), Busy(Retire(st, s)));
  }

  lemma {:induction false} ReleaseKeeps(cfg: Config, st: State, c: ConnectionId, order: seq<SessionId>)
    requires Safe(cfg, st) && Conserving(cfg, st)
    ensures var out := ReleaseModel(cfg, st, c, order); Safe(cfg, out) && Conserving(cfg, out)
    decreases |order|
  {
    hide SlotsSafe, Admits, OnConnection;
    if order != [] {
      var s := order[0];
      if s in st.unreachable && cfg.connectionOf(s) == c {
        var free := st.(unreachable := st.unreachable - {s});
        if |Pending(free, s)| > 0 && s !in free.active {
          var ready := free.(pending := free.pending - {s}, ids := free.ids + 1);
          assert Busy(ready) == Busy(st);
          StartOrEnqueueKeeps(cfg, ready, NextRun(free, s));
        }
        ReleaseKeeps(cfg, ReleaseSession(cfg, st, s), c, order[1..]);
      } else {
        ReleaseKeeps(cfg, st, c, order[1..]);
      }
    }
  }

  lemma {:induction false} StopQueuedShrinks(st: State, all: bool, target: SessionId, i: nat)
    requires i <= |st.queue|
    ensures var out := StopQueued(st, all, target, i);
            && out.active == st.active && out.paused == st.paused && out.resuming == st.resuming
            && forall k :: 0 <= k < |out.queue| ==> out.queue[k] in st.queue
    decreases |st.queue| - i
  {
    if i == |st.queue| {
    } else if !Targets(all, target, st.queue[i].session) {
      StopQueuedShrinks(st, all, target, i + 1);
    } else {
      var entry := st.queue[i];
      var dropped := DropPending(st.(queue := Without(st.queue, i)), entry.session);
      StopQueuedShrinks(ReportStopped(dropped, entry.session, entry.runId), all, target, i);
    }
  }

  lemma StopKeeps(cfg: Config, st: State, all: bool, target: SessionId, reason: SessionId -> string)
    requires Safe(cfg, st) && Conserving(cfg, st)
    ensures var out := Stop(st, all, target, reason); Safe(cfg, out) && Conserving(cfg, out)
  {
    hide SlotsSafe, Admits, OnConnection;
    var first := StopActive(st, all, target, reason);
    StopQueuedShrinks(first, all, target, 0);
    var out := Stop(st, all, target, reason);
    assert first.active.Keys == st.active.Keys;
    assert Busy(out) == Busy(st);
    MoreBusyConserves(cfg, st, out);
  }

  lemma ResumeKeeps(cfg: Config, st: State, s: SessionId, r: RunId)
    requires Safe(cfg, st) && Conserving(cfg, st)
    ensures var out := Resume(cfg, st, s, r); Safe(cfg, out) && Conserving(cfg, out)
  {
    hide SlotsSafe, Admits, OnConnection, Drain;
    var out := Resume(cfg, st, s, r);
    if s !in st.active || st.active[s].runId != r || s !in st.paused {
    } else if |st.resuming| == 0 && Admits(cfg, Busy(st), s) {
      AdmittedSafe(cfg, Busy(st), s);
      assert Busy(out) == Busy(st) + {s};
      MoreBusyConserves(cfg, st, out);
    } else {
      var longer := st.(resuming := st.resuming + [ResumeWaiter(s, st.channels)], channels := st.channels + 1);
      assert Busy(longer) == Busy(st);
      DrainConserves(cfg, longer);
    }
  }

  lemma FinishKeeps(cfg: Config, st: State, s: SessionId, r: RunId, reason: string)
    requires Safe(cfg, st) && Conserving(cfg, st)
    ensures var out := Finish(cfg, st, s, r, reason); Safe(cfg, out) && Conserving(cfg, out)
  {
    hide SlotsSafe, Admits, OnConnection, Drain, Conserving;
    if OwnsSession(st, s, r) {
      RetireSafe(cfg, st, s);
      var settled := Settle(st, s, r, reason);
      assert settled.active == Retire(st, s).active && settled.paused == Retire(st, s).paused;
      DrainConserves(cfg, settled);
    }
  }

  lemma ForceKeeps(cfg: Config, st: State, s: SessionId, r: RunId)
    requires Safe(cfg, st) && Conserving(cfg, st)
    ensures var out := ForceFinish(cfg, st, s, r); Safe(cfg, out) && Conserving(cfg, out)
  {
    hide SlotsSafe, Admits, OnConnection, Drain, Conserving;
    if s in st.active && st.active[s].runId == r {
      RetireSafe(cfg, st, s);
      DrainConserves(cfg, ReportStopped(Retire(st, s), s, r));
    }
  }

  lemma PauseKeeps(cfg: Config, st: State, s: SessionId, r: RunId)
    requires Safe(cfg, st) && Conserving(cfg, st)
    ensures var out := Pause(cfg, st, s, r); Safe(cfg, out) && Conserving(cfg, out)
  {
    hide SlotsSafe, Admits, OnConnection, Drain, Conserving;
    if s in st.active && st.active[s].runId == r && s !in st.paused {
      var parked := st.(paused := st.paused + {s});
      FewerBusySafe(cfg, Busy(st), Busy(parked));
      DrainConserves(cfg, parked);
    }
  }

  lemma StepKeeps(cfg: Config, st: State, step: Step)
    requires Safe(cfg, st) && Conserving(cfg, st)
    ensures Safe(cfg, Apply(cfg, st, step)) && Conserving(cfg, Apply(cfg, st, step))
  {
    hide SlotsSafe, Admits, OnConnection, Submit, Finish, ForceFinish, Pause, Resume, ReleaseModel, Stop;
    match step
    case DoSubmit(sub) => SubmitKeeps(cfg, st, sub);
    case DoFinish(s, r, reason) => FinishKeeps(cfg, st, s, r, reason);
    case DoForceFinish(s, r) => ForceKeeps(cfg, st, s, r);
    case DoPause(s, r) => PauseKeeps(cfg, st, s, r);
    case DoResume(s, r) => ResumeKeeps(cfg, st, s, r);
    case DoCancelResume(ready) => MoreBusyConserves(cfg, st, CancelResume(st, ready));
    case DoRelease(c, order) => ReleaseKeeps(cfg, st, c, order);
    case DoStop(all, target, reasons) => StopKeeps(cfg, st, all, target, reasons);
    case DoHold(s) =>
    case DoRestore(s, entries) =>
    case DoBoundary(s, r) =>
  }

  /** Slot safety and work conservation in every reachable state. */
  lemma {:induction false} EveryHistorySafe(cfg: Config, floor: nat, steps: seq<Step>)
    ensures Safe(cfg, After(cfg, floor, steps))
    ensures Conserving(cfg, After(cfg, floor, steps))
    decreases |steps|
  {
    if steps == [] {
      assert forall c :: OnConnection(cfg, {}, c) == {};
    } else {
      EveryHistorySafe(cfg, floor, steps[..|steps| - 1]);
      StepKeeps(cfg, After(cfg, floor, steps[..|steps| - 1]), steps[|steps| - 1]);
    }
  }

  // ---- Queue order on one connection ----

  /** The items whose connection is c, in order. */
  function Line<T>(items: seq<T>, connection: T -> ConnectionId, c: ConnectionId): seq<T> {
    if items == [] then []
    else (if connection(items[0]) == c then [items[0]] else []) + Line(items[1..], connection, c)
  }

  function OfRun(cfg: Config): QueuedRun -> ConnectionId {
    (q: QueuedRun) => cfg.connectionOf(q.session)
  }

  function OfWaiter(cfg: Config): ResumeWaiter -> ConnectionId {
    (w: ResumeWaiter) => cfg.connectionOf(w.session)
  }

  lemma {:induction false} LineConcat<T>(a: seq<T>, b: seq<T>, connection: T -> ConnectionId, c: ConnectionId)
    ensures Line(a + b, connection, c) == Line(a, connection, c) + Line(b, connection, c)
  {
    if a == [] {
      assert a + b == b;
    } else {
      LineConcat(a[1..], b, connection, c);
      assert (a + b)[1..] == a[1..] + b;
      var head := if connection(a[0]) == c then [a[0]] else [];
      Assoc(head, Line(a[1..], connection, c), Line(b, connection, c));
    }
  }

  lemma {:induction false} LineNone<T>(items: seq<T>, connection: T -> ConnectionId, c: ConnectionId)
    requires forall k :: 0 <= k < |items| ==> connection(items[k]) != c
    ensures Line(items, connection, c) == []
  {
    if items != [] { LineNone(items[1..], connection, c); }
  }

  /** Taking out the item at i takes out the first item of its line, when no earlier one is on it. */
  lemma HeadOfLine<T>(items: seq<T>, i: nat, connection: T -> ConnectionId, c: ConnectionId)
    requires i < |items|
    requires forall k :: 0 <= k < i ==> connection(items[k]) != connection(items[i])
    ensures Line([items[i]], connection, c) + Line(Without(items, i), connection, c) == Line(items, connection, c)
  {
    var before, after := items[..i], items[i + 1..];
    assert items == before + ([items[i]] + after);
    LineConcat(before, [items[i]] + after, connection, c);
    LineConcat([items[i]], after, connection, c);
    LineConcat(before, after, connection, c);
    if connection(items[i]) == c {
      LineNone(before, connection, c);
    } else {
      LineNone([items[i]], connection, c);
    }
  }

  /** The runs the queue loop starts, in the order it starts them. */
  function StartedBy(cfg: Config, st: State, i: nat): seq<QueuedRun>
    requires i <= |st.queue|
    decreases |st.queue| - i
  {
    if i == |st.queue| || |Busy(st)| >= cfg.maxConcurrent then []
    else if !Admits(cfg, Busy(st), st.queue[i].session) then StartedBy(cfg, st, i + 1)
    else [st.queue[i]] + StartedBy(cfg, StartAt(st, i), i)
  }

  /** The waiters the resume loop wakes, in the order it wakes them. */
  function WokenBy(cfg: Config, st: State, i: nat): seq<ResumeWaiter>
    requires i <= |st.resuming|
    decreases |st.resuming| - i
  {
    if i == |st.resuming| then []
    else if !Admits(cfg, Busy(st), st.resuming[i].session) then WokenBy(cfg, st, i + 1)
    else [st.resuming[i]] + WokenBy(cfg, WakeAt(st, i), i)
  }

  function StartEvents(runs: seq<QueuedRun>): seq<Event> {
    if runs == [] then [] else [Started(runs[0].session, runs[0].runId)] + StartEvents(runs[1..])
  }

  function WakeEvents(waiters: seq<ResumeWaiter>): seq<Event> {
    if waiters == [] then [] else [Woken(waiters[0].ready)] + WakeEvents(waiters[1..])
  }

  /** An entry passed over and an entry admitted are on different connections. */
  lemma NoneBefore(cfg: Config, busy: set<SessionId>, earlier: SessionId, admitted: SessionId)
    requires !Admits(cfg, busy, earlier) && Admits(cfg, busy, admitted)
    ensures cfg.connectionOf(earlier) != cfg.connectionOf(admitted)
  {
  }

  lemma StartAtEffect(st: State, i: nat)
    requires i < |st.queue|
    ensures var next := StartAt(st, i);
            && next.queue == Without(st.queue, i) && |next.queue| == |st.queue| - 1
            && (forall k :: 0 <= k < i ==> next.queue[k] == st.queue[k])
            && next.log == st.log + [Started(st.queue[i].session, st.queue[i].runId)]
            && Busy(st) <= Busy(next)
  {
  }

  lemma WakeAtEffect(st: State, i: nat)
    requires i < |st.resuming|
    ensures var next := WakeAt(st, i);
            && next.resuming == Without(st.resuming, i) && |next.resuming| == |st.resuming| - 1
            && (forall k :: 0 <= k < i ==> next.resuming[k] == st.resuming[k])
            && next.log == st.log + [Woken(st.resuming[i].ready)]
            && Busy(st) <= Busy(next)
  {
  }

  /** What was passed over stays refused, and shares no connection with the run started. */
  lemma PassedOverQueue(cfg: Config, st: State, i: nat)
    requires i < |st.queue| && Admits(cfg, Busy(st), st.queue[i].session)
    requires forall k :: 0 <= k < i ==> !Admits(cfg, Busy(st), st.queue[k].session)
    ensures var next := StartAt(st, i);
            && next.queue == Without(st.queue, i) && |next.queue| == |st.queue| - 1
            && (forall k :: 0 <= k < i ==> !Admits(cfg, Busy(next), next.queue[k].session))
            && (forall k :: 0 <= k < i ==> OfRun(cfg)(st.queue[k]) != OfRun(cfg)(st.queue[i]))
  {
    StartAtEffect(st, i);
    hide StartAt, Busy, Without;
    var next := StartAt(st, i);
    forall k | 0 <= k < i
      ensures !Admits(cfg, Busy(next), next.queue[k].session) && OfRun(cfg)(st.queue[k]) != OfRun(cfg)(st.queue[i])
    {
      NoneBefore(cfg, Busy(st), st.queue[k].session, st.queue[i].session);
      BusyOnlyTightens(cfg, Busy(st), Busy(next), st.queue[k].session);
    }
  }

  lemma PassedOverResumers(cfg: Config, st: State, i: nat)
    requires i < |st.resuming| && Admits(cfg, Busy(st), st.resuming[i].session)
    requires forall k :: 0 <= k < i ==> !Admits(cfg, Busy(st), st.resuming[k].session)
    ensures var next := WakeAt(st, i);
            && next.resuming == Without(st.resuming, i) && |next.resuming| == |st.resuming| - 1
            && (forall k :: 0 <= k < i ==> !Admits(cfg, Busy(next), next.resuming[k].session))
            && (forall k :: 0 <= k < i ==> OfWaiter(cfg)(st.resuming[k]) != OfWaiter(cfg)(st.resuming[i]))
  {
    WakeAtEffect(st, i);
    hide WakeAt, Busy, Without;
    var next := WakeAt(st, i);
    forall k | 0 <= k < i
      ensures !Admits(cfg, Busy(next), next.resuming[k].session)
              && OfWaiter(cfg)(st.resuming[k]) != OfWaiter(cfg)(st.resuming[i])
    {
      NoneBefore(cfg, Busy(st), st.resuming[k].session, st.resuming[i].session);
      BusyOnlyTightens(cfg, Busy(st), Busy(next), st.resuming[k].session);
    }
  }

  /** Putting a first item before a split gives the split of the longer list. */
  lemma ExtendSplit<T>(head: T, released: seq<T>, kept: seq<T>, rest: seq<T>, all: seq<T>,
                       connection: T -> ConnectionId, c: ConnectionId)
    requires Line(released, connection, c) + Line(kept, connection, c) == Line(rest, connection, c)
    requires Line([head], connection, c) + Line(rest, connection, c) == Line(all, connection, c)
    ensures Line([head] + released, connection, c) + Line(kept, connection, c) == Line(all, connection, c)
  {
    LineConcat([head], released, connection, c);
    Assoc(Line([head], connection, c), Line(released, connection, c), Line(kept, connection, c));
  }

  lemma UnfoldQueue(cfg: Config, st: State, i: nat)
    requires i <= |st.queue|
    ensures if i == |st.queue| || |Busy(st)| >= cfg.maxConcurrent then
              StartedBy(cfg, st, i) == [] && DrainQueue(cfg, st, i) == st
            else if !Admits(cfg, Busy(st), st.queue[i].session) then
              StartedBy(cfg, st, i) == StartedBy(cfg, st, i + 1) && DrainQueue(cfg, st, i) == DrainQueue(cfg, st, i + 1)
            else
              StartedBy(cfg, st, i) == [st.queue[i]] + StartedBy(cfg, StartAt(st, i), i) &&
              DrainQueue(cfg, st, i) == DrainQueue(cfg, StartAt(st, i), i)
  {
    hide Admits, StartRun, Busy;
  }

  lemma UnfoldResumers(cfg: Config, st: State, i: nat)
    requires i < |st.resuming| && Admits(cfg, Busy(st), st.resuming[i].session)
    ensures WokenBy(cfg, st, i) == [st.resuming[i]] + WokenBy(cfg, WakeAt(st, i), i)
    ensures DrainResuming(cfg, st, i) == DrainResuming(cfg, WakeAt(st, i), i)
  {
    hide Admits;
  }

  ghost predicate QueueSplit(cfg: Config, st: State, i: nat, c: ConnectionId)
    requires i <= |st.queue|
  {
    Line(StartedBy(cfg, st, i), OfRun(cfg), c) + Line(DrainQueue(cfg, st, i).queue, OfRun(cfg), c)
      == Line(st.queue, OfRun(cfg), c)
  }

  lemma QueueSplitHead(cfg: Config, st: State, i: nat, c: ConnectionId)
    requires i < |st.queue| && |Busy(st)| < cfg.maxConcurrent && Admits(cfg, Busy(st), st.queue[i].session)
    requires StartAt(st, i).queue == Without(st.queue, i) && i <= |StartAt(st, i).queue|
    requires forall k :: 0 <= k < i ==> OfRun(cfg)(st.queue[k]) != OfRun(cfg)(st.queue[i])
    requires QueueSplit(cfg, StartAt(st, i), i, c)
    ensures QueueSplit(cfg, st, i, c)
  {
    UnfoldQueue(cfg, st, i);
    hide Admits, Line, StartAt, Busy, Without, OfRun, StartedBy, DrainQueue;
    var next := StartAt(st, i);
    HeadOfLine(st.queue, i, OfRun(cfg), c);
    ExtendSplit(st.queue[i], StartedBy(cfg, next, i), DrainQueue(cfg, next, i).queue, next.queue, st.queue,
        OfRun(cfg), c);
  }

  lemma LineEmpty<T>(connection: T -> ConnectionId, c: ConnectionId)
    ensures Line([], connection, c) == []
  {
  }

  lemma QueueSplitEmpty(cfg: Config, st: State, i: nat, c: ConnectionId)
    requires i <= |st.queue|
    requires i == |st.queue| || |Busy(st)| >= cfg.maxConcurrent
    ensures QueueSplit(cfg, st, i, c)
  {
    LineEmpty(OfRun(cfg), c);
    hide Line, OfRun, Busy, Admits, StartAt, StartedBy, DrainQueue;
    UnfoldQueue(cfg, st, i);
    assert [] + Line(st.queue, OfRun(cfg), c) == Line(st.queue, OfRun(cfg), c);
  }

  /**
   The queue loop splits the queue: on each connection the started runs followed by the kept ones
   are the queue as it was, so the started ones are a prefix and nothing is lost or repeated.
   */
  lemma {:induction false} QueueSplits(cfg: Config, st: State, i: nat, c: ConnectionId)
    requires i <= |st.queue|
    requires forall k :: 0 <= k < i ==> !Admits(cfg, Busy(st), st.queue[k].session)
    ensures QueueSplit(cfg, st, i, c)
    decreases |st.queue| - i
  {
    if i == |st.queue| || |Busy(st)| >= cfg.maxConcurrent {
      hide *;
      QueueSplitEmpty(cfg, st, i, c);
    } else if !Admits(cfg, Busy(st), st.queue[i].session) {
      QueueSplits(cfg, st, i + 1, c);
      UnfoldQueue(cfg, st, i);
      hide Line, OfRun, Admits, Busy, StartAt;
    } else {
      hide *;
      PassedOverQueue(cfg, st, i);
      QueueSplits(cfg, StartAt(st, i), i, c);
      QueueSplitHead(cfg, st, i, c);
    }
  }

  ghost predicate ResumeSplit(cfg: Config, st: State, i: nat, c: ConnectionId)
    requires i <= |st.resuming|
  {
    Line(WokenBy(cfg, st, i), OfWaiter(cfg), c) + Line(DrainResuming(cfg, st, i).resuming, OfWaiter(cfg), c)
      == Line(st.resuming, OfWaiter(cfg), c)
  }

  lemma ResumeSplitHead(cfg: Config, st: State, i: nat, c: ConnectionId)
    requires i < |st.resuming| && Admits(cfg, Busy(st), st.resuming[i].session)
    requires WakeAt(st, i).resuming == Without(st.resuming, i) && i <= |WakeAt(st, i).resuming|
    requires forall k :: 0 <= k < i ==> OfWaiter(cfg)(st.resuming[k]) != OfWaiter(cfg)(st.resuming[i])
    requires ResumeSplit(cfg, WakeAt(st, i), i, c)
    ensures ResumeSplit(cfg, st, i, c)
  {
    UnfoldResumers(cfg, st, i);
    hide Admits, Line, WakeAt, Busy, Without, OfWaiter, WokenBy, DrainResuming;
    var next := WakeAt(st, i);
    HeadOfLine(st.resuming, i, OfWaiter(cfg), c);
    ExtendSplit(st.resuming[i], WokenBy(cfg, next, i), DrainResuming(cfg, next, i).resuming, next.resuming,
        st.resuming, OfWaiter(cfg), c);
  }

  lemma {:induction false} ResumersSplit(cfg: Config, st: State, i: nat, c: ConnectionId)
    requires i <= |st.resuming|
    requires forall k :: 0 <= k < i ==> !Admits(cfg, Busy(st), st.resuming[k].session)
    ensures ResumeSplit(cfg, st, i, c)
    decreases |st.resuming| - i
  {
    if i == |st.resuming| {
      hide Admits, Busy;
    } else if !Admits(cfg, Busy(st), st.resuming[i].session) {
      ResumersSplit(cfg, st, i + 1, c);
      hide Line, OfWaiter, Admits, Busy, WakeAt;
    } else {
      hide *;
      PassedOverResumers(cfg, st, i);
      ResumersSplit(cfg, WakeAt(st, i), i, c);
      ResumeSplitHead(cfg, st, i, c);
    }
  }

  lemma {:induction false} QueueLog(cfg: Config, st: State, i: nat)
    requires i <= |st.queue|
    ensures DrainQueue(cfg, st, i).log == st.log + StartEvents(StartedBy(cfg, st, i))
    decreases |st.queue| - i
  {
    hide Admits, StartAt, Busy, Without;
    if i == |st.queue| || |Busy(st)| >= cfg.maxConcurrent {
    } else if !Admits(cfg, Busy(st), st.queue[i].session) {
      QueueLog(cfg, st, i + 1);
    } else {
      StartAtEffect(st, i);
      var rest := StartedBy(cfg, StartAt(st, i), i);
      QueueLog(cfg, StartAt(st, i), i);
      assert ([st.queue[i]] + rest)[1..] == rest;
    }
  }

  lemma {:induction false} ResumeLog(cfg: Config, st: State, i: nat)
    requires i <= |st.resuming|
    ensures DrainResuming(cfg, st, i).log == st.log + WakeEvents(WokenBy(cfg, st, i))
    decreases |st.resuming| - i
  {
    hide Admits, WakeAt, Busy, Without;
    if i == |st.resuming| {
    } else if !Admits(cfg, Busy(st), st.resuming[i].session) {
      ResumeLog(cfg, st, i + 1);
    } else {
      WakeAtEffect(st, i);
      var rest := WokenBy(cfg, WakeAt(st, i), i);
      ResumeLog(cfg, WakeAt(st, i), i);
      assert ([st.resuming[i]] + rest)[1..] == rest;
    }
  }

  /** A run the queue loop starts was admitted when the loop began. */
  lemma {:induction false} StartedWereAdmitted(cfg: Config, st: State, i: nat)
    requires i <= |st.queue|
    ensures forall q :: q in StartedBy(cfg, st, i) ==> q in st.queue && Admits(cfg, Busy(st), q.session)
    decreases |st.queue| - i
  {
    hide Admits;
    if i == |st.queue| || |Busy(st)| >= cfg.maxConcurrent {
    } else if !Admits(cfg, Busy(st), st.queue[i].session) {
      StartedWereAdmitted(cfg, st, i + 1);
    } else {
      var next := StartAt(st, i);
      StartedWereAdmitted(cfg, next, i);
      forall q | q in StartedBy(cfg, next, i) ensures Admits(cfg, Busy(st), q.session) && q in st.queue {
        BusyOnlyTightens(cfg, Busy(st), Busy(next), q.session);
      }
    }
  }

  /** A queued run starts only when no answered run of its connection is left waiting. */
  lemma ResumersFirst(cfg: Config, mid: State, c: ConnectionId)
    requires forall k :: 0 <= k < |mid.resuming| ==> !Admits(cfg, Busy(mid), mid.resuming[k].session)
    requires Line(StartedBy(cfg, mid, 0), OfRun(cfg), c) != []
    ensures Line(mid.resuming, OfWaiter(cfg), c) == []
  {
    StartedWereAdmitted(cfg, mid, 0);
    var started := StartedBy(cfg, mid, 0);
    hide Admits, Busy, Line;
    if forall k :: 0 <= k < |started| ==> OfRun(cfg)(started[k]) != c {
      LineNone(started, OfRun(cfg), c);
    } else {
      var n :| 0 <= n < |started| && OfRun(cfg)(started[n]) == c;
      forall k | 0 <= k < |mid.resuming| ensures OfWaiter(cfg)(mid.resuming[k]) != c {
        NoneBefore(cfg, Busy(mid), mid.resuming[k].session, started[n].session);
      }
      LineNone(mid.resuming, OfWaiter(cfg), c);
    }
  }

  /**
   One drain, on one connection: answered runs in the order they asked, then queued runs in queue
   order, each list cut into a released prefix and a kept rest; and no queued run of a connection
   starts while an answered run of that connection is left waiting.
   */
  lemma DrainIsFifo(cfg: Config, st: State, c: ConnectionId)
    requires Safe(cfg, st)
    ensures var mid := DrainResuming(cfg, st, 0);
            var out := Drain(cfg, st);
            var woken, started := WokenBy(cfg, st, 0), StartedBy(cfg, mid, 0);
            && Line(woken, OfWaiter(cfg), c) + Line(out.resuming, OfWaiter(cfg), c) ==
                 Line(st.resuming, OfWaiter(cfg), c)
            && Line(started, OfRun(cfg), c) + Line(out.queue, OfRun(cfg), c) == Line(st.queue, OfRun(cfg), c)
            && out.log == st.log + WakeEvents(woken) + StartEvents(started)
            && (Line(started, OfRun(cfg), c) != [] ==> Line(out.resuming, OfWaiter(cfg), c) == [])
  {
    hide Admits, Line, WakeEvents, StartEvents, WokenBy, StartedBy, DrainResuming, DrainQueue, Busy, OfRun, OfWaiter,
        SlotsSafe;
    var mid := DrainResuming(cfg, st, 0);
    DrainResumingKeeps(cfg, st, 0);
    DrainQueueKeeps(cfg, mid, 0);
    ResumersSplit(cfg, st, 0, c);
    QueueSplits(cfg, mid, 0, c);
    ResumeLog(cfg, st, 0);
    QueueLog(cfg, mid, 0);
    if Line(StartedBy(cfg, mid, 0), OfRun(cfg), c) != [] {
      ResumersFirst(cfg, mid, c);
    }
  }

  /** A submission starts at once only if nothing waits on its connection. */
  lemma NoOvertaking(cfg: Config, floor: nat, steps: seq<Step>, sub: Submission)
    ensures var st := After(cfg, floor, steps);
            Submit(cfg, st, sub).outcome.Dispatched? ==>
              && (forall q :: q in st.queue ==> cfg.connectionOf(q.session) != cfg.connectionOf(sub.session))
              && (forall w :: w in st.resuming ==> cfg.connectionOf(w.session) != cfg.connectionOf(sub.session))
  {
    var st := After(cfg, floor, steps);
    EveryHistorySafe(cfg, floor, steps);
    hide After, IdenticalFrom, SlotsSafe;
    if Submit(cfg, st, sub).outcome.Dispatched? {
      assert Busy(DropPending(st, sub.session).(ids := st.ids + 1)) == Busy(st);
      hide Admits, Submit;
      forall q | q in st.queue ensures cfg.connectionOf(q.session) != cfg.connectionOf(sub.session) {
        NoneBefore(cfg, Busy(st), q.session, sub.session);
      }
      forall w | w in st.resuming ensures cfg.connectionOf(w.session) != cfg.connectionOf(sub.session) {
        NoneBefore(cfg, Busy(st), w.session, sub.session);
      }
    }
  }
}
