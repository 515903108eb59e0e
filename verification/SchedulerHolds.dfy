/**
 Held chats, releases, stops and cancelled waits: what becomes of each chat's runs and messages, and
 that a held chat starts none of its waiting messages until its connection is released.
 */
module SchedulerHolds {
  import opened Common
  import opened SchedulerSpec
  import opened SchedulerLifecycle
  import opened SchedulerReports
  import opened SchedulerOutcomes

  // ---- A held chat ----

  /** The chat stays held and gains no run. */
  ghost predicate StaysHeld(st: State, out: State, s: SessionId) {
    (s in st.unreachable ==> s in out.unreachable && NoNewRun(st, out, s)) && st.log <= out.log
  }

  lemma HeldBoth(st: State, mid: State, out: State, s: SessionId)
    requires StaysHeld(st, mid, s) && StaysHeld(mid, out, s)
    ensures StaysHeld(st, out, s)
  {
    if s in st.unreachable {
      forall r: RunId | QueuedAs(mid.queue, s, r) ensures QueuedAs(st.queue, s, r) {
        var q :| q in mid.queue && q.session == s && q.runId == r;
        assert q in st.queue;
      }
    }
    hide QueuedAs;
  }

  lemma HeldQuiet(st: State, out: State, s: SessionId)
    requires out.log == st.log && (s in st.unreachable ==> s in out.unreachable)
    requires forall q :: q in out.queue && q.session == s ==> q in st.queue
    ensures StaysHeld(st, out, s)
  {
    hide QueuedAs;
  }

  lemma HeldDrain(cfg: Config, st: State, s: SessionId)
    ensures StaysHeld(st, Drain(cfg, st), s)
  {
    DrainIsDrained(cfg, st);
    hide Drain, QueuedAs, FromQueue;
  }

  /** A run of another chat, started or queued. */
  lemma HeldOther(cfg: Config, st: State, entry: QueuedRun, s: SessionId)
    requires entry.session != s
    ensures StaysHeld(st, StartOrEnqueue(cfg, st, entry), s)
  {
    hide QueuedAs, Admits;
  }

  lemma HeldReport(st: State, t: SessionId, r: RunId, s: SessionId)
    ensures StaysHeld(st, ReportStopped(st, t, r), s)
  {
    hide QueuedAs;
  }

  lemma HeldSubmit(cfg: Config, st: State, sub: Submission, s: SessionId)
    ensures StaysHeld(st, Submit(cfg, st, sub).state, s)
  {
    hide StaysHeld, Admits, IdenticalFrom;
    var idle := sub.session !in st.unreachable && !(sub.session in st.active || sub.running);
    if sub.open && idle && sub.stored && sub.session != s {
      var minted := DropPending(st, sub.session).(ids := st.ids + 1);
      HeldQuiet(st, minted, s);
      HeldOther(cfg, minted, QueuedRun(sub.session, minted.ids, sub.messageId, "", sub.source), s);
      HeldBoth(st, minted, Submit(cfg, st, sub).state, s);
    } else if sub.open && idle && sub.stored {
      NotHeld(st, Submit(cfg, st, sub).state, s);
    } else {
      HeldQuiet(st, Submit(cfg, st, sub).state, s);
    }
  }

  lemma NotHeld(st: State, out: State, s: SessionId)
    requires s !in st.unreachable && st.log <= out.log
    ensures StaysHeld(st, out, s)
  {
  }

  lemma HeldFinish(cfg: Config, floor: nat, st: State, t: SessionId, reason: string, s: SessionId)
    requires Ledger(floor, st, {}) && t in st.active
    ensures StaysHeld(st, Finish(cfg, st, t, st.active[t].runId, reason), s)
  {
    var settled := Settle(st, t, st.active[t].runId, reason);
    NotYetReported(floor, st, t);
    SettledIs(st, t, reason);
    FinishDrains(cfg, st, t, reason);
    HeldSettled(st, settled, t, s);
    hide *;
    HeldDrain(cfg, settled, s);
    HeldBoth(st, settled, Drain(cfg, settled), s);
  }

  lemma HeldSettled(st: State, settled: State, t: SessionId, s: SessionId)
    requires st.unreachable <= settled.unreachable
    requires exists r: RunId :: settled.log == st.log + [Stopped(t, r)]
    requires settled.queue == st.queue ||
             (t !in st.unreachable && |settled.queue| == |st.queue| + 1 && settled.queue[..|st.queue|] == st.queue
              && settled.queue[|st.queue|].session == t)
    ensures StaysHeld(st, settled, s)
  {
    if settled.queue != st.queue {
      assert settled.queue == st.queue + [settled.queue[|st.queue|]];
    }
    hide QueuedAs;
  }

  lemma HeldForce(cfg: Config, floor: nat, st: State, t: SessionId, s: SessionId)
    requires Ledger(floor, st, {}) && t in st.active
    ensures StaysHeld(st, ForceFinish(cfg, st, t, st.active[t].runId), s)
  {
    hide StaysHeld, Ledger, Drain;
    var r := st.active[t].runId;
    var gone := Retire(st, t);
    HeldQuiet(st, gone, s);
    HeldReport(gone, t, r, s);
    HeldBoth(st, gone, ReportStopped(gone, t, r), s);
    HeldDrain(cfg, ReportStopped(gone, t, r), s);
    HeldBoth(st, ReportStopped(gone, t, r), Drain(cfg, ReportStopped(gone, t, r)), s);
  }

  lemma HeldPause(cfg: Config, st: State, t: SessionId, r: RunId, s: SessionId)
    ensures StaysHeld(st, Pause(cfg, st, t, r), s)
  {
    hide StaysHeld, Drain;
    var parked := st.(paused := st.paused + {t});
    HeldQuiet(st, st, s);
    HeldQuiet(st, parked, s);
    HeldDrain(cfg, parked, s);
    HeldBoth(st, parked, Drain(cfg, parked), s);
  }

  lemma HeldResume(cfg: Config, st: State, t: SessionId, r: RunId, s: SessionId)
    ensures StaysHeld(st, Resume(cfg, st, t, r), s)
  {
    hide StaysHeld, Drain, Resume;
    var longer := st.(resuming := st.resuming + [ResumeWaiter(t, st.channels)], channels := st.channels + 1);
    ResumeIs(cfg, st, t, r);
    HeldQuiet(st, st, s);
    HeldQuiet(st, st.(paused := st.paused - {t}), s);
    HeldQuiet(st, longer, s);
    HeldDrain(cfg, longer, s);
    HeldBoth(st, longer, Drain(cfg, longer), s);
  }

  lemma HeldReleaseOne(cfg: Config, st: State, t: SessionId, s: SessionId)
    requires t != s
    ensures StaysHeld(st, ReleaseSession(cfg, st, t), s)
  {
    hide StaysHeld, Admits;
    var free := st.(unreachable := st.unreachable - {t});
    HeldQuiet(st, free, s);
    if |Pending(free, t)| > 0 && t !in free.active {
      var ready := free.(pending := free.pending - {t}, ids := free.ids + 1);
      HeldQuiet(st, ready, s);
      HeldOther(cfg, ready, NextRun(free, t), s);
      HeldBoth(st, ready, ReleaseSession(cfg, st, t), s);
    }
  }

  lemma {:induction false} HeldRelease(cfg: Config, st: State, c: ConnectionId, order: seq<SessionId>, s: SessionId)
    requires cfg.connectionOf(s) != c || s !in order
    ensures StaysHeld(st, ReleaseModel(cfg, st, c, order), s)
    decreases |order|
  {
    hide StaysHeld, ReleaseSession;
    HeldQuiet(st, st, s);
    if order != [] {
      var t := order[0];
      if t in st.unreachable && cfg.connectionOf(t) == c {
        HeldReleaseOne(cfg, st, t, s);
        HeldRelease(cfg, ReleaseSession(cfg, st, t), c, order[1..], s);
        HeldBoth(st, ReleaseSession(cfg, st, t), ReleaseModel(cfg, st, c, order), s);
      } else {
        HeldRelease(cfg, st, c, order[1..], s);
      }
    }
  }

  lemma {:induction false} HeldStopQueued(st: State, all: bool, target: SessionId, i: nat, s: SessionId)
    requires i <= |st.queue|
    ensures StaysHeld(st, StopQueued(st, all, target, i), s)
    decreases |st.queue| - i
  {
    hide StaysHeld;
    HeldQuiet(st, st, s);
    if i == |st.queue| {
    } else if !Targets(all, target, st.queue[i].session) {
      HeldStopQueued(st, all, target, i + 1, s);
    } else {
      var entry := st.queue[i];
      var dropped := DropPending(st.(queue := Without(st.queue, i)), entry.session);
      var next := ReportStopped(dropped, entry.session, entry.runId);
      WithoutFewer(st.queue, i);
      HeldQuiet(st, dropped, s);
      HeldReport(dropped, entry.session, entry.runId, s);
      HeldBoth(st, dropped, next, s);
      HeldStopQueued(next, all, target, i, s);
      HeldBoth(st, next, StopQueued(st, all, target, i), s);
    }
  }

  lemma HeldStop(st: State, all: bool, target: SessionId, reason: SessionId -> string, s: SessionId)
    ensures StaysHeld(st, Stop(st, all, target, reason), s)
  {
    hide StaysHeld, StopQueued, Marked, Returned;
    var first := StopActive(st, all, target, reason);
    HeldQuiet(st, first, s);
    HeldStopQueued(first, all, target, 0, s);
    var mid := StopQueued(first, all, target, 0);
    HeldBoth(st, first, mid, s);
    HeldQuiet(mid, Stop(st, all, target, reason), s);
    HeldBoth(st, mid, Stop(st, all, target, reason), s);
  }

  /** The step does not release this chat. */
  predicate Keeps(cfg: Config, step: Step, s: SessionId) {
    step.DoRelease? ==> cfg.connectionOf(s) != step.connection || s !in step.order
  }

  lemma HeldStep(cfg: Config, floor: nat, st: State, step: Step, s: SessionId)
    requires Ledger(floor, st, {}) && Keeps(cfg, step, s)
    ensures StaysHeld(st, Apply(cfg, st, step), s)
  {
    hide StaysHeld, Ledger, Submit, Pause, Resume, ReleaseModel, Stop, Finish, ForceFinish, CancelResume;
    HeldQuiet(st, st, s);
    match step
    case DoSubmit(sub) => HeldSubmit(cfg, st, sub, s);
    case DoFinish(t, r, reason) =>
      FinishOrNot(cfg, floor, st, t, r, reason);
      if t in st.active { HeldFinish(cfg, floor, st, t, reason, s); }
    case DoForceFinish(t, r) =>
      ForceOrNot(cfg, st, t, r);
      if t in st.active { HeldForce(cfg, floor, st, t, s); }
    case DoPause(t, r) => HeldPause(cfg, st, t, r, s);
    case DoResume(t, r) => HeldResume(cfg, st, t, r, s);
    case DoCancelResume(ready) => HeldCancel(st, ready, s);
    case DoRelease(c, order) => HeldRelease(cfg, st, c, order, s);
    case DoStop(all, target, reasons) => HeldStop(st, all, target, reasons, s);
    case DoHold(t) => HeldQuiet(st, Apply(cfg, st, step), s);
    case DoRestore(t, entries) => HeldQuiet(st, Apply(cfg, st, step), s);
    case DoBoundary(t, r) => HeldQuiet(st, Apply(cfg, st, step), s);
  }

  lemma FinishOrNot(cfg: Config, floor: nat, st: State, t: SessionId, r: RunId, reason: string)
    requires Ledger(floor, st, {})
    ensures (t in st.active && st.active[t].runId == r) || Finish(cfg, st, t, r, reason) == st
  {
    OwnerIsActive(floor, st, t, r);
    hide Ledger, Drain, Settle;
  }

  lemma ForceOrNot(cfg: Config, st: State, t: SessionId, r: RunId)
    ensures (t in st.active && st.active[t].runId == r) || ForceFinish(cfg, st, t, r) == st
  {
    hide Drain, Retire;
  }

  lemma HeldCancel(st: State, ready: nat, s: SessionId)
    ensures StaysHeld(st, CancelResume(st, ready), s)
  {
    HeldQuiet(st, CancelResume(st, ready), s);
  }

  ghost predicate NeverReleased(cfg: Config, steps: seq<Step>, s: SessionId) {
    forall k :: 0 <= k < |steps| ==> Keeps(cfg, steps[k], s)
  }

  /**
   A chat held because its model cannot be reached stays held, and none of its waiting messages becomes
   a run, whatever happens until a release of its connection names it: only runs of it that were
   already queued may still start.
   */
  lemma {:induction false} HeldStartsNothing(cfg: Config, floor: nat, steps: seq<Step>, more: seq<Step>, s: SessionId)
    requires s in After(cfg, floor, steps).unreachable && NeverReleased(cfg, more, s)
    ensures var st, out := After(cfg, floor, steps), After(cfg, floor, steps + more);
            s in out.unreachable && NoNewRun(st, out, s)
    decreases |more|
  {
    HeldHistory(cfg, floor, steps, more, s);
    hide After, NoNewRun;
  }

  lemma {:induction false} HeldHistory(cfg: Config, floor: nat, steps: seq<Step>, more: seq<Step>, s: SessionId)
    requires NeverReleased(cfg, more, s)
    ensures StaysHeld(After(cfg, floor, steps), After(cfg, floor, steps + more), s)
    decreases |more|
  {
    hide StaysHeld, After, Apply, Keeps;
    var st := After(cfg, floor, steps);
    if more == [] {
      assert steps + more == steps;
      HeldQuiet(st, st, s);
    } else {
      var before, last := more[..|more| - 1], more[|more| - 1];
      HeldHistory(cfg, floor, steps, before, s);
      assert steps + more == steps + before + [last];
      AfterOne(cfg, floor, steps + before, last);
      EveryHistoryLedger(cfg, floor, steps + before);
      HeldStep(cfg, floor, After(cfg, floor, steps + before), last, s);
      HeldBoth(st, After(cfg, floor, steps + before), After(cfg, floor, steps + more), s);
    }
  }

  // ---- Releasing ----

  /** A chat that the release frees. */
  predicate Freed(cfg: Config, st: State, c: ConnectionId, order: seq<SessionId>, t: SessionId) {
    t in st.unreachable && cfg.connectionOf(t) == c && t in order
  }

  /** The first of the waiting messages is a new run of the chat, queued or started. */
  ghost predicate RunsFirst(st: State, out: State, t: SessionId, waiting: seq<QueuedRun>) {
    exists r: RunId :: st.ids < r <= out.ids && RunIs(out, t, waiting, r)
  }

  ghost predicate RunIs(out: State, t: SessionId, waiting: seq<QueuedRun>, r: RunId) {
    && waiting != []
    && ((exists q :: q in out.queue && CarriesFirst(waiting, q, t, r)) ||
        (t in out.active && out.active[t] == ActiveRun(r, "", waiting[0].messageId, waiting[0].source) &&
         Started(t, r) in out.log))
  }

  /** What releasing chats does to chat t. */
  ghost predicate ReleasedAs(st: State, out: State, t: SessionId, freed: bool) {
    var waiting := Pending(st, t);
    && st.log <= out.log && st.queue <= out.queue && st.ids <= out.ids
    && (t in out.unreachable <==> t in st.unreachable && !freed)
    && (if freed && waiting != [] && t !in st.active then Pending(out, t) == [] && RunsFirst(st, out, t, waiting)
        else Pending(out, t) == waiting && (t in st.active ==> t in out.active && out.active[t] == st.active[t]))
    && (!freed ==> (t in out.active <==> t in st.active))
  }

  lemma ReleaseOneIs(cfg: Config, st: State, u: SessionId, t: SessionId)
    requires u in st.unreachable
    ensures ReleasedAs(st, ReleaseSession(cfg, st, u), t, t == u)
  {
    if Pending(st, u) != [] && u !in st.active {
      ReleaseCases(cfg, st, u);
      NextIsFirst(st, u);
      ReleaseRuns(st, ReleaseSession(cfg, st, u), u, t);
    } else {
      assert ReleaseSession(cfg, st, u) == st.(unreachable := st.unreachable - {u});
    }
    hide ReleaseSession;
  }

  lemma NextIsFirst(st: State, u: SessionId)
    requires Pending(st, u) != []
    ensures CarriesFirst(Pending(st, u), NextRun(st.(unreachable := st.unreachable - {u}), u), u, st.ids + 1)
  {
  }

  lemma ReleaseRuns(st: State, out: State, u: SessionId, t: SessionId)
    requires u in st.unreachable && Pending(st, u) != [] && u !in st.active
    requires out.pending == st.pending - {u} && out.ids == st.ids + 1 && out.unreachable == st.unreachable - {u}
    requires var next := NextRun(st.(unreachable := st.unreachable - {u}), u);
             && CarriesFirst(Pending(st, u), next, u, st.ids + 1)
             && ((out.active == st.active && out.queue == st.queue + [next] && out.log == st.log) ||
                 (out.queue == st.queue && out.log == st.log + [Started(u, st.ids + 1)] &&
                  out.active == st.active[u := ActiveRun(st.ids + 1, "", next.messageId, next.source)]))
    ensures ReleasedAs(st, out, t, t == u)
  {
    var next, r := NextRun(st.(unreachable := st.unreachable - {u}), u), st.ids + 1;
    hide NextRun;
    PendingWithout(st, out, u);
    if out.active == st.active && out.queue == st.queue + [next] {
      assert out.queue[|st.queue|] == next;
      assert next in out.queue;
    } else {
      assert out.log[|st.log|] == Started(u, r);
    }
    assert RunIs(out, u, Pending(st, u), r);
  }

  lemma ReleaseCases(cfg: Config, st: State, u: SessionId)
    requires Pending(st, u) != [] && u !in st.active
    ensures var out := ReleaseSession(cfg, st, u);
            var next := NextRun(st.(unreachable := st.unreachable - {u}), u);
            && out.pending == st.pending - {u} && out.ids == st.ids + 1 && out.unreachable == st.unreachable - {u}
            && ((out.active == st.active && out.queue == st.queue + [next] && out.log == st.log) ||
                (out.queue == st.queue && out.log == st.log + [Started(u, st.ids + 1)] &&
                 out.active == st.active[u := ActiveRun(st.ids + 1, "", next.messageId, next.source)]))
  {
    hide Admits, Busy;
  }

  lemma ReleasedNone(st: State, t: SessionId)
    ensures ReleasedAs(st, st, t, false)
  {
  }

  /** A later run of the release does not undo what an earlier one did. */
  lemma ReleasedBoth(st: State, mid: State, out: State, t: SessionId, first: bool, second: bool)
    requires ReleasedAs(st, mid, t, first) && ReleasedAs(mid, out, t, second)
    requires first ==> !second
    requires second ==> t in mid.unreachable
    ensures ReleasedAs(st, out, t, first || second)
  {
    var waiting := Pending(st, t);
    if first && waiting != [] && t !in st.active {
      var r: RunId :| st.ids < r <= mid.ids && RunIs(mid, t, waiting, r);
      assert RunIs(out, t, waiting, r);
    } else if second && waiting != [] && t !in st.active {
      var r: RunId :| mid.ids < r <= out.ids && RunIs(out, t, waiting, r);
      assert st.ids < r;
    }
  }

  lemma {:induction false} ReleaseChat(cfg: Config, st: State, c: ConnectionId, order: seq<SessionId>, t: SessionId)
    ensures ReleasedAs(st, ReleaseModel(cfg, st, c, order), t, Freed(cfg, st, c, order, t))
    decreases |order|
  {
    hide ReleasedAs, ReleaseSession;
    if order == [] {
      ReleasedNone(st, t);
    } else {
      var u, rest := order[0], order[1..];
      assert order == [u] + rest;
      if u in st.unreachable && cfg.connectionOf(u) == c {
        var mid := ReleaseSession(cfg, st, u);
        ReleaseOneIs(cfg, st, u, t);
        ReleaseOneHolds(cfg, st, u);
        ReleaseChat(cfg, mid, c, rest, t);
        ReleasedBoth(st, mid, ReleaseModel(cfg, st, c, order), t, t == u, Freed(cfg, mid, c, rest, t));
      } else {
        ReleaseChat(cfg, st, c, rest, t);
      }
    }
  }

  lemma ReleaseOneHolds(cfg: Config, st: State, u: SessionId)
    ensures ReleaseSession(cfg, st, u).unreachable == st.unreachable - {u}
  {
    hide Admits, Busy;
  }

  /**
   A release of a connection, chat by chat and in any order of the map: exactly the held chats of the
   connection that it reaches are freed; a freed chat with waiting messages and no active run has them
   all taken and the first becomes its new run, with that message's id and source; nobody else's
   messages or active run change.
   */
  lemma ReleaseOutcome(cfg: Config, st: State, c: ConnectionId, order: seq<SessionId>, t: SessionId)
    ensures var out, waiting := ReleaseModel(cfg, st, c, order), Pending(st, t);
            var freed := t in st.unreachable && cfg.connectionOf(t) == c && t in order;
            && (t in out.unreachable <==> t in st.unreachable && !freed)
            && (freed && waiting != [] && t !in st.active ==> Pending(out, t) == [] && RunsFirst(st, out, t, waiting))
            && (!(freed && waiting != [] && t !in st.active) ==> Pending(out, t) == waiting)
            && (t in st.active ==> t in out.active && out.active[t] == st.active[t])
  {
    ReleaseChat(cfg, st, c, order, t);
    hide ReleaseModel, RunsFirst;
  }

  // ---- Stopping ----

  /** The queue without the chats that are stopped. */
  function Others(queue: seq<QueuedRun>, all: bool, target: SessionId): seq<QueuedRun> {
    if queue == [] then []
    else (if all || queue[0].session == target then [] else [queue[0]]) + Others(queue[1..], all, target)
  }

  predicate Aimed(all: bool, target: SessionId, t: SessionId) { all || t == target }

  ghost predicate HasQueued(queue: seq<QueuedRun>, t: SessionId) {
    exists q :: q in queue && q.session == t
  }

  lemma TailQueued(queue: seq<QueuedRun>, i: nat, t: SessionId)
    requires i < |queue|
    ensures HasQueued(queue[i..], t) <==> queue[i].session == t || HasQueued(queue[i + 1..], t)
    ensures forall r: RunId :: QueuedAs(queue[i..], t, r) <==>
              (queue[i].session == t && queue[i].runId == r) || QueuedAs(queue[i + 1..], t, r)
  {
    assert queue[i..] == [queue[i]] + queue[i + 1..];
    assert queue[i] in queue[i..];
  }

  /** The next turn of the queue loop of a stop. */
  function StopOne(st: State, i: nat): State
    requires i < |st.queue|
  {
    var entry := st.queue[i];
    ReportStopped(DropPending(st.(queue := Without(st.queue, i)), entry.session), entry.session, entry.runId)
  }

  lemma StopStep(st: State, all: bool, target: SessionId, i: nat)
    requires i < |st.queue|
    ensures |StopOne(st, i).queue| == |st.queue| - 1
    ensures StopQueued(st, all, target, i) ==
            if Aimed(all, target, st.queue[i].session) then StopQueued(StopOne(st, i), all, target, i)
            else StopQueued(st, all, target, i + 1)
  {
  }

  lemma StopOneIs(st: State, i: nat)
    requires i < |st.queue|
    ensures var out, q := StopOne(st, i), st.queue[i];
            && out.queue == st.queue[..i] + st.queue[i + 1..]
            && |out.queue| == |st.queue| - 1 && out.queue[..i] == st.queue[..i] && out.queue[i..] == st.queue[i + 1..]
            && out.active == st.active && out.unreachable == st.unreachable && out.paused == st.paused
            && out.resuming == st.resuming && out.ids == st.ids
            && out.stoppedRuns == st.stoppedRuns + {(q.session, q.runId)}
            && (out.log == st.log || out.log == st.log + [Stopped(q.session, q.runId)])
            && forall t :: Pending(out, t) == if t == q.session then [] else Pending(st, t)
  {
  }

  /** What the queue loop of a stop has done from place i on, to chat t. */
  ghost predicate StoppedFrom(st: State, out: State, all: bool, target: SessionId, i: nat, t: SessionId)
    requires i <= |st.queue|
  {
    && out.queue == st.queue[..i] + Others(st.queue[i..], all, target)
    && out.active == st.active && out.unreachable == st.unreachable && out.paused == st.paused
    && out.resuming == st.resuming && out.ids == st.ids
    && Pending(out, t) == (if Aimed(all, target, t) && HasQueued(st.queue[i..], t) then [] else Pending(st, t))
    && (forall r: RunId :: (t, r) in out.stoppedRuns <==>
          (t, r) in st.stoppedRuns || (Aimed(all, target, t) && QueuedAs(st.queue[i..], t, r)))
    && (forall r: RunId :: Started(t, r) in out.log <==> Started(t, r) in st.log)
  }

  lemma StoppedNone(st: State, all: bool, target: SessionId, t: SessionId)
    ensures StoppedFrom(st, st, all, target, |st.queue|, t)
  {
    assert st.queue[|st.queue|..] == [] && st.queue[..|st.queue|] + [] == st.queue;
  }

  lemma StoppedPast(st: State, out: State, all: bool, target: SessionId, i: nat, t: SessionId)
    requires i < |st.queue| && !Aimed(all, target, st.queue[i].session)
    requires StoppedFrom(st, out, all, target, i + 1, t)
    ensures StoppedFrom(st, out, all, target, i, t)
  {
    TailQueued(st.queue, i, t);
    OthersStep(st.queue, i, all, target);
    assert st.queue[..i + 1] == st.queue[..i] + [st.queue[i]];
    hide HasQueued, QueuedAs, Others, Pending;
  }

  lemma StoppedThere(st: State, next: State, out: State, all: bool, target: SessionId, i: nat, t: SessionId)
    requires i < |st.queue| && Aimed(all, target, st.queue[i].session) && next == StopOne(st, i)
    requires i <= |next.queue| && StoppedFrom(next, out, all, target, i, t)
    ensures StoppedFrom(st, out, all, target, i, t)
  {
    hide HasQueued, QueuedAs, StopOne, Others, Pending;
    StopOneIs(st, i);
    TailQueued(st.queue, i, t);
    OthersStep(st.queue, i, all, target);
  }

  lemma OthersStep(queue: seq<QueuedRun>, i: nat, all: bool, target: SessionId)
    requires i < |queue|
    ensures Others(queue[i..], all, target) ==
            (if Aimed(all, target, queue[i].session) then [] else [queue[i]]) + Others(queue[i + 1..], all, target)
    ensures Aimed(all, target, queue[i].session) ==>
            Others(queue[i..], all, target) == Others(queue[i + 1..], all, target)
  {
    assert queue[i..][0] == queue[i] && queue[i..][1..] == queue[i + 1..];
  }

  lemma {:induction false} StopQueuedIs(st: State, all: bool, target: SessionId, i: nat, t: SessionId)
    requires i <= |st.queue|
    ensures StoppedFrom(st, StopQueued(st, all, target, i), all, target, i, t)
    decreases |st.queue| - i
  {
    hide *;
    if i == |st.queue| {
      StopQueuedEnd(st, all, target);
      StoppedNone(st, all, target, t);
    } else {
      StopStep(st, all, target, i);
      if Aimed(all, target, st.queue[i].session) {
        var next := StopOne(st, i);
        StopQueuedIs(next, all, target, i, t);
        StoppedThere(st, next, StopQueued(st, all, target, i), all, target, i, t);
      } else {
        StopQueuedIs(st, all, target, i + 1, t);
        StoppedPast(st, StopQueued(st, all, target, i), all, target, i, t);
      }
    }
  }

  lemma StopQueuedEnd(st: State, all: bool, target: SessionId)
    ensures StopQueued(st, all, target, |st.queue|) == st
  {
  }

  /** What marking the active runs does to chat t. */
  lemma StopActiveIs(st: State, all: bool, target: SessionId, reason: SessionId -> string, t: SessionId)
    ensures var out := StopActive(st, all, target, reason);
            && out == st.(active := out.active, pending := out.pending)
            && (t in out.active <==> t in st.active)
            && (t in st.active ==>
                  out.active[t] == if Aimed(all, target, t) then st.active[t].(stopReason := reason(t))
                      else st.active[t])
            && Pending(out, t) == if Aimed(all, target, t) && t in st.active then [] else Pending(st, t)
  {
  }

  lemma StopIs(st: State, all: bool, target: SessionId, reason: SessionId -> string, t: SessionId)
    ensures var mid := StopQueued(StopActive(st, all, target, reason), all, target, 0);
            var out := Stop(st, all, target, reason);
            && out == mid.(pending := out.pending)
            && Pending(out, t) == if !all && t == target && t !in mid.active then [] else Pending(mid, t)
  {
    hide StopQueued, StopActive;
  }

  /**
   A stop, of one chat or of all, in any reachable state and chat by chat. A chat it is not aimed at
   keeps its active run, its queue entries and its messages, and nothing of it is reported. A chat it is
   aimed at has its active run marked with its reason, all its queue entries reported and gone, and its
   messages returned, unless all chats are stopped and this one had only messages. Nothing is started.
   */
  lemma StopOutcome(cfg: Config, floor: nat, steps: seq<Step>, all: bool, target: SessionId,
                    reason: SessionId -> string, t: SessionId)
    ensures var st := After(cfg, floor, steps);
            var out, aimed := Stop(st, all, target, reason), all || t == target;
            && out.queue == Others(st.queue, all, target)
            && (t in out.active <==> t in st.active)
            && (t in st.active ==> out.active[t] == if aimed then st.active[t].(stopReason := reason(t))
                 else st.active[t])
            && Pending(out, t) == (if aimed
                 && (t in st.active || HasQueued(st.queue, t) || !all) then [] else Pending(st, t))
            && (forall r: RunId :: Stopped(t, r) in out.log <==>
                  Stopped(t, r) in st.log || (aimed && QueuedAs(st.queue, t, r)))
            && (forall r: RunId :: Started(t, r) in out.log <==> Started(t, r) in st.log)
            && out.unreachable == st.unreachable && out.paused == st.paused && out.resuming == st.resuming
  {
    hide *;
    var st := After(cfg, floor, steps);
    var first := StopActive(st, all, target, reason);
    EveryHistoryLedger(cfg, floor, steps);
    StopLedger(floor, st, all, target, reason);
    StopActiveIs(st, all, target, reason, t);
    StopQueuedIs(first, all, target, 0, t);
    StopIs(st, all, target, reason, t);
    ReportsAre(floor, st, t);
    ReportsAre(floor, Stop(st, all, target, reason), t);
    StopCombines(st, first, StopQueued(first, all, target, 0), Stop(st, all, target, reason), all, target, reason, t);
  }

  lemma ReportsAre(floor: nat, st: State, t: SessionId)
    requires Ledger(floor, st, {})
    ensures forall r: RunId :: (t, r) in st.stoppedRuns <==> Stopped(t, r) in st.log
  {
    hide Mentioned, QueueSound, Accounted;
  }

  lemma StopCombines(st: State, first: State, mid: State, out: State, all: bool, target: SessionId,
                     reason: SessionId -> string, t: SessionId)
    requires first == st.(active := first.active, pending := first.pending) && (t in first.active <==> t in st.active)
    requires t in st.active ==>
               first.active[t] == if Aimed(all, target, t) then st.active[t].(stopReason := reason(t)) else st.active[t]
    requires Pending(first, t) == if Aimed(all, target, t) && t in st.active then [] else Pending(st, t)
    requires StoppedFrom(first, mid, all, target, 0, t)
    requires out == mid.(pending := out.pending)
    requires Pending(out, t) == if !all && t == target && t !in mid.active then [] else Pending(mid, t)
    requires forall r: RunId :: (t, r) in st.stoppedRuns <==> Stopped(t, r) in st.log
    requires forall r: RunId :: (t, r) in out.stoppedRuns <==> Stopped(t, r) in out.log
    ensures var aimed := all || t == target;
            && out.queue == Others(st.queue, all, target)
            && (t in out.active <==> t in st.active)
            && (t in st.active ==> out.active[t] == if aimed then st.active[t].(stopReason := reason(t))
                 else st.active[t])
            && Pending(out, t) == (if aimed
                 && (t in st.active || HasQueued(st.queue, t) || !all) then [] else Pending(st, t))
            && (forall r: RunId :: Stopped(t, r) in out.log <==>
                  Stopped(t, r) in st.log || (aimed && QueuedAs(st.queue, t, r)))
            && (forall r: RunId :: Started(t, r) in out.log <==> Started(t, r) in st.log)
            && out.unreachable == st.unreachable && out.paused == st.paused && out.resuming == st.resuming
  {
    assert st.queue[0..] == st.queue && st.queue[..0] + Others(st.queue, all, target) == Others(st.queue, all, target);
    hide Pending, HasQueued, QueuedAs, Others;
  }

  // ---- A cancelled wait ----

  lemma {:induction false} ChannelIs(waiters: seq<ResumeWaiter>, ready: nat, i: nat)
    requires i <= |waiters| && forall k :: 0 <= k < i ==> waiters[k].ready != ready
    ensures var k := ChannelAt(waiters, ready, i);
            && (k < |waiters| ==> waiters[k].ready == ready)
            && (k == |waiters| ==> forall w :: w in waiters ==> w.ready != ready)
    decreases |waiters| - i
  {
    if i < |waiters| && waiters[i].ready != ready { ChannelIs(waiters, ready, i + 1); }
  }

  /** A cancelled wait, in any reachable state, leaves the resume list and nothing else changes. */
  lemma CancelOutcome(cfg: Config, floor: nat, steps: seq<Step>, ready: nat)
    ensures var st := After(cfg, floor, steps);
            var out := CancelResume(st, ready);
            && out == st.(resuming := out.resuming)
            && forall w :: w in out.resuming <==> w in st.resuming && w.ready != ready
  {
    var st := After(cfg, floor, steps);
    EveryHistoryLedger(cfg, floor, steps);
    Channels(floor, st);
    hide After, Ledger;
    ChannelIs(st.resuming, ready, 0);
    var k := ChannelAt(st.resuming, ready, 0);
    if k < |st.resuming| { WithoutOne(st.resuming, k); }
  }

  lemma WithoutOne(waiters: seq<ResumeWaiter>, k: nat)
    requires k < |waiters| && forall i, j :: 0 <= i < j < |waiters| ==> waiters[i].ready != waiters[j].ready
    ensures forall w :: w in Without(waiters, k) <==> w in waiters && w.ready != waiters[k].ready
  {
    var rest := Without(waiters, k);
    assert forall i :: 0 <= i < |rest| ==> rest[i] == waiters[if i < k then i else i + 1];
    forall w | w in waiters && w.ready != waiters[k].ready ensures w in rest {
      var i :| 0 <= i < |waiters| && waiters[i] == w;
      assert rest[if i < k then i else i - 1] == w;
    }
  }

  // ---- Forgetting a finished chat's card, and the other sections ----

  /** The list without the first waiter of a chat. */
  function DropFirst(waiters: seq<ResumeWaiter>, s: SessionId): seq<ResumeWaiter> {
    if waiters == [] then []
    else if waiters[0].session == s then waiters[1..]
    else [waiters[0]] + DropFirst(waiters[1..], s)
  }

  lemma DropFirstAt(waiters: seq<ResumeWaiter>, s: SessionId, i: nat)
    requires i < |waiters|
    ensures DropFirst(waiters[i..], s) ==
            if waiters[i].session == s then waiters[i + 1..] else [waiters[i]] + DropFirst(waiters[i + 1..], s)
  {
    var rest := waiters[i..];
    assert rest[0] == waiters[i] && rest[1..] == waiters[i + 1..];
  }

  lemma {:induction false} FirstWaiter(waiters: seq<ResumeWaiter>, s: SessionId, i: nat)
    requires i <= |waiters|
    ensures var k := WaiterOf(waiters, s, i);
            waiters[..i] + DropFirst(waiters[i..], s) == if k < |waiters| then Without(waiters, k) else waiters
    decreases |waiters| - i
  {
    if i == |waiters| {
      assert waiters[i..] == [] && waiters[..i] + [] == waiters;
    } else {
      DropFirstAt(waiters, s, i);
      hide DropFirst;
      if waiters[i].session != s {
        FirstWaiter(waiters, s, i + 1);
        Regroup(waiters, i, DropFirst(waiters[i + 1..], s));
        hide Without;
      }
    }
  }

  lemma Regroup(waiters: seq<ResumeWaiter>, i: nat, rest: seq<ResumeWaiter>)
    requires i < |waiters|
    ensures waiters[..i + 1] + rest == waiters[..i] + ([waiters[i]] + rest)
  {
    assert waiters[..i + 1] == waiters[..i] + [waiters[i]];
  }

  /** A finished chat is not parked, its first wait is off the resume list, and nobody else's is. */
  lemma ForgetOutcome(st: State, s: SessionId)
    ensures var out := ForgetPaused(st, s);
            out == st.(paused := st.paused - {s}, resuming := DropFirst(st.resuming, s))
  {
    FirstWaiter(st.resuming, s, 0);
    assert st.resuming[0..] == st.resuming && st.resuming[..0] + DropFirst(st.resuming, s) == DropFirst(st.resuming, s);
    hide WaiterOf, DropFirst, Without;
  }

  /** At a boundary the chat's own run, unless stopping or held, takes all its waiting messages; nothing
      else changes. */
  lemma BoundaryOutcome(cfg: Config, st: State, s: SessionId, r: RunId)
    ensures var out := Apply(cfg, st, DoBoundary(s, r));
            var takes := s in st.active && st.active[s].runId == r && st.active[s].stopReason == ""
                && s !in st.unreachable;
            && out == st.(pending := out.pending)
            && Pending(out, s) == (if takes then [] else Pending(st, s))
            && forall t :: t != s ==> Pending(out, t) == Pending(st, t)
  {
  }

  /** A hold placed from outside a run holds the chat from then on, through any steps but its release. */
  lemma HoldOutcome(cfg: Config, floor: nat, steps: seq<Step>, more: seq<Step>, s: SessionId)
    requires NeverReleased(cfg, more, s)
    ensures var st, out := After(cfg, floor, steps), After(cfg, floor, steps + [DoHold(s)] + more);
            s in out.unreachable && NoNewRun(st, out, s)
  {
    AfterOne(cfg, floor, steps, DoHold(s));
    hide After, NeverReleased;
    var held := After(cfg, floor, steps + [DoHold(s)]);
    assert s in held.unreachable;
    HeldStartsNothing(cfg, floor, steps + [DoHold(s)], more, s);
  }

  /**
   The messages restored to a held and idle chat are what its release runs: the first becomes the new
   run, with its id and source, and none of them waits any longer.
   */
  lemma RestoreOutcome(cfg: Config, st: State, s: SessionId, entries: seq<QueuedRun>, c: ConnectionId,
                       order: seq<SessionId>)
    requires entries != [] && s in st.unreachable && s !in st.active && cfg.connectionOf(s) == c && s in order
    ensures var restored := Apply(cfg, st, DoRestore(s, entries));
            var out := Apply(cfg, restored, DoRelease(c, order));
            && Pending(out, s) == [] && RunsFirst(st, out, s, entries)
            && forall t :: t != s ==> Pending(restored, t) == Pending(st, t)
  {
    hide *;
    var restored := Apply(cfg, st, DoRestore(s, entries));
    RestoreIs(cfg, st, s, entries);
    ReleaseIs(cfg, restored, c, order);
    ReleaseOutcome(cfg, restored, c, order, s);
    var out := ReleaseModel(cfg, restored, c, order);
    assert RunsFirst(st, out, s, entries) by { RunsFirstFrom(restored, st, out, s, entries); }
  }

  lemma RestoreIs(cfg: Config, st: State, s: SessionId, entries: seq<QueuedRun>)
    requires entries != []
    ensures var out := Apply(cfg, st, DoRestore(s, entries));
            && out == st.(pending := out.pending) && Pending(out, s) == entries
            && forall t :: t != s ==> Pending(out, t) == Pending(st, t)
  {
  }

  lemma ReleaseIs(cfg: Config, st: State, c: ConnectionId, order: seq<SessionId>)
    ensures Apply(cfg, st, DoRelease(c, order)) == ReleaseModel(cfg, st, c, order)
  {
  }

  lemma RunsFirstFrom(st: State, same: State, out: State, s: SessionId, waiting: seq<QueuedRun>)
    requires RunsFirst(st, out, s, waiting) && same.ids == st.ids
    ensures RunsFirst(same, out, s, waiting)
  {
    hide RunIs;
  }
}
