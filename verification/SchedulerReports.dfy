/**
 When a started run can still be reported stopped. A run is carried by its session's entry in the map
 of active runs until it is reported or another run of the session starts; and another run of the
 session starts only out of the queue.
 */
module SchedulerReports {
  import opened Common
  import opened SchedulerSpec
  import opened SchedulerLifecycle

  ghost predicate Unreported(log: seq<Event>, r: RunId) {
    forall t :: Stopped(t, r) !in log
  }

  /** A session's latest run, while unreported, is its active run; the runs in `gone` excepted. */
  ghost predicate Carried(active: map<SessionId, ActiveRun>, log: seq<Event>, gone: set<RunId>) {
    forall s: SessionId, r: RunId :: LatestStart(log, s, r) && Unreported(log, r) && r !in gone ==>
      s in active && active[s].runId == r
  }

  /** Run r is the session's active run and the queue holds no other run of the session. */
  ghost predicate HoldsAlone(st: State, s: SessionId, r: RunId) {
    && s in st.active && st.active[s].runId == r
    && forall q :: q in st.queue ==> q.session != s
  }

  /** What every step keeps of both. */
  ghost predicate Kept(st: State, out: State) {
    && st.log <= out.log
    && (Carried(st.active, st.log, {}) ==> Carried(out.active, out.log, {}))
    && forall s: SessionId, r: RunId :: HoldsAlone(st, s, r) ==> HoldsAlone(out, s, r) || Stopped(s, r) in out.log
  }

  lemma KeptBoth(st: State, mid: State, out: State)
    requires Kept(st, mid) && Kept(mid, out)
    ensures Kept(st, out)
  {
    hide Carried, HoldsAlone;
  }

  /** A step that moves neither a run nor a queue entry in, and logs no start or stop. */
  lemma KeptQuiet(st: State, out: State)
    requires out.log == st.log && out.active == st.active
    requires forall q :: q in out.queue ==> q in st.queue
    ensures Kept(st, out)
  {
    hide Carried;
  }

  // ---- One event ----

  lemma LatestBefore(log: seq<Event>, e: Event, s: SessionId, r: RunId)
    requires LatestStart(log + [e], s, r) && !StartsIn(e, s)
    ensures LatestStart(log, s, r)
  {
    var longer := log + [e];
    var i :| 0 <= i < |longer| && longer[i] == Started(s, r) && forall k :: i < k < |longer| ==>
        !StartsIn(longer[k], s);
    assert longer[|log|] == e;
    assert i < |log|;
    assert log[i] == longer[i];
    assert forall k :: i < k < |log| ==> log[k] == longer[k];
  }

  lemma LatestIsLast(log: seq<Event>, s: SessionId, r: RunId, r': RunId)
    requires LatestStart(log + [Started(s, r)], s, r')
    ensures r' == r
  {
    var longer := log + [Started(s, r)];
    var i :| 0 <= i < |longer| && longer[i] == Started(s, r') && forall k :: i < k < |longer| ==>
        !StartsIn(longer[k], s);
    assert longer[|log|] == Started(s, r);
    assert i < |log| ==> StartsIn(longer[|log|], s);
  }

  lemma UnreportedBefore(log: seq<Event>, e: Event, r: RunId)
    requires Unreported(log + [e], r)
    ensures Unreported(log, r)
  {
    forall t ensures Stopped(t, r) !in log {
      assert Stopped(t, r) in log ==> Stopped(t, r) in log + [e];
    }
  }

  lemma CarriedAppend(active: map<SessionId, ActiveRun>, log: seq<Event>, e: Event, gone: set<RunId>)
    requires Carried(active, log, gone) && !e.Started?
    ensures Carried(active, log + [e], gone)
  {
    forall s: SessionId, r: RunId | LatestStart(log + [e], s, r) && Unreported(log + [e], r) && r !in gone
      ensures s in active && active[s].runId == r
    {
      LatestBefore(log, e, s, r);
      UnreportedBefore(log, e, r);
    }
  }

  lemma CarriedStart(active: map<SessionId, ActiveRun>, log: seq<Event>, s: SessionId, run: ActiveRun)
    requires Carried(active, log, {})
    ensures Carried(active[s := run], log + [Started(s, run.runId)], {})
  {
    var e := Started(s, run.runId);
    forall t: SessionId, r: RunId | LatestStart(log + [e], t, r) && Unreported(log + [e], r)
      ensures t in active[s := run] && active[s := run][t].runId == r
    {
      if t == s {
        LatestIsLast(log, s, run.runId, r);
      } else {
        LatestBefore(log, e, t, r);
        UnreportedBefore(log, e, r);
      }
    }
  }

  lemma CarriedStop(active: map<SessionId, ActiveRun>, log: seq<Event>, s: SessionId, r: RunId)
    requires Carried(active, log, {r})
    ensures Carried(active, log + [Stopped(s, r)], {})
  {
    var e := Stopped(s, r);
    forall t: SessionId, r': RunId | LatestStart(log + [e], t, r') && Unreported(log + [e], r')
      ensures t in active && active[t].runId == r'
    {
      assert e in log + [e];
      assert r' != r;
      LatestBefore(log, e, t, r');
      UnreportedBefore(log, e, r');
    }
  }

  lemma CarriedRetire(active: map<SessionId, ActiveRun>, log: seq<Event>, s: SessionId)
    requires Carried(active, log, {}) && s in active
    ensures Carried(active - {s}, log, {active[s].runId})
  {
  }

  // ---- The primitive moves ----

  lemma StartKept(st: State, entry: QueuedRun)
    requires entry.session !in st.active || exists q :: q in st.queue && q.session == entry.session
    ensures Kept(st, StartRun(st, entry))
  {
    var run := ActiveRun(entry.runId, "", entry.messageId, entry.source);
    if Carried(st.active, st.log, {}) {
      CarriedStart(st.active, st.log, entry.session, run);
    }
    hide Carried;
  }

  lemma TakeKept(st: State, i: nat)
    requires i < |st.queue|
    ensures Kept(st, StartAt(st, i))
  {
    var taken := st.(queue := Without(st.queue, i));
    var entry := st.queue[i];
    var run := ActiveRun(entry.runId, "", entry.messageId, entry.source);
    if Carried(st.active, st.log, {}) {
      CarriedStart(st.active, st.log, entry.session, run);
    }
    WithoutFewer(st.queue, i);
    hide Carried, Without;
    assert entry in st.queue;
  }

  lemma WithoutFewer<T>(items: seq<T>, i: nat)
    requires i < |items|
    ensures forall x :: x in Without(items, i) ==> x in items
  {
  }

  lemma EnqueueKept(st: State, entry: QueuedRun)
    requires entry.session !in st.active
    ensures Kept(st, Enqueue(st, entry))
  {
    hide Carried;
  }

  lemma WakeKept(st: State, i: nat)
    requires i < |st.resuming|
    ensures Kept(st, WakeAt(st, i))
  {
    if Carried(st.active, st.log, {}) {
      CarriedAppend(st.active, st.log, Woken(st.resuming[i].ready), {});
    }
    hide Carried;
  }

  /** Reporting a run that nobody carries. */
  lemma ReportKept(st: State, s: SessionId, r: RunId)
    ensures Kept(st, ReportStopped(st, s, r))
  {
    if Carried(st.active, st.log, {}) {
      CarriedAppend(st.active, st.log, Stopped(s, r), {});
    }
    hide Carried;
  }

  // ---- The locked sections ----

  /** The next turn of each drain loop. */
  lemma DrainResumingStep(cfg: Config, st: State, i: nat)
    requires i < |st.resuming|
    ensures DrainResuming(cfg, st, i) ==
            if Admits(cfg, Busy(st), st.resuming[i].session) then DrainResuming(cfg, WakeAt(st, i), i)
            else DrainResuming(cfg, st, i + 1)
    ensures |WakeAt(st, i).resuming| == |st.resuming| - 1
  {
    hide Admits, Busy;
  }

  lemma DrainQueueStep(cfg: Config, st: State, i: nat)
    requires i < |st.queue|
    ensures DrainQueue(cfg, st, i) ==
            if |Busy(st)| >= cfg.maxConcurrent then st
            else if Admits(cfg, Busy(st), st.queue[i].session) then DrainQueue(cfg, StartAt(st, i), i)
            else DrainQueue(cfg, st, i + 1)
    ensures |StartAt(st, i).queue| == |st.queue| - 1
  {
    hide Admits, Busy;
  }

  lemma DrainEnds(cfg: Config, st: State)
    ensures DrainResuming(cfg, st, |st.resuming|) == st && DrainQueue(cfg, st, |st.queue|) == st
  {
    hide Admits, Busy;
  }

  lemma {:induction false} DrainResumingKept(cfg: Config, st: State, i: nat)
    requires i <= |st.resuming|
    ensures Kept(st, DrainResuming(cfg, st, i))
    decreases |st.resuming| - i
  {
    hide *;
    KeptQuiet(st, st);
    if i == |st.resuming| {
      DrainEnds(cfg, st);
    } else {
      DrainResumingStep(cfg, st, i);
      if Admits(cfg, Busy(st), st.resuming[i].session) {
        WakeKept(st, i);
        DrainResumingKept(cfg, WakeAt(st, i), i);
        KeptBoth(st, WakeAt(st, i), DrainResuming(cfg, st, i));
      } else {
        DrainResumingKept(cfg, st, i + 1);
      }
    }
  }

  lemma {:induction false} DrainQueueKept(cfg: Config, st: State, i: nat)
    requires i <= |st.queue|
    ensures Kept(st, DrainQueue(cfg, st, i))
    decreases |st.queue| - i
  {
    hide *;
    KeptQuiet(st, st);
    if i == |st.queue| {
      DrainEnds(cfg, st);
    } else {
      DrainQueueStep(cfg, st, i);
      if |Busy(st)| < cfg.maxConcurrent {
        if Admits(cfg, Busy(st), st.queue[i].session) {
          TakeKept(st, i);
          DrainQueueKept(cfg, StartAt(st, i), i);
          KeptBoth(st, StartAt(st, i), DrainQueue(cfg, st, i));
        } else {
          DrainQueueKept(cfg, st, i + 1);
        }
      }
    }
  }

  lemma DrainKept(cfg: Config, st: State)
    ensures Kept(st, Drain(cfg, st))
  {
    hide Kept;
    DrainResumingKept(cfg, st, 0);
    DrainQueueKept(cfg, DrainResuming(cfg, st, 0), 0);
    KeptBoth(st, DrainResuming(cfg, st, 0), Drain(cfg, st));
  }

  lemma StartOrEnqueueKept(cfg: Config, st: State, entry: QueuedRun)
    requires entry.session !in st.active
    ensures Kept(st, StartOrEnqueue(cfg, st, entry))
  {
    StartKept(st, entry);
    EnqueueKept(st, entry);
    hide Kept, Admits;
  }

  lemma SubmitKept(cfg: Config, st: State, sub: Submission)
    ensures Kept(st, Submit(cfg, st, sub).state)
  {
    hide Kept, Admits, IdenticalFrom;
    if sub.open && sub.session !in st.unreachable && !(sub.session in st.active || sub.running) && sub.stored {
      var minted := DropPending(st, sub.session).(ids := st.ids + 1);
      KeptQuiet(st, minted);
      StartOrEnqueueKept(cfg, minted, QueuedRun(sub.session, minted.ids, sub.messageId, "", sub.source));
      KeptBoth(st, minted, Submit(cfg, st, sub).state);
    } else {
      KeptQuiet(st, Submit(cfg, st, sub).state);
    }
  }

  /** A session's run is retired and reported, and the queue gains at most runs of that session. */
  lemma RetiredKept(st: State, out: State, s: SessionId)
    requires s in st.active && out.active == st.active - {s}
    requires out.log == st.log + [Stopped(s, st.active[s].runId)]
    requires forall q :: q in out.queue ==> q in st.queue || q.session == s
    ensures Kept(st, out)
  {
    var r := st.active[s].runId;
    if Carried(st.active, st.log, {}) {
      CarriedRetire(st.active, st.log, s);
      CarriedStop(out.active, st.log, s, r);
    }
    hide Carried;
    forall t: SessionId, r': RunId | HoldsAlone(st, t, r') ensures HoldsAlone(out, t, r') || Stopped(t, r') in out.log {
      assert t == s ==> Stopped(t, r') in out.log;
    }
  }

  lemma NotYetReported(floor: nat, st: State, s: SessionId)
    requires Ledger(floor, st, {}) && s in st.active
    ensures (s, st.active[s].runId) !in st.stoppedRuns && Unreported(st.log, st.active[s].runId)
    ensures LatestStart(st.log, s, st.active[s].runId) && Started(s, st.active[s].runId) in st.log
  {
    var r := st.active[s].runId;
    ActiveInLog(st.active, st.log, s);
    assert LatestStart(st.log, s, r) && forall t :: Stopped(t, r) !in st.log;
    assert (s, r) in st.stoppedRuns <==> Stopped(s, r) in st.log;
    hide LatestStart, WellOrdered, StopsBeforeNextStart, LogBounded, QueueSound, WaitersSound, Accounted, Mentioned;
  }

  lemma SettleEffect(st: State, s: SessionId, reason: string)
    requires s in st.active && (s, st.active[s].runId) !in st.stoppedRuns
    ensures var r := st.active[s].runId;
            var out := Settle(st, s, r, reason);
            && out.active == st.active - {s} && out.log == st.log + [Stopped(s, r)]
            && (forall q :: q in out.queue ==> q in st.queue || q.session == s)
            && (forall q :: q in st.queue ==> q in out.queue)
  {
    hide FinishReason, WaiterOf, Without;
  }

  lemma SettleKept(floor: nat, st: State, s: SessionId, r: RunId, reason: string)
    requires Ledger(floor, st, {}) && s in st.active && st.active[s].runId == r
    ensures Kept(st, Settle(st, s, r, reason))
  {
    NotYetReported(floor, st, s);
    SettleEffect(st, s, reason);
    hide Ledger, Kept, Settle;
    RetiredKept(st, Settle(st, s, r, reason), s);
  }

  lemma ForceKept(floor: nat, st: State, s: SessionId, r: RunId)
    requires Ledger(floor, st, {}) && s in st.active && st.active[s].runId == r
    ensures Kept(st, ReportStopped(Retire(st, s), s, r))
  {
    NotYetReported(floor, st, s);
    hide Ledger, Kept;
    RetiredKept(st, ReportStopped(Retire(st, s), s, r), s);
  }

  lemma {:induction false} ReleaseKept(cfg: Config, st: State, c: ConnectionId, order: seq<SessionId>)
    ensures Kept(st, ReleaseModel(cfg, st, c, order))
    decreases |order|
  {
    KeptQuiet(st, st);
    hide Kept, Admits;
    if order != [] {
      var s := order[0];
      if s in st.unreachable && cfg.connectionOf(s) == c {
        ReleaseOneKept(cfg, st, s);
        ReleaseKept(cfg, ReleaseSession(cfg, st, s), c, order[1..]);
        KeptBoth(st, ReleaseSession(cfg, st, s), ReleaseModel(cfg, st, c, order));
      } else {
        ReleaseKept(cfg, st, c, order[1..]);
      }
    }
  }

  lemma ReleaseOneKept(cfg: Config, st: State, s: SessionId)
    ensures Kept(st, ReleaseSession(cfg, st, s))
  {
    hide Kept, Admits;
    var free := st.(unreachable := st.unreachable - {s});
    KeptQuiet(st, free);
    if |Pending(free, s)| > 0 && s !in free.active {
      var ready := free.(pending := free.pending - {s}, ids := free.ids + 1);
      KeptQuiet(st, ready);
      StartOrEnqueueKept(cfg, ready, NextRun(free, s));
      KeptBoth(st, ready, ReleaseSession(cfg, st, s));
    }
  }

  lemma {:induction false} StopQueuedKept(st: State, all: bool, target: SessionId, i: nat)
    requires i <= |st.queue|
    ensures Kept(st, StopQueued(st, all, target, i))
    decreases |st.queue| - i
  {
    KeptQuiet(st, st);
    hide Kept;
    if i == |st.queue| {
    } else if !Targets(all, target, st.queue[i].session) {
      StopQueuedKept(st, all, target, i + 1);
    } else {
      var entry := st.queue[i];
      var dropped := DropPending(st.(queue := Without(st.queue, i)), entry.session);
      var next := ReportStopped(dropped, entry.session, entry.runId);
      WithoutFewer(st.queue, i);
      KeptQuiet(st, dropped);
      ReportKept(dropped, entry.session, entry.runId);
      KeptBoth(st, dropped, next);
      StopQueuedKept(next, all, target, i);
      KeptBoth(st, next, StopQueued(st, all, target, i));
    }
  }

  lemma StopActiveKept(st: State, all: bool, target: SessionId, reason: SessionId -> string)
    ensures Kept(st, StopActive(st, all, target, reason))
  {
    var out := StopActive(st, all, target, reason);
    assert out.active.Keys == st.active.Keys && forall s :: s in st.active ==>
           out.active[s].runId == st.active[s].runId;
    hide Marked, Returned, LatestStart, Unreported;
  }

  lemma StopKept(st: State, all: bool, target: SessionId, reason: SessionId -> string)
    ensures Kept(st, Stop(st, all, target, reason))
  {
    var first := StopActive(st, all, target, reason);
    StopActiveKept(st, all, target, reason);
    hide Kept, StopActive, StopQueued;
    StopQueuedKept(first, all, target, 0);
    KeptBoth(st, first, StopQueued(first, all, target, 0));
    KeptQuiet(StopQueued(first, all, target, 0), Stop(st, all, target, reason));
    KeptBoth(st, StopQueued(first, all, target, 0), Stop(st, all, target, reason));
  }

  lemma ResumeIs(cfg: Config, st: State, s: SessionId, r: RunId)
    ensures var out, waiter := Resume(cfg, st, s, r), ResumeWaiter(s, st.channels);
            || out == st || out == st.(paused := st.paused - {s})
            || out == Drain(cfg, st.(resuming := st.resuming + [waiter], channels := st.channels + 1))
  {
    hide Drain, Admits, Busy;
  }

  lemma ResumeKept(cfg: Config, st: State, s: SessionId, r: RunId)
    ensures Kept(st, Resume(cfg, st, s, r))
  {
    hide *;
    var longer := st.(resuming := st.resuming + [ResumeWaiter(s, st.channels)], channels := st.channels + 1);
    ResumeIs(cfg, st, s, r);
    KeptQuiet(st, st);
    KeptQuiet(st, st.(paused := st.paused - {s}));
    KeptQuiet(st, longer);
    DrainKept(cfg, longer);
    KeptBoth(st, longer, Drain(cfg, longer));
  }

  lemma StepKept(cfg: Config, floor: nat, st: State, step: Step)
    requires Ledger(floor, st, {})
    ensures Kept(st, Apply(cfg, st, step))
  {
    KeptQuiet(st, st);
    hide Ledger, Kept, Admits, Drain, Submit, Resume, ReleaseModel, Stop, Settle, Retire;
    match step
    case DoSubmit(sub) => SubmitKept(cfg, st, sub);
    case DoFinish(s, r, reason) =>
      OwnerIsActive(floor, st, s, r);
      if OwnsSession(st, s, r) {
        var settled := Settle(st, s, r, reason);
        SettleKept(floor, st, s, r, reason);
        DrainKept(cfg, settled);
        KeptBoth(st, settled, Drain(cfg, settled));
      }
    case DoForceFinish(s, r) =>
      if s in st.active && st.active[s].runId == r {
        var gone := ReportStopped(Retire(st, s), s, r);
        ForceKept(floor, st, s, r);
        DrainKept(cfg, gone);
        KeptBoth(st, gone, Drain(cfg, gone));
      }
    case DoPause(s, r) =>
      if s in st.active && st.active[s].runId == r && s !in st.paused {
        var parked := st.(paused := st.paused + {s});
        KeptQuiet(st, parked);
        DrainKept(cfg, parked);
        KeptBoth(st, parked, Drain(cfg, parked));
      }
    case DoResume(s, r) => ResumeKept(cfg, st, s, r);
    case DoCancelResume(ready) => KeptQuiet(st, CancelResume(st, ready));
    case DoRelease(c, order) => ReleaseKept(cfg, st, c, order);
    case DoStop(all, target, reasons) => StopKept(st, all, target, reasons);
    case DoHold(s) => KeptQuiet(st, Apply(cfg, st, step));
    case DoRestore(s, entries) => KeptQuiet(st, Apply(cfg, st, step));
    case DoBoundary(s, r) => KeptQuiet(st, Apply(cfg, st, step));
  }

  // ---- Whole histories ----

  lemma {:induction false} EveryHistoryCarried(cfg: Config, floor: nat, steps: seq<Step>)
    ensures Carried(After(cfg, floor, steps).active, After(cfg, floor, steps).log, {})
    decreases |steps|
  {
    if steps == [] {
    } else {
      var before := steps[..|steps| - 1];
      EveryHistoryCarried(cfg, floor, before);
      EveryHistoryLedger(cfg, floor, before);
      StepKept(cfg, floor, After(cfg, floor, before), steps[|steps| - 1]);
      hide Carried, Ledger, HoldsAlone, Apply;
    }
  }

  lemma AfterOne(cfg: Config, floor: nat, steps: seq<Step>, step: Step)
    ensures After(cfg, floor, steps + [step]) == Apply(cfg, After(cfg, floor, steps), step)
  {
    assert (steps + [step])[..|steps|] == steps;
  }

  /** The session's active run can be finished, and then it has been reported. */
  lemma ActiveReportable(cfg: Config, floor: nat, steps: seq<Step>, s: SessionId)
    requires s in After(cfg, floor, steps).active
    ensures var r := After(cfg, floor, steps).active[s].runId;
            Stopped(s, r) in After(cfg, floor, steps + [DoFinish(s, r, "done")]).log
  {
    var st := After(cfg, floor, steps);
    var r := st.active[s].runId;
    EveryHistoryLedger(cfg, floor, steps);
    AfterOne(cfg, floor, steps, DoFinish(s, r, "done"));
    OwnerIsActive(floor, st, s, r);
    NotYetReported(floor, st, s);
    SettleEffect(st, s, "done");
    SettleLedger(floor, st, s, r, "done");
    hide After, Ledger, Settle, Drain;
    var settled := Settle(st, s, r, "done");
    assert settled.log[|st.log|] == Stopped(s, r);
    DrainLedger(cfg, floor, settled);
    assert Drain(cfg, settled).log[|st.log|] == Stopped(s, r);
  }

  /** There is a later start of the session. */
  lemma NotLatest(log: seq<Event>, s: SessionId, r: RunId) returns (i: nat, k: nat)
    requires Started(s, r) in log && !LatestStart(log, s, r)
    ensures i < k < |log| && log[i] == Started(s, r) && StartsIn(log[k], s)
  {
    i :| 0 <= i < |log| && log[i] == Started(s, r);
    k :| i < k < |log| && StartsIn(log[k], s);
  }

  /**
   A started run that has not been reported can still be reported if and only if no other run of its
   chat has started since.
   */
  lemma ReportableIffLatest(cfg: Config, floor: nat, steps: seq<Step>, s: SessionId, r: RunId)
    requires var log := After(cfg, floor, steps).log; Started(s, r) in log && Unreported(log, r)
    ensures LatestStart(After(cfg, floor, steps).log, s, r) <==>
            exists more :: Stopped(s, r) in After(cfg, floor, steps + more).log
  {
    var st := After(cfg, floor, steps);
    if LatestStart(st.log, s, r) {
      EveryHistoryCarried(cfg, floor, steps);
      hide After;
      ActiveReportable(cfg, floor, steps, s);
    } else {
      hide After;
      var i, k := NotLatest(st.log, s, r);
      forall more ensures Stopped(s, r) !in After(cfg, floor, steps + more).log {
        DisplacedNeverReported(cfg, floor, steps, more, i, k);
      }
    }
  }

  /** While a chat has nothing queued, its run stays its active run until it is reported. */
  lemma {:induction false} AloneUntilReported(cfg: Config, floor: nat, steps: seq<Step>, more: seq<Step>,
                                              s: SessionId, r: RunId)
    requires HoldsAlone(After(cfg, floor, steps), s, r)
    ensures var st := After(cfg, floor, steps + more);
            HoldsAlone(st, s, r) || Stopped(s, r) in st.log
    decreases |more|
  {
    if more == [] {
      assert steps + more == steps;
    } else {
      hide *;
      var before, last := more[..|more| - 1], more[|more| - 1];
      AloneUntilReported(cfg, floor, steps, before, s, r);
      assert steps + more == steps + before + [last];
      AfterOne(cfg, floor, steps + before, last);
      EveryHistoryLedger(cfg, floor, steps + before);
      StepKept(cfg, floor, After(cfg, floor, steps + before), last);
      KeptAlone(After(cfg, floor, steps + before), After(cfg, floor, steps + more), s, r);
    }
  }

  lemma KeptAlone(st: State, out: State, s: SessionId, r: RunId)
    requires Kept(st, out) && (HoldsAlone(st, s, r) || Stopped(s, r) in st.log)
    ensures HoldsAlone(out, s, r) || Stopped(s, r) in out.log
  {
    hide Carried, HoldsAlone;
  }
}
