/**
 Progress of the queue, and exactly when a running run can be lost. From every reachable state the
 ends of other chats' runs, with pauses of the chat's own run, start any queued run; so a running run
 can be displaced before it is reported exactly when the queue holds another run of its chat.
 */
module SchedulerProgress {
  import opened Common
  import opened SchedulerSpec
  import opened SchedulerAdmission
  import opened SchedulerLifecycle
  import opened SchedulerReports

  // ---- What a drain uses up ----

  function Effort(st: State, x: SessionId): nat {
    3 * |st.pending| + 2 * |st.queue| + 2 * |st.resuming| + |st.active| + (if x in Busy(st) then 1 else 0)
  }

  lemma WakeEffort(st: State, i: nat, x: SessionId)
    requires i < |st.resuming|
    ensures Effort(WakeAt(st, i), x) <= Effort(st, x)
  {
  }

  lemma StartEffort(st: State, i: nat, x: SessionId)
    requires i < |st.queue|
    ensures Effort(StartAt(st, i), x) <= Effort(st, x)
  {
    var t := st.queue[i].session;
    var next := StartAt(st, i);
    OneKeyMore(st.active, t, next.active[t]);
    assert x in Busy(next) && x !in Busy(st) ==> x == t && t !in st.active;
  }

  lemma OneKeyMore<K, V>(m: map<K, V>, k: K, v: V)
    ensures |m[k := v]| == |m| + if k in m then 0 else 1
  {
    assert m[k := v].Keys == m.Keys + {k};
  }

  lemma OneKeyLess<K, V>(m: map<K, V>, k: K)
    requires k in m
    ensures |m - {k}| == |m| - 1
  {
    assert m.Keys == (m - {k}).Keys + {k};
  }

  /** Every queued run stays queued or is started, nothing is reported, and no effort is added. */
  ghost predicate Onward(st: State, out: State, x: SessionId) {
    && st.log <= out.log
    && (forall q :: q in st.queue ==> q in out.queue || Started(q.session, q.runId) in out.log)
    && (forall t, r: RunId :: Stopped(t, r) in out.log ==> Stopped(t, r) in st.log)
    && Effort(out, x) <= Effort(st, x)
  }

  lemma OnwardBoth(st: State, mid: State, out: State, x: SessionId)
    requires Onward(st, mid, x) && Onward(mid, out, x)
    ensures Onward(st, out, x)
  {
    hide Effort;
  }

  lemma WakeOnward(st: State, i: nat, x: SessionId)
    requires i < |st.resuming|
    ensures Onward(st, WakeAt(st, i), x)
  {
    WakeEffort(st, i, x);
    hide Effort;
  }

  lemma StartOnward(st: State, i: nat, x: SessionId)
    requires i < |st.queue|
    ensures Onward(st, StartAt(st, i), x)
  {
    StartEffort(st, i, x);
    hide Effort;
    var next, e := StartAt(st, i), Started(st.queue[i].session, st.queue[i].runId);
    assert next.log == st.log + [e] && next.queue == Without(st.queue, i);
    forall q | q in st.queue ensures q in next.queue || Started(q.session, q.runId) in next.log {
      var k :| 0 <= k < |st.queue| && st.queue[k] == q;
      assert k < i ==> next.queue[k] == q;
      assert k > i ==> next.queue[k - 1] == q;
    }
  }

  lemma StayOnward(st: State, x: SessionId)
    ensures Onward(st, st, x)
  {
  }

  lemma {:induction false} DrainResumingOnward(cfg: Config, st: State, i: nat, x: SessionId)
    requires i <= |st.resuming|
    ensures Onward(st, DrainResuming(cfg, st, i), x)
    decreases |st.resuming| - i
  {
    hide *;
    StayOnward(st, x);
    if i == |st.resuming| {
      DrainEnds(cfg, st);
    } else {
      DrainResumingStep(cfg, st, i);
      if Admits(cfg, Busy(st), st.resuming[i].session) {
        WakeOnward(st, i, x);
        DrainResumingOnward(cfg, WakeAt(st, i), i, x);
        OnwardBoth(st, WakeAt(st, i), DrainResuming(cfg, st, i), x);
      } else {
        DrainResumingOnward(cfg, st, i + 1, x);
      }
    }
  }

  lemma {:induction false} DrainQueueOnward(cfg: Config, st: State, i: nat, x: SessionId)
    requires i <= |st.queue|
    ensures Onward(st, DrainQueue(cfg, st, i), x)
    decreases |st.queue| - i
  {
    hide *;
    StayOnward(st, x);
    if i == |st.queue| {
      DrainEnds(cfg, st);
    } else {
      DrainQueueStep(cfg, st, i);
      if |Busy(st)| < cfg.maxConcurrent {
        if Admits(cfg, Busy(st), st.queue[i].session) {
          StartOnward(st, i, x);
          DrainQueueOnward(cfg, StartAt(st, i), i, x);
          OnwardBoth(st, StartAt(st, i), DrainQueue(cfg, st, i), x);
        } else {
          DrainQueueOnward(cfg, st, i + 1, x);
        }
      }
    }
  }

  lemma DrainOnward(cfg: Config, st: State, x: SessionId)
    ensures Onward(st, Drain(cfg, st), x)
  {
    hide Onward;
    DrainResumingOnward(cfg, st, 0, x);
    DrainQueueOnward(cfg, DrainResuming(cfg, st, 0), 0, x);
    OnwardBoth(st, DrainResuming(cfg, st, 0), Drain(cfg, st), x);
  }

  // ---- One step towards a queued run ----

  /** The end of another chat's run, or a card of the chat's own run. */
  predicate Makes(step: Step, x: SessionId) {
    (step.DoFinish? && step.session != x) || (step.DoPause? && step.session == x)
  }

  /** What one such step does for a run queued by chat x. */
  ghost predicate Closer(st: State, out: State, x: SessionId) {
    && st.log <= out.log && Effort(out, x) < Effort(st, x)
    && (forall q :: q in st.queue ==> q in out.queue || Started(q.session, q.runId) in out.log)
    && (forall r: RunId :: Started(x, r) in st.log && Unreported(st.log, r) ==> Unreported(out.log, r))
  }

  lemma SettleEffort(st: State, s: SessionId, x: SessionId)
    requires s in st.active && s != x
    ensures Effort(Settle(st, s, st.active[s].runId, "done"), x) < Effort(st, x)
  {
    var r := st.active[s].runId;
    var out, gone := Settle(st, s, r, "done"), Retire(st, s);
    OneKeyLess(st.active, s);
    assert |gone.resuming| <= |st.resuming| && gone.queue == st.queue && gone.pending == st.pending;
    assert x in Busy(gone) <==> x in Busy(st);
    hide Retire, FinishReason;
    if out.pending != st.pending {
      OneKeyLess(st.pending, s);
    }
  }

  lemma FinishCloser(cfg: Config, floor: nat, st: State, s: SessionId, x: SessionId)
    requires Ledger(floor, st, {}) && s in st.active && s != x
    ensures Closer(st, Apply(cfg, st, DoFinish(s, st.active[s].runId, "done")), x)
  {
    hide *;
    var r := st.active[s].runId;
    var settled := Settle(st, s, r, "done");
    NotYetReported(floor, st, s);
    SettleEffect(st, s, "done");
    SettleEffort(st, s, x);
    OthersUnreported(floor, st, s, x);
    DrainOnward(cfg, settled, x);
    FinishIs(cfg, floor, st, s);
    CloserVia(st, settled, Drain(cfg, settled), x);
  }

  lemma FinishIs(cfg: Config, floor: nat, st: State, s: SessionId)
    requires Ledger(floor, st, {}) && s in st.active
    ensures var r := st.active[s].runId;
            Apply(cfg, st, DoFinish(s, r, "done")) == Drain(cfg, Settle(st, s, r, "done"))
  {
    OwnerIsActive(floor, st, s, st.active[s].runId);
    hide Ledger, Drain, Settle;
  }

  lemma CloserVia(st: State, mid: State, out: State, x: SessionId)
    requires st.log <= mid.log && Effort(mid, x) < Effort(st, x) && Onward(mid, out, x)
    requires forall q :: q in st.queue ==> q in mid.queue
    requires forall o: RunId :: Started(x, o) in st.log && Unreported(st.log, o) ==> Unreported(mid.log, o)
    ensures Closer(st, out, x)
  {
    hide Effort, Unreported;
    forall o: RunId | Started(x, o) in st.log && Unreported(st.log, o) ensures Unreported(out.log, o) {
      StillUnreported(mid, out, x, o);
    }
  }

  lemma StillUnreported(st: State, out: State, x: SessionId, r: RunId)
    requires Onward(st, out, x) && Unreported(st.log, r)
    ensures Unreported(out.log, r)
  {
    hide Effort;
  }

  /** Reporting one chat's run reports no run of another. */
  lemma OthersUnreported(floor: nat, st: State, s: SessionId, x: SessionId)
    requires Ledger(floor, st, {}) && s in st.active && s != x
    ensures forall o: RunId :: Started(x, o) in st.log && Unreported(st.log, o) ==>
              Unreported(st.log + [Stopped(s, st.active[s].runId)], o)
  {
    var r := st.active[s].runId;
    NotYetReported(floor, st, s);
    forall o: RunId | Started(x, o) in st.log && Unreported(st.log, o) ensures Unreported(st.log + [Stopped(s, r)], o) {
      if o == r {
        StartedOnce(st.log, s, x, r);
        assert false;
      }
    }
  }

  lemma PauseCloser(cfg: Config, st: State, x: SessionId)
    requires x in Busy(st)
    ensures Closer(st, Apply(cfg, st, DoPause(x, st.active[x].runId)), x)
  {
    var parked := st.(paused := st.paused + {x});
    assert Effort(parked, x) == Effort(st, x) - 1;
    DrainOnward(cfg, parked, x);
    hide Effort, Drain, Unreported, Onward, Closer;
    CloserVia(st, parked, Drain(cfg, parked), x);
  }

  /** A run kept out of a scheduler with slots is kept out by some busy session. */
  lemma SomebodyBusy(cfg: Config, st: State, x: SessionId)
    requires cfg.maxConcurrent > 0 && !Admits(cfg, Busy(st), x)
    ensures Busy(st) != {}
  {
    assert OnConnection(cfg, {}, cfg.connectionOf(x)) == {};
  }

  function From(cfg: Config, st: State, steps: seq<Step>): State
    decreases |steps|
  {
    if steps == [] then st else From(cfg, Apply(cfg, st, steps[0]), steps[1..])
  }

  lemma {:induction false} AfterFrom(cfg: Config, floor: nat, steps: seq<Step>, more: seq<Step>)
    ensures After(cfg, floor, steps + more) == From(cfg, After(cfg, floor, steps), more)
    decreases |more|
  {
    hide Apply;
    if more == [] {
      assert steps + more == steps;
    } else {
      AfterOne(cfg, floor, steps, more[0]);
      AfterFrom(cfg, floor, steps + [more[0]], more[1..]);
      assert steps + more == steps + [more[0]] + more[1..];
    }
  }

  ghost predicate AllMake(steps: seq<Step>, x: SessionId) {
    forall i :: 0 <= i < |steps| ==> Makes(steps[i], x)
  }

  /** The next step towards a run that chat x has queued. */
  lemma NextStep(cfg: Config, floor: nat, st: State, q: QueuedRun) returns (step: Step)
    requires cfg.maxConcurrent > 0 && Conserving(cfg, st) && Ledger(floor, st, {}) && q in st.queue
    ensures Makes(step, q.session) && Closer(st, Apply(cfg, st, step), q.session)
  {
    var x := q.session;
    hide Ledger, Admits, Closer, Apply;
    if x in Busy(st) {
      step := DoPause(x, st.active[x].runId);
      PauseCloser(cfg, st, x);
    } else {
      SomebodyBusy(cfg, st, x);
      var s :| s in Busy(st);
      step := DoFinish(s, st.active[s].runId, "done");
      FinishCloser(cfg, floor, st, s, x);
    }
  }

  lemma {:induction false} Serve(cfg: Config, floor: nat, st: State, q: QueuedRun) returns (more: seq<Step>)
    requires cfg.maxConcurrent > 0 && Safe(cfg, st) && Conserving(cfg, st) && Ledger(floor, st, {}) && q in st.queue
    ensures AllMake(more, q.session)
    ensures var out := From(cfg, st, more);
            && st.log <= out.log && Started(q.session, q.runId) in out.log
            && forall r: RunId :: Started(q.session, r) in st.log && Unreported(st.log, r) ==> Unreported(out.log, r)
    decreases Effort(st, q.session)
  {
    hide *;
    var x := q.session;
    var step := NextStep(cfg, floor, st, q);
    var next := Apply(cfg, st, step);
    StepKeeps(cfg, st, step);
    StepLedger(cfg, floor, st, step);
    CloserIs(st, next, q);
    if q in next.queue {
      var rest := Serve(cfg, floor, next, q);
      more := [step] + rest;
      FromStep(cfg, st, step, rest);
      MakeMore(step, rest, x);
      StartedStays(st.log, next.log, x);
    } else {
      more := [step];
      FromStep(cfg, st, step, []);
      MakeMore(step, [], x);
    }
  }

  lemma CloserIs(st: State, out: State, q: QueuedRun)
    requires Closer(st, out, q.session) && q in st.queue
    ensures st.log <= out.log && Effort(out, q.session) < Effort(st, q.session)
    ensures q in out.queue || Started(q.session, q.runId) in out.log
    ensures forall r: RunId :: Started(q.session, r) in st.log && Unreported(st.log, r) ==> Unreported(out.log, r)
  {
    hide Effort, Unreported;
  }

  lemma StartedStays(log: seq<Event>, later: seq<Event>, x: SessionId)
    requires log <= later
    ensures forall r: RunId :: Started(x, r) in log ==> Started(x, r) in later
  {
  }

  lemma FromStep(cfg: Config, st: State, step: Step, rest: seq<Step>)
    ensures From(cfg, st, [step] + rest) == From(cfg, Apply(cfg, st, step), rest)
    ensures From(cfg, st, [step]) == Apply(cfg, st, step)
  {
    hide Apply;
    assert ([step] + rest)[1..] == rest && [step][1..] == [];
    assert From(cfg, Apply(cfg, st, step), []) == Apply(cfg, st, step);
  }

  lemma MakeMore(step: Step, rest: seq<Step>, x: SessionId)
    requires Makes(step, x) && (rest == [] || AllMake(rest, x))
    ensures AllMake([step] + rest, x) && AllMake([step], x)
  {
    hide Makes;
  }

  /** From every reachable state, ends of other chats' runs and cards of its own start any queued run. */
  lemma QueuedRunCanStart(cfg: Config, floor: nat, steps: seq<Step>, q: QueuedRun)
    requires cfg.maxConcurrent > 0 && q in After(cfg, floor, steps).queue
    ensures exists more ::
              AllMake(more, q.session) && Started(q.session, q.runId) in After(cfg, floor, steps + more).log
  {
    EveryHistorySafe(cfg, floor, steps);
    EveryHistoryLedger(cfg, floor, steps);
    hide After, Ledger, Safe, Conserving, AllMake;
    var more := Serve(cfg, floor, After(cfg, floor, steps), q);
    AfterFrom(cfg, floor, steps, more);
  }

  // ---- When a running run can be lost ----

  /** Started, not reported, and no longer the latest of its chat: never reported from here on. */
  ghost predicate Lost(log: seq<Event>, s: SessionId, r: RunId) {
    Started(s, r) in log && Unreported(log, r) && !LatestStart(log, s, r)
  }

  lemma LaterStart(log: seq<Event>, later: seq<Event>, s: SessionId, r: RunId, r': RunId)
    requires log <= later && Started(s, r) in log && Started(s, r') in later && WellOrdered(later)
    requires !Mentioned(log, r')
    ensures !LatestStart(later, s, r)
  {
    var i :| 0 <= i < |log| && log[i] == Started(s, r);
    var k :| 0 <= k < |later| && later[k] == Started(s, r');
    assert later[i] == log[i];
    NotMentioned(log, r');
    assert forall n :: 0 <= n < |log| ==> later[n] == log[n] && log[n] in log && log[n] != Started(s, r');
    assert k >= |log| > i && StartsIn(later[k], s);
    assert forall a, b :: 0 <= a < b < |later| ==> Follows(later[a], later[b]);
    assert forall j :: 0 <= j < |later| && later[j] == Started(s, r) ==> j == i;
  }

  lemma QueuedUnmentioned(floor: nat, st: State, q: QueuedRun)
    requires Ledger(floor, st, {}) && q in st.queue
    ensures !Mentioned(st.log, q.runId)
  {
    hide Mentioned;
  }

  lemma QueuedDisplaces(cfg: Config, floor: nat, steps: seq<Step>, s: SessionId, q: QueuedRun)
    requires cfg.maxConcurrent > 0
    requires var st := After(cfg, floor, steps); s in st.active && q in st.queue && q.session == s
    ensures var r := After(cfg, floor, steps).active[s].runId;
            exists more :: Lost(After(cfg, floor, steps + more).log, s, r)
  {
    var st := After(cfg, floor, steps);
    var r := st.active[s].runId;
    EveryHistorySafe(cfg, floor, steps);
    EveryHistoryLedger(cfg, floor, steps);
    NotYetReported(floor, st, s);
    QueuedUnmentioned(floor, st, q);
    hide After, Safe, Conserving, AllMake, Unreported, LatestStart, Mentioned;
    var more := Serve(cfg, floor, st, q);
    AfterFrom(cfg, floor, steps, more);
    EveryHistoryLedger(cfg, floor, steps + more);
    var later := After(cfg, floor, steps + more).log;
    LaterStart(st.log, later, s, r, q.runId);
    assert Started(s, r) in later;
    assert Lost(later, s, r);
  }

  lemma AloneNotLost(cfg: Config, floor: nat, steps: seq<Step>, more: seq<Step>, s: SessionId, r: RunId)
    requires HoldsAlone(After(cfg, floor, steps), s, r)
    ensures !Lost(After(cfg, floor, steps + more).log, s, r)
  {
    AloneUntilReported(cfg, floor, steps, more, s, r);
    EveryHistoryLedger(cfg, floor, steps + more);
    var st := After(cfg, floor, steps + more);
    hide After;
    if HoldsAlone(st, s, r) {
      NotYetReported(floor, st, s);
    }
    hide LatestStart, Ledger;
  }

  /**
   A running run can be lost, by whatever comes next, if and only if the queue holds another run of
   its chat.
   */
  lemma LosableIffQueued(cfg: Config, floor: nat, steps: seq<Step>, s: SessionId)
    requires cfg.maxConcurrent > 0 && s in After(cfg, floor, steps).active
    ensures var st := After(cfg, floor, steps);
            (exists more :: Lost(After(cfg, floor, steps + more).log, s, st.active[s].runId)) <==>
            (exists q :: q in st.queue && q.session == s)
  {
    hide After, Lost;
    var st := After(cfg, floor, steps);
    if q :| q in st.queue && q.session == s {
      QueuedDisplaces(cfg, floor, steps, s, q);
    } else {
      forall more ensures !Lost(After(cfg, floor, steps + more).log, s, st.active[s].runId) {
        AloneNotLost(cfg, floor, steps, more, s, st.active[s].runId);
      }
    }
  }

  /** A start loses a run exactly when its session is still in the map of active runs. */
  lemma StartLosesIffActive(cfg: Config, floor: nat, steps: seq<Step>, entry: QueuedRun)
    requires !Mentioned(After(cfg, floor, steps).log, entry.runId)
    ensures var st, s := After(cfg, floor, steps), entry.session;
            s in st.active <==>
            exists r: RunId :: !Lost(st.log, s, r) && Lost(StartRun(st, entry).log, s, r)
  {
    var st, s := After(cfg, floor, steps), entry.session;
    EveryHistoryLedger(cfg, floor, steps);
    EveryHistoryCarried(cfg, floor, steps);
    hide After;
    var e := Started(s, entry.runId);
    assert StartRun(st, entry).log == st.log + [e];
    if s in st.active {
      NotYetReported(floor, st, s);
      StartLoses(st.log, s, st.active[s].runId, entry.runId);
    }
    if r: RunId :| !Lost(st.log, s, r) && Lost(st.log + [e], s, r) {
      hide Ledger;
      LostWasLatest(st.log, s, r, entry.runId);
    }
  }

  lemma StartLoses(log: seq<Event>, s: SessionId, r: RunId, next: RunId)
    requires Started(s, r) in log && Unreported(log, r) && LatestStart(log, s, r) && !Mentioned(log, next)
    ensures !Lost(log, s, r) && Lost(log + [Started(s, next)], s, r)
  {
    NotMentioned(log, next);
    if LatestStart(log + [Started(s, next)], s, r) {
      LatestIsLast(log, s, next, r);
      assert false;
    }
  }

  lemma LostWasLatest(log: seq<Event>, s: SessionId, r: RunId, next: RunId)
    requires !Lost(log, s, r) && Lost(log + [Started(s, next)], s, r)
    ensures LatestStart(log, s, r) && Unreported(log, r)
  {
    LatestNow(log, s, next);
    UnreportedBefore(log, Started(s, next), r);
    hide LatestStart;
  }
}
