/**
 What each locked section of the scheduler leaves behind, chat by chat: said of the state before and
 the state after alone, not of the functions in between.
 */
module SchedulerOutcomes {
  import opened Common
  import opened SchedulerSpec
  import opened SchedulerAdmission
  import opened SchedulerLifecycle
  import opened SchedulerReports

  // ---- Drains ----

  /** The active run an entry of the queue becomes. */
  predicate Becomes(q: QueuedRun, run: ActiveRun) {
    run == ActiveRun(q.runId, "", q.messageId, q.source)
  }

  /** A drain moves queue entries to the active runs and wakes waiters, and does nothing else. */
  ghost predicate Drained(st: State, out: State) {
    && out.pending == st.pending && out.unreachable == st.unreachable && out.stoppedRuns == st.stoppedRuns
    && out.ids == st.ids && out.channels == st.channels && out.paused <= st.paused
    && st.log <= out.log && st.active.Keys <= out.active.Keys
    && (forall q :: q in out.queue ==> q in st.queue)
    && (forall w :: w in out.resuming ==> w in st.resuming)
    && (forall q :: q in st.queue ==> q in out.queue || Started(q.session, q.runId) in out.log)
    && (forall t, r: RunId :: Stopped(t, r) in out.log ==> Stopped(t, r) in st.log)
    && (forall t, r: RunId :: Started(t, r) in out.log ==> Started(t, r) in st.log || QueuedAs(st.queue, t, r))
    && (forall t :: t in out.active && !FromQueue(st.queue, t, out.active[t]) ==>
          t in st.active && out.active[t] == st.active[t])
  }

  ghost predicate QueuedAs(queue: seq<QueuedRun>, t: SessionId, r: RunId) {
    exists q :: q in queue && q.session == t && q.runId == r
  }

  ghost predicate FromQueue(queue: seq<QueuedRun>, t: SessionId, run: ActiveRun) {
    exists q :: q in queue && q.session == t && Becomes(q, run)
  }

  lemma QueuedBefore(fewer: seq<QueuedRun>, queue: seq<QueuedRun>)
    requires forall q :: q in fewer ==> q in queue
    ensures forall t, r: RunId :: QueuedAs(fewer, t, r) ==> QueuedAs(queue, t, r)
    ensures forall t, run :: FromQueue(fewer, t, run) ==> FromQueue(queue, t, run)
  {
  }

  lemma DrainedBoth(st: State, mid: State, out: State)
    requires Drained(st, mid) && Drained(mid, out)
    ensures Drained(st, out)
  {
    QueuedBefore(mid.queue, st.queue);
    hide QueuedAs, FromQueue;
  }

  lemma DrainedNone(st: State)
    ensures Drained(st, st)
  {
    hide QueuedAs, FromQueue;
  }

  lemma WakeDrained(st: State, i: nat)
    requires i < |st.resuming|
    ensures Drained(st, WakeAt(st, i))
  {
    WithoutFewer(st.resuming, i);
    hide QueuedAs, FromQueue, Without;
  }

  lemma StartDrained(st: State, i: nat)
    requires i < |st.queue|
    ensures Drained(st, StartAt(st, i))
  {
    var q, next := st.queue[i], StartAt(st, i);
    WithoutFewer(st.queue, i);
    assert q in st.queue && QueuedAs(st.queue, q.session, q.runId);
    assert Becomes(q, next.active[q.session]) && FromQueue(st.queue, q.session, next.active[q.session]);
    forall x | x in st.queue ensures x in next.queue || Started(x.session, x.runId) in next.log {
      var k :| 0 <= k < |st.queue| && st.queue[k] == x;
      assert k < i ==> next.queue[k] == x;
      assert k > i ==> next.queue[k - 1] == x;
    }
    hide QueuedAs, FromQueue, Without, Becomes;
  }

  lemma {:induction false} DrainResumingDrained(cfg: Config, st: State, i: nat)
    requires i <= |st.resuming|
    ensures Drained(st, DrainResuming(cfg, st, i))
    decreases |st.resuming| - i
  {
    hide *;
    DrainedNone(st);
    if i == |st.resuming| {
      DrainEnds(cfg, st);
    } else {
      DrainResumingStep(cfg, st, i);
      if Admits(cfg, Busy(st), st.resuming[i].session) {
        WakeDrained(st, i);
        DrainResumingDrained(cfg, WakeAt(st, i), i);
        DrainedBoth(st, WakeAt(st, i), DrainResuming(cfg, st, i));
      } else {
        DrainResumingDrained(cfg, st, i + 1);
      }
    }
  }

  lemma {:induction false} DrainQueueDrained(cfg: Config, st: State, i: nat)
    requires i <= |st.queue|
    ensures Drained(st, DrainQueue(cfg, st, i))
    decreases |st.queue| - i
  {
    hide *;
    DrainedNone(st);
    if i == |st.queue| {
      DrainEnds(cfg, st);
    } else {
      DrainQueueStep(cfg, st, i);
      if |Busy(st)| < cfg.maxConcurrent {
        if Admits(cfg, Busy(st), st.queue[i].session) {
          StartDrained(st, i);
          DrainQueueDrained(cfg, StartAt(st, i), i);
          DrainedBoth(st, StartAt(st, i), DrainQueue(cfg, st, i));
        } else {
          DrainQueueDrained(cfg, st, i + 1);
        }
      }
    }
  }

  lemma DrainIsDrained(cfg: Config, st: State)
    ensures Drained(st, Drain(cfg, st))
  {
    DrainResumingDrained(cfg, st, 0);
    DrainQueueDrained(cfg, DrainResuming(cfg, st, 0), 0);
    hide Drained;
    DrainedBoth(st, DrainResuming(cfg, st, 0), Drain(cfg, st));
  }

  // ---- Finishing ----

  /** The stop reason the run was marked with, else the one it ended with. */
  function Effective(run: ActiveRun, reason: string): string {
    if run.stopReason != "" then run.stopReason else reason
  }

  /** The first waiting message of a chat, as the run it becomes. */
  predicate CarriesFirst(waiting: seq<QueuedRun>, q: QueuedRun, s: SessionId, r: RunId) {
    && waiting != [] && q.session == s && q.runId == r
    && q.messageId == waiting[0].messageId && q.source == waiting[0].source
  }

  /** What finish has done to its own chat by the time it drains. */
  lemma SettledIs(st: State, s: SessionId, reason: string)
    requires s in st.active && (s, st.active[s].runId) !in st.stoppedRuns
    ensures var run, waiting := st.active[s], Pending(st, s);
            var out := Settle(st, s, run.runId, reason);
            var held := s in st.unreachable || Effective(run, reason) == "model_unreachable";
            && out.active == st.active - {s} && out.paused == st.paused - {s}
            && out.unreachable == st.unreachable + (if held then {s} else {})
            && out.log == st.log + [Stopped(s, run.runId)]
            && (forall w :: w in out.resuming ==> w in st.resuming)
            && if held || run.stopReason != "" || waiting == [] then
                 out.pending == st.pending && out.queue == st.queue && out.ids == st.ids
               else
                 && out.pending == st.pending - {s} && out.ids == st.ids + 1
                 && |out.queue| == |st.queue| + 1 && out.queue[..|st.queue|] == st.queue
                 && CarriesFirst(waiting, out.queue[|st.queue|], s, st.ids + 1)
  {
    var k := WaiterOf(st.resuming, s, 0);
    if k < |st.resuming| { WithoutFewer(st.resuming, k); }
    hide WaiterOf, Without;
  }

  lemma FinishDrains(cfg: Config, st: State, s: SessionId, reason: string)
    requires s in st.active
    ensures Finish(cfg, st, s, st.active[s].runId, reason) == Drain(cfg, Settle(st, s, st.active[s].runId, reason))
  {
    hide Drain, Settle;
  }

  /**
   The end of a chat's own run, in any reachable state: the chat is held exactly when it was or the
   effective reason says the model cannot be reached; a chat that is held, or whose run was marked
   stopped, keeps its waiting messages and gains no run; otherwise all its waiting messages are taken
   and the first of them is the one new run. Every other chat keeps its hold and its messages.
   */
  lemma FinishOutcome(cfg: Config, floor: nat, steps: seq<Step>, s: SessionId, reason: string)
    requires s in After(cfg, floor, steps).active
    ensures var st := After(cfg, floor, steps);
            var run, waiting := st.active[s], Pending(st, s);
            var out := Finish(cfg, st, s, run.runId, reason);
            var held := s in st.unreachable || Effective(run, reason) == "model_unreachable";
            var quiet := held || run.stopReason != "" || waiting == [];
            && Stopped(s, run.runId) in out.log
            && (s in out.unreachable <==> held)
            && (forall t :: t != s ==>
                  (t in out.unreachable <==> t in st.unreachable) && Pending(out, t) == Pending(st, t))
            && (quiet ==> Pending(out, s) == waiting && NoNewRun(st, out, s))
            && (!quiet ==> Pending(out, s) == [] && out.ids == st.ids + 1 && OneNewRun(st, out, s, waiting))
  {
    var st := After(cfg, floor, steps);
    EveryHistoryLedger(cfg, floor, steps);
    NotYetReported(floor, st, s);
    QueueBelow(floor, st);
    hide After, Ledger, Unreported, LatestStart;
    var settled := Settle(st, s, st.active[s].runId, reason);
    SettledIs(st, s, reason);
    FinishDrains(cfg, st, s, reason);
    DrainIsDrained(cfg, settled);
    FinishCombines(st, settled, Drain(cfg, settled), s, reason);
  }

  /** No run of the chat is queued or started that was not queued before. */
  ghost predicate NoNewRun(st: State, out: State, s: SessionId) {
    && (forall q :: q in out.queue && q.session == s ==> q in st.queue)
    && (forall r: RunId :: Started(s, r) in out.log ==> Started(s, r) in st.log || QueuedAs(st.queue, s, r))
  }

  /** Exactly one new run of the chat, of its first waiting message, queued or started. */
  ghost predicate OneNewRun(st: State, out: State, s: SessionId, waiting: seq<QueuedRun>) {
    var r := st.ids + 1;
    && (forall q :: q in out.queue && q.session == s && q !in st.queue ==> CarriesFirst(waiting, q, s, r))
    && (forall x: RunId :: Started(s, x) in out.log ==> Started(s, x) in st.log || QueuedAs(st.queue, s, x) || x == r)
    && (QueuedAs(out.queue, s, r) || Started(s, r) in out.log)
  }

  lemma QueueBelow(floor: nat, st: State)
    requires Ledger(floor, st, {})
    ensures forall q :: q in st.queue ==> q.runId <= st.ids
  {
    hide Mentioned;
  }

  lemma PendingWithout(st: State, out: State, s: SessionId)
    requires out.pending == st.pending - {s}
    ensures Pending(out, s) == [] && forall t :: t != s ==> Pending(out, t) == Pending(st, t)
  {
  }

  lemma FinishCombines(st: State, settled: State, out: State, s: SessionId, reason: string)
    requires s in st.active && Drained(settled, out)
    requires var run, waiting := st.active[s], Pending(st, s);
             var held := s in st.unreachable || Effective(run, reason) == "model_unreachable";
             && settled.unreachable == st.unreachable + (if held then {s} else {})
             && settled.log == st.log + [Stopped(s, run.runId)]
             && if held || run.stopReason != "" || waiting == [] then
                  settled.pending == st.pending && settled.queue == st.queue && settled.ids == st.ids
                else
                  && settled.pending == st.pending - {s} && settled.ids == st.ids + 1
                  && |settled.queue| == |st.queue| + 1 && settled.queue[..|st.queue|] == st.queue
                  && CarriesFirst(waiting, settled.queue[|st.queue|], s, st.ids + 1)
    ensures var run, waiting := st.active[s], Pending(st, s);
            var held := s in st.unreachable || Effective(run, reason) == "model_unreachable";
            var quiet := held || run.stopReason != "" || waiting == [];
            && Stopped(s, run.runId) in out.log
            && (s in out.unreachable <==> held)
            && (forall t :: t != s ==>
                  (t in out.unreachable <==> t in st.unreachable) && Pending(out, t) == Pending(st, t))
            && (quiet ==> Pending(out, s) == waiting && NoNewRun(st, out, s))
            && (!quiet ==> Pending(out, s) == [] && out.ids == st.ids + 1 && OneNewRun(st, out, s, waiting))
  {
    var run, waiting := st.active[s], Pending(st, s);
    assert settled.log[|st.log|] == Stopped(s, run.runId);
    assert out.log[|st.log|] == Stopped(s, run.runId);
    if settled.pending == st.pending && settled.queue == st.queue && settled.ids == st.ids {
      QuietCombines(st, settled, out, s);
    } else {
      PendingWithout(st, settled, s);
      NewRunCombines(st, settled, out, s, waiting);
    }
    hide Drained, NoNewRun, OneNewRun, CarriesFirst;
  }

  lemma QuietCombines(st: State, settled: State, out: State, s: SessionId)
    requires Drained(settled, out) && settled.queue == st.queue && settled.pending == st.pending
    requires exists t, r: RunId :: settled.log == st.log + [Stopped(t, r)]
    ensures NoNewRun(st, out, s) && out.pending == st.pending && out.unreachable == settled.unreachable
  {
    hide QueuedAs, FromQueue;
  }

  lemma NewRunCombines(st: State, settled: State, out: State, s: SessionId, waiting: seq<QueuedRun>)
    requires Drained(settled, out) && settled.ids == st.ids + 1
    requires |settled.queue| == |st.queue| + 1 && settled.queue[..|st.queue|] == st.queue
    requires CarriesFirst(waiting, settled.queue[|st.queue|], s, st.ids + 1)
    requires exists t, r: RunId :: settled.log == st.log + [Stopped(t, r)]
    ensures OneNewRun(st, out, s, waiting) && out.ids == st.ids + 1
    ensures out.pending == settled.pending && out.unreachable == settled.unreachable
  {
    var added := settled.queue[|st.queue|];
    var r := st.ids + 1;
    assert settled.queue == st.queue + [added];
    assert added in settled.queue;
    forall x: RunId | QueuedAs(settled.queue, s, x) ensures QueuedAs(st.queue, s, x) || x == r {
      var q :| q in settled.queue && q.session == s && q.runId == x;
      assert q in st.queue || q == added;
    }
    if added in out.queue {
      assert QueuedAs(out.queue, s, r);
    }
    hide FromQueue;
  }

  /** In any reachable state a finish by a run that is not the chat's active run changes nothing. */
  lemma StaleFinish(cfg: Config, floor: nat, steps: seq<Step>, s: SessionId, r: RunId, reason: string)
    ensures var st := After(cfg, floor, steps);
            s !in st.active || st.active[s].runId != r ==>
              Finish(cfg, st, s, r, reason) == st && ForceFinish(cfg, st, s, r) == st
  {
    EveryHistoryLedger(cfg, floor, steps);
    OwnerIsActive(floor, After(cfg, floor, steps), s, r);
    hide After, Ledger, Drain, Settle;
  }

  /** A forced end reports the run and promotes nothing: every chat keeps its messages and its hold. */
  lemma ForceOutcome(cfg: Config, floor: nat, steps: seq<Step>, s: SessionId)
    requires s in After(cfg, floor, steps).active
    ensures var st := After(cfg, floor, steps);
            var r := st.active[s].runId;
            var out := ForceFinish(cfg, st, s, r);
            && Stopped(s, r) in out.log && out.pending == st.pending && out.unreachable == st.unreachable
            && out.ids == st.ids && forall t :: NoNewRun(st, out, t)
  {
    var st := After(cfg, floor, steps);
    var r := st.active[s].runId;
    EveryHistoryLedger(cfg, floor, steps);
    NotYetReported(floor, st, s);
    hide After, Ledger, Unreported, LatestStart;
    var gone := ReportStopped(Retire(st, s), s, r);
    assert gone.log == st.log + [Stopped(s, r)] && gone.queue == st.queue && gone.pending == st.pending;
    assert gone.ids == st.ids && gone.unreachable == st.unreachable;
    DrainIsDrained(cfg, gone);
    hide Drain, Retire, ReportStopped;
    var out := Drain(cfg, gone);
    assert gone.log[|st.log|] == Stopped(s, r) && out.log[|st.log|] == Stopped(s, r);
    forall t ensures NoNewRun(st, out, t) {
      QuietCombines(st, gone, out, t);
    }
  }

  // ---- Submitting ----

  /** The message of a submission, waiting at the end of its chat's list. */
  predicate Waits(waiting: seq<QueuedRun>, before: seq<QueuedRun>, sub: Submission) {
    && |waiting| == |before| + 1 && waiting[..|before|] == before
    && waiting[|before|].messageId == sub.messageId && waiting[|before|].content == sub.text
    && waiting[|before|].source == sub.source && waiting[|before|].session == sub.session
  }

  /** The chat is held, or its own run is in the way: the message has to wait. */
  predicate MustWait(st: State, sub: Submission) {
    sub.session in st.unreachable || sub.session in st.active || sub.running
  }

  /** No waiting message has this text before the given place, and the one there has it. */
  ghost predicate FirstWith(waiting: seq<QueuedRun>, text: string, place: nat) {
    0 < place <= |waiting| && waiting[place - 1].content == text &&
    forall i :: 0 <= i < place - 1 ==> waiting[i].content != text
  }

  ghost predicate Nowhere(waiting: seq<QueuedRun>, text: string) {
    forall i :: 0 <= i < |waiting| ==> waiting[i].content != text
  }

  lemma {:induction false} IdenticalIs(waiting: seq<QueuedRun>, text: string, i: nat)
    requires i <= |waiting| && forall k :: 0 <= k < i ==> waiting[k].content != text
    ensures var place := IdenticalFrom(waiting, text, i);
            if place == 0 then Nowhere(waiting, text) else FirstWith(waiting, text, place)
    decreases |waiting| - i
  {
    if i < |waiting| && waiting[i].content != text { IdenticalIs(waiting, text, i + 1); }
  }

  /**
   A submission that has to wait: a repeated text keeps the place of the first; past the depth limit,
   which a held chat does not have, it is refused as full; one that could not be stored is refused; any
   other is put at the end of the chat's messages, or handed straight back when the run is being
   stopped. No run is queued or started.
   */
  lemma SubmitWaits(cfg: Config, st: State, sub: Submission)
    requires sub.open && MustWait(st, sub)
    ensures var Submitted(out, outcome) := Submit(cfg, st, sub);
            var s, before := sub.session, Pending(st, sub.session);
            var full := s !in st.unreachable && cfg.queueDepth > 0 && |before| >= cfg.queueDepth;
            var stopping := s !in st.unreachable && s in st.active && st.active[s].stopReason != "";
            && out.queue == st.queue && out.log == st.log && out.active == st.active && out.ids == st.ids
            && (!Nowhere(before, sub.text) ==>
                  outcome.Waiting? && FirstWith(before, sub.text, outcome.position) && out == st)
            && (Nowhere(before, sub.text) && full ==> outcome == QueueFull && out == st)
            && (Nowhere(before, sub.text) && !full && !sub.stored ==> outcome == Refused && out == st)
            && (Nowhere(before, sub.text) && !full && sub.stored ==>
                  && outcome == Waiting(|before| + 1)
                  && (if stopping then Pending(out, s) == [] else Waits(Pending(out, s), before, sub)))
            && forall t :: t != s ==> Pending(out, t) == Pending(st, t)
  {
    IdenticalIs(Pending(st, sub.session), sub.text, 0);
    hide IdenticalFrom;
  }

  /**
   A submission to an idle chat: what waited goes back to the composer; an unstored message is refused;
   otherwise a run with the next id carries the message, started at once exactly when there is a slot
   and put at the end of the queue when there is none.
   */
  lemma SubmitRuns(cfg: Config, st: State, sub: Submission)
    requires sub.open && !MustWait(st, sub)
    ensures var Submitted(out, outcome) := Submit(cfg, st, sub);
            var s, r := sub.session, st.ids + 1;
            var busy := set t | t in st.active && t !in st.paused;
            var here := set t | t in busy && cfg.connectionOf(t) == cfg.connectionOf(s);
            var room := |busy| < cfg.maxConcurrent && |here| < Limit(cfg.connections, cfg.connectionOf(s));
            && Pending(out, s) == [] && (forall t :: t != s ==> Pending(out, t) == Pending(st, t))
            && out.unreachable == st.unreachable && out.paused == st.paused && out.resuming == st.resuming
            && (!sub.stored ==> outcome == Refused && out.ids == st.ids && out.queue == st.queue && out.log == st.log
                                && out.active == st.active)
            && (sub.stored && room ==>
                  && outcome == Dispatched(r) && out.ids == r && out.queue == st.queue
                       && out.log == st.log + [Started(s, r)]
                  && out.active == st.active[s := ActiveRun(r, "", sub.messageId, sub.source)])
            && (sub.stored && !room ==>
                  && outcome == Queued(r, |st.queue| + 1) && out.ids == r && out.log == st.log
                       && out.active == st.active
                  && out.queue == st.queue + [QueuedRun(s, r, sub.messageId, "", sub.source)])
  {
    hide *;
    RoomIs(cfg, st, sub.session);
    IdleUnfolds(cfg, st, sub);
    ClearIs(st, sub.session);
  }

  lemma IdleUnfolds(cfg: Config, st: State, sub: Submission)
    requires sub.open && !MustWait(st, sub)
    ensures var Submitted(out, outcome) := Submit(cfg, st, sub);
            var s, r, clear := sub.session, st.ids + 1, DropPending(st, sub.session);
            if !sub.stored then out == clear && outcome == Refused
            else if Admits(cfg, Busy(st), s) then
              && out == clear.(ids := r, active := st.active[s := ActiveRun(r, "", sub.messageId, sub.source)],
                               log := st.log + [Started(s, r)])
              && outcome == Dispatched(r)
            else
              && out == clear.(ids := r, queue := st.queue + [QueuedRun(s, r, sub.messageId, "", sub.source)])
              && outcome == Queued(r, |st.queue| + 1)
  {
    ToIdle(cfg, st, sub);
    ClearIs(st, sub.session);
    assert Busy(DropPending(st, sub.session).(ids := st.ids + 1)) == Busy(st);
    hide Admits, Busy, Submit, DropPending;
    IdleCases(cfg, st, sub);
  }

  lemma ToIdle(cfg: Config, st: State, sub: Submission)
    requires sub.open && !MustWait(st, sub)
    ensures Submit(cfg, st, sub) == SubmitIdle(cfg, st, sub)
  {
    hide SubmitIdle, SubmitHeld, SubmitBehind;
  }

  lemma IdleCases(cfg: Config, st: State, sub: Submission)
    requires Busy(DropPending(st, sub.session).(ids := st.ids + 1)) == Busy(st)
    requires DropPending(st, sub.session) == st.(pending := DropPending(st, sub.session).pending)
    ensures var Submitted(out, outcome) := SubmitIdle(cfg, st, sub);
            var s, r, clear := sub.session, st.ids + 1, DropPending(st, sub.session);
            if !sub.stored then out == clear && outcome == Refused
            else if Admits(cfg, Busy(st), s) then
              && out == clear.(ids := r, active := st.active[s := ActiveRun(r, "", sub.messageId, sub.source)],
                               log := st.log + [Started(s, r)])
              && outcome == Dispatched(r)
            else
              && out == clear.(ids := r, queue := st.queue + [QueuedRun(s, r, sub.messageId, "", sub.source)])
              && outcome == Queued(r, |st.queue| + 1)
  {
    hide Admits, Busy, DropPending;
  }

  lemma ClearIs(st: State, s: SessionId)
    ensures var clear := DropPending(st, s);
            && clear == st.(pending := clear.pending) && Pending(clear, s) == []
            && forall t, any: State :: t != s && any.pending == clear.pending ==> Pending(any, t) == Pending(st, t)
    ensures forall any: State :: any.pending == DropPending(st, s).pending ==> Pending(any, s) == []
  {
  }

  lemma SubmitClosed(cfg: Config, st: State, sub: Submission)
    requires !sub.open
    ensures Submit(cfg, st, sub) == Submitted(st, Refused)
  {
  }

  /** There is a slot for a chat, counted from the maps alone. */
  lemma RoomIs(cfg: Config, st: State, s: SessionId)
    ensures var busy := set t | t in st.active && t !in st.paused;
            var here := set t | t in busy && cfg.connectionOf(t) == cfg.connectionOf(s);
            && Busy(st) == busy
            && (Admits(cfg, Busy(st), s) <==>
                  |busy| < cfg.maxConcurrent && |here| < Limit(cfg.connections, cfg.connectionOf(s)))
  {
    var busy := set t | t in st.active && t !in st.paused;
    assert Busy(st) == busy;
    assert OnConnection(cfg, busy, cfg.connectionOf(s)) == set t | t in busy
           && cfg.connectionOf(t) == cfg.connectionOf(s);
    hide Busy, Limit;
  }

  /**
   In every reachable state, counted from the maps alone: the limits hold, and for every chat with a
   run in the queue or an answered run waiting, one of its two limits is used up.
   */
  lemma NothingAdmissibleWaits(cfg: Config, floor: nat, steps: seq<Step>, s: SessionId)
    ensures var st := After(cfg, floor, steps);
            var busy := set t | t in st.active && t !in st.paused;
            var here := set t | t in busy && cfg.connectionOf(t) == cfg.connectionOf(s);
            var limit := Limit(cfg.connections, cfg.connectionOf(s));
            && (|busy| <= cfg.maxConcurrent || busy == {}) && |here| <= limit
            && ((exists q :: q in st.queue && q.session == s) || (exists w :: w in st.resuming && w.session == s) ==>
                  |busy| >= cfg.maxConcurrent || |here| >= limit)
  {
    var st := After(cfg, floor, steps);
    EveryHistorySafe(cfg, floor, steps);
    RoomIs(cfg, st, s);
    hide After;
    var busy := set t | t in st.active && t !in st.paused;
    assert OnConnection(cfg, busy, cfg.connectionOf(s)) == set t | t in busy
           && cfg.connectionOf(t) == cfg.connectionOf(s);
    assert |OnConnection(cfg, busy, cfg.connectionOf(s))| <= ConnectionLimit(cfg, cfg.connectionOf(s));
    hide Busy, Limit, Admits, OnConnection;
  }

  // ---- Cards ----

  /** A parked run gives up its slot and keeps it up: until a waiter of its own chat is woken it is not busy. */
  lemma CardParks(cfg: Config, st: State, s: SessionId)
    requires s in st.active && s !in st.paused && forall w :: w in st.resuming ==> w.session != s
    ensures var out := Pause(cfg, st, s, st.active[s].runId);
            s in out.paused && s in out.active && s !in Busy(out)
  {
    var parked := st.(paused := st.paused + {s});
    StaysParked(cfg, parked, s);
    DrainIsDrained(cfg, parked);
    hide Drain, QueuedAs, FromQueue;
  }

  lemma {:induction false} ResumingLeavesParked(cfg: Config, st: State, i: nat, s: SessionId)
    requires i <= |st.resuming| && s in st.paused && forall w :: w in st.resuming ==> w.session != s
    ensures s in DrainResuming(cfg, st, i).paused
    decreases |st.resuming| - i
  {
    hide Admits, Busy;
    if i == |st.resuming| {
    } else if !Admits(cfg, Busy(st), st.resuming[i].session) {
      ResumingLeavesParked(cfg, st, i + 1, s);
    } else {
      WithoutFewer(st.resuming, i);
      assert st.resuming[i] in st.resuming;
      ResumingLeavesParked(cfg, WakeAt(st, i), i, s);
    }
  }

  lemma {:induction false} QueueLeavesPauses(cfg: Config, st: State, i: nat)
    requires i <= |st.queue|
    ensures DrainQueue(cfg, st, i).paused == st.paused
    decreases |st.queue| - i
  {
    hide Admits, Busy;
    if i == |st.queue| || |Busy(st)| >= cfg.maxConcurrent {
    } else if !Admits(cfg, Busy(st), st.queue[i].session) {
      QueueLeavesPauses(cfg, st, i + 1);
    } else {
      QueueLeavesPauses(cfg, StartAt(st, i), i);
    }
  }

  lemma StaysParked(cfg: Config, st: State, s: SessionId)
    requires s in st.paused && forall w :: w in st.resuming ==> w.session != s
    ensures s in Drain(cfg, st).paused
  {
    ResumingLeavesParked(cfg, st, 0, s);
    QueueLeavesPauses(cfg, DrainResuming(cfg, st, 0), 0);
  }

  /**
   An answered run, in any reachable state: it has its slot back, or it waits on the next channel and
   stays parked until that is closed. Nobody else's answer is lost.
   */
  lemma CardResumes(cfg: Config, floor: nat, steps: seq<Step>, s: SessionId)
    requires var st := After(cfg, floor, steps);
             s in st.paused && s in st.active && forall w :: w in st.resuming ==> w.session != s
    ensures var st := After(cfg, floor, steps);
            var out, me := Resume(cfg, st, s, st.active[s].runId), ResumeWaiter(s, st.channels);
            && (me in out.resuming ==> s in out.paused)
            && (me !in out.resuming ==> s !in out.paused)
            && (forall w :: w in st.resuming ==> w in out.resuming || Woken(w.ready) in out.log)
  {
    hide *;
    var st := After(cfg, floor, steps);
    EveryHistoryLedger(cfg, floor, steps);
    Channels(floor, st);
    ResumeUnfolds(cfg, st, s);
    var me := ResumeWaiter(s, st.channels);
    var longer := st.(resuming := st.resuming + [me], channels := st.channels + 1);
    MeOnly(st.resuming, me);
    DrainWaiter(cfg, longer, me);
    FateIs(longer, Drain(cfg, longer), me);
  }

  lemma ResumeUnfolds(cfg: Config, st: State, s: SessionId)
    requires s in st.paused && s in st.active
    ensures var out, me := Resume(cfg, st, s, st.active[s].runId), ResumeWaiter(s, st.channels);
            if |st.resuming| == 0 && Admits(cfg, Busy(st), s) then out == st.(paused := st.paused - {s})
            else out == Drain(cfg, st.(resuming := st.resuming + [me], channels := st.channels + 1))
  {
    hide Drain, Admits, Busy;
  }

  lemma MeOnly(resuming: seq<ResumeWaiter>, me: ResumeWaiter)
    requires forall w :: w in resuming ==> w.session != me.session
    ensures OnlyWaiter(resuming + [me], me) && me !in resuming && forall w :: w in resuming ==> w in resuming + [me]
  {
    assert (resuming + [me])[|resuming|] == me;
    assert forall k :: 0 <= k < |resuming| ==> resuming[k] in resuming;
  }

  lemma FateIs(st: State, out: State, me: ResumeWaiter)
    requires WaiterFate(st, out, me)
    ensures me in out.resuming ==> me.session in out.paused
    ensures me !in out.resuming ==> me.session !in out.paused
    ensures forall w :: w in st.resuming ==> w in out.resuming || Woken(w.ready) in out.log
  {
  }

  lemma Channels(floor: nat, st: State)
    requires Ledger(floor, st, {})
    ensures forall w :: w in st.resuming ==> w.ready < st.channels
    ensures forall i, j :: 0 <= i < j < |st.resuming| ==> st.resuming[i].ready != st.resuming[j].ready
  {
    hide Mentioned;
  }

  /** The only waiter of a chat is either still waiting, its run parked, or woken and its run not. */
  ghost predicate WaiterFate(st: State, out: State, me: ResumeWaiter) {
    && (me in out.resuming ==> me.session in out.paused)
    && (me !in out.resuming ==> me.session !in out.paused)
    && (forall w :: w in st.resuming ==> w in out.resuming || Woken(w.ready) in out.log)
    && st.log <= out.log
  }

  ghost predicate OnlyWaiter(resuming: seq<ResumeWaiter>, me: ResumeWaiter) {
    && me in resuming
    && (forall i, j :: 0 <= i < j < |resuming| && resuming[i].session == me.session ==>
         resuming[j].session != me.session)
    && (forall w :: w in resuming && w.session == me.session ==> w == me)
  }

  lemma {:induction false} ResumingFate(cfg: Config, st: State, i: nat, me: ResumeWaiter)
    requires i <= |st.resuming| && OnlyWaiter(st.resuming, me) && me.session in st.paused
    ensures WaiterFate(st, DrainResuming(cfg, st, i), me)
    decreases |st.resuming| - i
  {
    hide Admits, Busy;
    if i == |st.resuming| {
    } else if !Admits(cfg, Busy(st), st.resuming[i].session) {
      ResumingFate(cfg, st, i + 1, me);
    } else {
      WokenOut(st, i);
      var next := WakeAt(st, i);
      if st.resuming[i] == me {
        OnlyOnce(st.resuming, i, me);
        ResumingKeepsFree(cfg, next, i, me.session);
        FateAfter(st, next, DrainResuming(cfg, next, i), me);
      } else {
        StillOnly(st.resuming, i, me);
        ResumingFate(cfg, next, i, me);
      }
    }
  }

  lemma WokenOut(st: State, i: nat)
    requires i < |st.resuming|
    ensures var next := WakeAt(st, i);
            && next.resuming == Without(st.resuming, i) && next.paused == st.paused - {st.resuming[i].session}
            && next.log == st.log + [Woken(st.resuming[i].ready)]
            && forall w :: w in st.resuming ==> w in next.resuming || Woken(w.ready) in next.log
  {
    var next := WakeAt(st, i);
    forall w | w in st.resuming ensures w in next.resuming || Woken(w.ready) in next.log {
      var k :| 0 <= k < |st.resuming| && st.resuming[k] == w;
      assert k < i ==> next.resuming[k] == w;
      assert k > i ==> next.resuming[k - 1] == w;
    }
  }

  lemma OnlyOnce(resuming: seq<ResumeWaiter>, i: nat, me: ResumeWaiter)
    requires i < |resuming| && resuming[i] == me && OnlyWaiter(resuming, me)
    ensures forall w :: w in Without(resuming, i) ==> w.session != me.session
  {
    var rest := Without(resuming, i);
    assert forall k :: 0 <= k < |rest| ==> rest[k] == resuming[if k < i then k else k + 1];
  }

  lemma StillOnly(resuming: seq<ResumeWaiter>, i: nat, me: ResumeWaiter)
    requires i < |resuming| && resuming[i] != me && OnlyWaiter(resuming, me)
    ensures OnlyWaiter(Without(resuming, i), me) && resuming[i].session != me.session
  {
    var rest := Without(resuming, i);
    assert forall k :: 0 <= k < |rest| ==> rest[k] == resuming[if k < i then k else k + 1];
    assert resuming[i] in resuming;
    var k :| 0 <= k < |resuming| && resuming[k] == me;
    assert rest[if k < i then k else k - 1] == me;
  }

  /** A run without a waiter and not parked stays so. */
  lemma {:induction false} ResumingKeepsFree(cfg: Config, st: State, i: nat, s: SessionId)
    requires i <= |st.resuming| && s !in st.paused && forall w :: w in st.resuming ==> w.session != s
    ensures var out := DrainResuming(cfg, st, i);
            && s !in out.paused && (forall w :: w in out.resuming ==> w.session != s) && st.log <= out.log
            && forall w :: w in st.resuming ==> w in out.resuming || Woken(w.ready) in out.log
    decreases |st.resuming| - i
  {
    hide Admits, Busy;
    if i == |st.resuming| {
    } else if !Admits(cfg, Busy(st), st.resuming[i].session) {
      ResumingKeepsFree(cfg, st, i + 1, s);
    } else {
      WokenOut(st, i);
      WithoutFewer(st.resuming, i);
      ResumingKeepsFree(cfg, WakeAt(st, i), i, s);
      hide Without, WakeAt;
    }
  }

  lemma FateAfter(st: State, next: State, out: State, me: ResumeWaiter)
    requires st.log <= next.log <= out.log && me.session !in out.paused
    requires forall w :: w in out.resuming ==> w.session != me.session
    requires forall w :: w in st.resuming ==> w in next.resuming || Woken(w.ready) in next.log
    requires forall w :: w in next.resuming ==> w in out.resuming || Woken(w.ready) in out.log
    ensures WaiterFate(st, out, me)
  {
  }

  lemma DrainWaiter(cfg: Config, st: State, me: ResumeWaiter)
    requires me in st.resuming && me.session in st.paused && OnlyWaiter(st.resuming, me)
    ensures WaiterFate(st, Drain(cfg, st), me)
  {
    ResumingFate(cfg, st, 0, me);
    var mid := DrainResuming(cfg, st, 0);
    QueueLeavesPauses(cfg, mid, 0);
    DrainQueueDrained(cfg, mid, 0);
    QueueLeavesResuming(cfg, mid, 0);
    hide DrainResuming, DrainQueue, QueuedAs, FromQueue, OnlyWaiter;
    FateHolds(st, mid, Drain(cfg, st), me);
  }

  lemma FateHolds(st: State, mid: State, out: State, me: ResumeWaiter)
    requires WaiterFate(st, mid, me) && out.resuming == mid.resuming && out.paused == mid.paused && mid.log <= out.log
    ensures WaiterFate(st, out, me)
  {
  }

  lemma {:induction false} QueueLeavesResuming(cfg: Config, st: State, i: nat)
    requires i <= |st.queue|
    ensures DrainQueue(cfg, st, i).resuming == st.resuming
    decreases |st.queue| - i
  {
    hide Admits, Busy;
    if i == |st.queue| || |Busy(st)| >= cfg.maxConcurrent {
    } else if !Admits(cfg, Busy(st), st.queue[i].session) {
      QueueLeavesResuming(cfg, st, i + 1);
    } else {
      QueueLeavesResuming(cfg, StartAt(st, i), i);
    }
  }
}
