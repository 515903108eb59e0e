/**
 The life of a run id over every history of the scheduler: where each minted id is, how often it
 is reported, and why a late finisher is fenced.
 */
module SchedulerLifecycle {
  import opened Common
  import opened SchedulerSpec

  // ---- What may follow what ----

  /** `later` may come after `earlier` in the scheduler's log. */
  predicate Follows(earlier: Event, later: Event) {
    match (earlier, later)
    case (Started(_, a), Started(_, b)) => a != b
    case (Stopped(_, a), Stopped(_, b)) => a != b
    case (Stopped(_, a), Started(_, b)) => a != b
    case (Started(s, a), Stopped(t, b)) => a == b ==> s == t
    case (Woken(a), Woken(b)) => a != b
    case _ => true
  }

  ghost predicate WellOrdered(log: seq<Event>) {
    forall i, j :: 0 <= i < j < |log| ==> Follows(log[i], log[j])
  }

  predicate StartsIn(e: Event, s: SessionId) {
    e.Started? && e.session == s
  }

  /** A stop never comes after a later start of the same session: such a run is never reported. */
  ghost predicate StopsBeforeNextStart(log: seq<Event>) {
    forall i, k, j :: 0 <= i < k < j < |log| && log[i].Started? && StartsIn(log[k], log[i].session) && log[j].Stopped?
      ==> log[j].run != log[i].run
  }

  /** Run r is the latest the session started. */
  ghost predicate LatestStart(log: seq<Event>, s: SessionId, r: RunId) {
    exists i :: 0 <= i < |log| && log[i] == Started(s, r) && forall k :: i < k < |log| ==> !StartsIn(log[k], s)
  }

  predicate Names(e: Event, r: RunId) {
    !e.Woken? && e.run == r
  }

  ghost predicate Mentioned(log: seq<Event>, r: RunId) {
    exists e :: e in log && Names(e, r)
  }

  // ---- The ledger ----

  ghost predicate IsQueued(queue: seq<QueuedRun>, r: RunId) {
    exists q :: q in queue && q.runId == r
  }

  ghost predicate QueueSound(floor: nat, ids: nat, queue: seq<QueuedRun>, log: seq<Event>) {
    && (forall i, j :: 0 <= i < j < |queue| ==> queue[i].runId != queue[j].runId)
    && (forall q :: q in queue ==> floor < q.runId <= ids && !Mentioned(log, q.runId))
  }

  ghost predicate ActiveSound(active: map<SessionId, ActiveRun>, log: seq<Event>) {
    forall s :: s in active ==>
      && LatestStart(log, s, active[s].runId)
      && forall t :: Stopped(t, active[s].runId) !in log
  }

  ghost predicate ReportsSound(stopped: set<(SessionId, RunId)>, log: seq<Event>) {
    forall s: SessionId, r: RunId :: (s, r) in stopped <==> Stopped(s, r) in log
  }

  ghost predicate WaitersSound(resuming: seq<ResumeWaiter>, channels: nat, log: seq<Event>) {
    && (forall i, j :: 0 <= i < j < |resuming| ==> resuming[i].ready != resuming[j].ready)
    && (forall w :: w in resuming ==> w.ready < channels && Woken(w.ready) !in log)
    && (forall k: nat :: Woken(k) in log ==> k < channels)
  }

  ghost predicate LogBounded(floor: nat, ids: nat, log: seq<Event>) {
    floor <= ids && forall e :: e in log && !e.Woken? ==> floor < e.run <= ids
  }

  /** `loose` is minted and in hand: neither queued nor in the log. */
  ghost predicate Accounted(floor: nat, ids: nat, queue: seq<QueuedRun>, log: seq<Event>, loose: set<RunId>) {
    && (forall r :: floor < r <= ids ==> IsQueued(queue, r) || Mentioned(log, r) || r in loose)
    && (forall r :: r in loose ==> floor < r <= ids && !IsQueued(queue, r) && !Mentioned(log, r))
  }

  ghost predicate Ledger(floor: nat, st: State, loose: set<RunId>) {
    && WellOrdered(st.log)
    && StopsBeforeNextStart(st.log)
    && LogBounded(floor, st.ids, st.log)
    && QueueSound(floor, st.ids, st.queue, st.log)
    && ActiveSound(st.active, st.log)
    && ReportsSound(st.stoppedRuns, st.log)
    && WaitersSound(st.resuming, st.channels, st.log)
    && Accounted(floor, st.ids, st.queue, st.log, loose)
  }

  // ---- Appending one event ----

  lemma Append(log: seq<Event>, e: Event)
    requires WellOrdered(log)
    requires forall x :: x in log ==> Follows(x, e)
    ensures WellOrdered(log + [e])
  {
  }

  /** Appending anything but a start of s keeps the latest start of s. */
  lemma LatestAppend(log: seq<Event>, e: Event, s: SessionId, r: RunId)
    requires LatestStart(log, s, r) && !StartsIn(e, s)
    ensures LatestStart(log + [e], s, r)
  {
    var i :| 0 <= i < |log| && log[i] == Started(s, r) && forall k :: i < k < |log| ==> !StartsIn(log[k], s);
    assert (log + [e])[i] == Started(s, r);
  }

  lemma LatestNow(log: seq<Event>, s: SessionId, r: RunId)
    ensures LatestStart(log + [Started(s, r)], s, r)
  {
    assert (log + [Started(s, r)])[|log|] == Started(s, r);
  }

  /** No start of run r comes before a later start of its session, if r is the latest or unknown. */
  lemma NotOvertaken(log: seq<Event>, s: SessionId, r: RunId, i: nat, k: nat)
    requires WellOrdered(log) && (!Mentioned(log, r) || LatestStart(log, s, r))
    requires i < k < |log| && log[i].Started? && StartsIn(log[k], log[i].session)
    ensures log[i].run != r
  {
    assert log[i] in log && Names(log[i], log[i].run);
    if LatestStart(log, s, r) {
      var n :| 0 <= n < |log| && log[n] == Started(s, r) && forall m :: n < m < |log| ==> !StartsIn(log[m], s);
      assert i < n ==> Follows(log[i], log[n]);
      assert n < i ==> Follows(log[n], log[i]);
    }
  }

  lemma StopsAppend(log: seq<Event>, e: Event)
    requires StopsBeforeNextStart(log) && WellOrdered(log)
    requires e.Stopped? ==> !Mentioned(log, e.run) || LatestStart(log, e.session, e.run)
    ensures StopsBeforeNextStart(log + [e])
  {
    hide WellOrdered, Mentioned, LatestStart, Follows;
    var longer := log + [e];
    forall i, k, j | 0 <= i < k < j < |longer| && longer[i].Started? && StartsIn(longer[k], longer[i].session)
        && longer[j].Stopped?
      ensures longer[j].run != longer[i].run
    {
      if j == |log| { NotOvertaken(log, e.session, e.run, i, k); }
    }
  }

  lemma ActiveAppend(active: map<SessionId, ActiveRun>, log: seq<Event>, e: Event)
    requires ActiveSound(active, log) && !e.Started?
    requires e.Stopped? ==> forall s :: s in active ==> active[s].runId != e.run
    ensures ActiveSound(active, log + [e])
  {
    forall s | s in active ensures LatestStart(log + [e], s, active[s].runId) {
      LatestAppend(log, e, s, active[s].runId);
    }
  }

  lemma ActiveStart(active: map<SessionId, ActiveRun>, log: seq<Event>, s: SessionId, run: ActiveRun)
    requires ActiveSound(active, log) && !Mentioned(log, run.runId)
    ensures ActiveSound(active[s := run], log + [Started(s, run.runId)])
  {
    var e := Started(s, run.runId);
    NotMentioned(log, run.runId);
    LatestNow(log, s, run.runId);
    forall k | k in active && k != s ensures LatestStart(log + [e], k, active[k].runId) {
      LatestAppend(log, e, k, active[k].runId);
    }
  }

  lemma ActiveInLog(active: map<SessionId, ActiveRun>, log: seq<Event>, s: SessionId)
    requires ActiveSound(active, log) && s in active
    ensures Started(s, active[s].runId) in log && Mentioned(log, active[s].runId)
  {
    assert LatestStart(log, s, active[s].runId);
    assert Names(Started(s, active[s].runId), active[s].runId);
  }

  lemma MentionedAppend(log: seq<Event>, e: Event, r: RunId)
    ensures Mentioned(log + [e], r) <==> Mentioned(log, r) || Names(e, r)
  {
    if Names(e, r) { assert e in log + [e]; }
    if Mentioned(log, r) {
      var x :| x in log && Names(x, r);
      assert x in log + [e];
    }
  }

  lemma NotMentioned(log: seq<Event>, r: RunId)
    requires !Mentioned(log, r)
    ensures forall s :: Started(s, r) !in log && Stopped(s, r) !in log
    ensures forall e :: e in log ==> !Names(e, r)
  {
    forall s ensures Started(s, r) !in log && Stopped(s, r) !in log {
      assert Names(Started(s, r), r) && Names(Stopped(s, r), r);
    }
  }

  lemma QueueAfter(floor: nat, ids: nat, queue: seq<QueuedRun>, log: seq<Event>, e: Event)
    requires QueueSound(floor, ids, queue, log)
    requires forall q :: q in queue ==> !Names(e, q.runId)
    ensures QueueSound(floor, ids, queue, log + [e])
  {
    forall q | q in queue ensures !Mentioned(log + [e], q.runId) { MentionedAppend(log, e, q.runId); }
  }

  lemma AccountedAfter(floor: nat, ids: nat, queue: seq<QueuedRun>, log: seq<Event>, loose: set<RunId>, e: Event)
    requires Accounted(floor, ids, queue, log, loose)
    ensures Accounted(floor, ids, queue, log + [e], if e.Woken? then loose else loose - {e.run})
  {
    forall r ensures Mentioned(log + [e], r) <==> Mentioned(log, r) || Names(e, r) { MentionedAppend(log, e, r); }
  }

  // ---- The primitive moves ----

  lemma LedgerMint(floor: nat, st: State)
    requires Ledger(floor, st, {})
    ensures Ledger(floor, st.(ids := st.ids + 1), {st.ids + 1})
  {
    assert forall e :: e in st.log ==> !Names(e, st.ids + 1);
    assert forall q :: q in st.queue ==> q.runId != st.ids + 1;
  }

  lemma LedgerEnqueue(floor: nat, st: State, entry: QueuedRun)
    requires Ledger(floor, st, {entry.runId})
    ensures Ledger(floor, Enqueue(st, entry), {})
  {
    var queue := st.queue + [entry];
    assert entry in queue;
    forall r ensures IsQueued(queue, r) <==> IsQueued(st.queue, r) || r == entry.runId {
      if IsQueued(st.queue, r) {
        var q :| q in st.queue && q.runId == r;
        assert q in queue;
      }
    }
    forall i, j | 0 <= i < j < |queue| ensures queue[i].runId != queue[j].runId {
      if j == |st.queue| { assert st.queue[i] in st.queue; }
    }
  }

  lemma LedgerTake(floor: nat, st: State, i: nat)
    requires Ledger(floor, st, {}) && i < |st.queue|
    ensures Ledger(floor, st.(queue := Without(st.queue, i)), {st.queue[i].runId})
  {
    TakeFromQueue(floor, st.ids, st.queue, st.log, i);
  }

  lemma TakeFromQueue(floor: nat, ids: nat, queue: seq<QueuedRun>, log: seq<Event>, i: nat)
    requires QueueSound(floor, ids, queue, log) && i < |queue|
    requires Accounted(floor, ids, queue, log, {})
    ensures QueueSound(floor, ids, Without(queue, i), log)
    ensures Accounted(floor, ids, Without(queue, i), log, {queue[i].runId})
  {
    var r0, rest := queue[i].runId, Without(queue, i);
    assert queue[i] in queue;
    WithoutQueued(queue, i);
    hide Mentioned, Without;
  }

  lemma WithoutQueued(queue: seq<QueuedRun>, i: nat)
    requires i < |queue|
    requires forall a, b :: 0 <= a < b < |queue| ==> queue[a].runId != queue[b].runId
    ensures var rest := Without(queue, i);
            && (forall a, b :: 0 <= a < b < |rest| ==> rest[a].runId != rest[b].runId)
            && (forall q :: q in rest ==> q in queue)
            && (forall r :: IsQueued(rest, r) <==> IsQueued(queue, r) && r != queue[i].runId)
  {
    var rest := Without(queue, i);
    assert forall k :: 0 <= k < |rest| ==> rest[k] == queue[if k < i then k else k + 1];
    forall r ensures IsQueued(rest, r) <==> IsQueued(queue, r) && r != queue[i].runId {
      if IsQueued(queue, r) && r != queue[i].runId {
        var k :| 0 <= k < |queue| && queue[k].runId == r;
        assert queue[k] == rest[if k < i then k else k - 1];
      }
      if IsQueued(rest, r) {
        var k :| 0 <= k < |rest| && rest[k].runId == r;
        assert rest[k] in queue;
      }
    }
  }

  lemma LedgerStart(floor: nat, st: State, entry: QueuedRun)
    requires Ledger(floor, st, {entry.runId})
    ensures Ledger(floor, StartRun(st, entry), {})
  {
    var e := Started(entry.session, entry.runId);
    NotMentioned(st.log, entry.runId);
    Append(st.log, e);
    StopsAppend(st.log, e);
    ActiveStart(st.active, st.log, entry.session, ActiveRun(entry.runId, "", entry.messageId, entry.source));
    QueueAfter(floor, st.ids, st.queue, st.log, e);
    AccountedAfter(floor, st.ids, st.queue, st.log, {entry.runId}, e);
    assert {entry.runId} - {entry.runId} == {};
    hide Follows, WellOrdered, StopsBeforeNextStart, ActiveSound, QueueSound, Accounted;
  }

  /** Reporting a run taken out of the queue. */
  lemma LedgerCancel(floor: nat, st: State, s: SessionId, r: RunId)
    requires Ledger(floor, st, {r})
    ensures Ledger(floor, ReportStopped(st, s, r), {})
  {
    var e := Stopped(s, r);
    NotMentioned(st.log, r);
    Append(st.log, e);
    StopsAppend(st.log, e);
    forall k | k in st.active ensures st.active[k].runId != r { ActiveInLog(st.active, st.log, k); }
    ActiveAppend(st.active, st.log, e);
    QueueAfter(floor, st.ids, st.queue, st.log, e);
    AccountedAfter(floor, st.ids, st.queue, st.log, {r}, e);
    assert {r} - {r} == {};
    hide Follows, WellOrdered, StopsBeforeNextStart, ActiveSound, QueueSound, Accounted;
  }

  /** Reporting a run that was active and has been retired. */
  lemma LedgerReport(floor: nat, st: State, s: SessionId, r: RunId)
    requires Ledger(floor, st, {})
    requires LatestStart(st.log, s, r) && forall t :: Stopped(t, r) !in st.log
    requires forall k :: k in st.active ==> st.active[k].runId != r
    ensures Ledger(floor, ReportStopped(st, s, r), {})
  {
    var e := Stopped(s, r);
    assert Started(s, r) in st.log && Names(Started(s, r), r);
    forall x | x in st.log ensures Follows(x, e) {
      if x.Started? && x.run == r { StartedOnce(st.log, s, x.session, r); }
    }
    Append(st.log, e);
    StopsAppend(st.log, e);
    ActiveAppend(st.active, st.log, e);
    QueueAfter(floor, st.ids, st.queue, st.log, e);
    AccountedAfter(floor, st.ids, st.queue, st.log, {}, e);
    assert {} - {r} == {};
    hide Follows, WellOrdered, StopsBeforeNextStart, ActiveSound, QueueSound, Accounted;
  }

  lemma StartedOnce(log: seq<Event>, s: SessionId, t: SessionId, r: RunId)
    requires WellOrdered(log) && Started(s, r) in log && Started(t, r) in log
    ensures s == t
  {
    var i :| 0 <= i < |log| && log[i] == Started(s, r);
    var j :| 0 <= j < |log| && log[j] == Started(t, r);
    assert i == j;
  }

  lemma LedgerWake(floor: nat, st: State, i: nat)
    requires Ledger(floor, st, {}) && i < |st.resuming|
    ensures Ledger(floor, WakeAt(st, i), {})
  {
    var w := st.resuming[i];
    var e := Woken(w.ready);
    Append(st.log, e);
    StopsAppend(st.log, e);
    ActiveAppend(st.active, st.log, e);
    QueueAfter(floor, st.ids, st.queue, st.log, e);
    AccountedAfter(floor, st.ids, st.queue, st.log, {}, e);
    WaitersWithout(st.resuming, st.channels, st.log, i);
    forall x | x in Without(st.resuming, i) ensures x.ready != w.ready {
      var k :| 0 <= k < |st.resuming| - 1 && Without(st.resuming, i)[k] == x;
      assert x == st.resuming[if k < i then k else k + 1];
    }
    hide Follows, WellOrdered, StopsBeforeNextStart, ActiveSound, QueueSound, Accounted;
  }

  lemma WaitersWithout(resuming: seq<ResumeWaiter>, channels: nat, log: seq<Event>, i: nat)
    requires WaitersSound(resuming, channels, log) && i < |resuming|
    ensures WaitersSound(Without(resuming, i), channels, log)
  {
    var rest := Without(resuming, i);
    forall a, b | 0 <= a < b < |rest| ensures rest[a].ready != rest[b].ready {
      var a', b' := if a < i then a else a + 1, if b < i then b else b + 1;
      assert rest[a] == resuming[a'] && rest[b] == resuming[b'];
    }
  }

  lemma LedgerRetire(floor: nat, st: State, s: SessionId)
    requires Ledger(floor, st, {}) && s in st.active
    ensures Ledger(floor, Retire(st, s), {})
    ensures var r := st.active[s].runId; forall k :: k in Retire(st, s).active ==> Retire(st, s).active[k].runId != r
  {
    var k := WaiterOf(st.resuming, s, 0);
    if k < |st.resuming| { WaitersWithout(st.resuming, st.channels, st.log, k); }
    forall t | t in st.active && t != s ensures st.active[t].runId != st.active[s].runId {
      ActiveInLog(st.active, st.log, s);
      ActiveInLog(st.active, st.log, t);
      if st.active[t].runId == st.active[s].runId { StartedOnce(st.log, s, t, st.active[s].runId); }
    }
  }

  // ---- Draining ----

  lemma {:induction false} DrainResumingLedger(cfg: Config, floor: nat, st: State, i: nat)
    requires i <= |st.resuming| && Ledger(floor, st, {})
    ensures Ledger(floor, DrainResuming(cfg, st, i), {})
    ensures st.log <= DrainResuming(cfg, st, i).log
    decreases |st.resuming| - i
  {
    hide Ledger, Admits, Busy;
    if i == |st.resuming| {
    } else if !Admits(cfg, Busy(st), st.resuming[i].session) {
      DrainResumingLedger(cfg, floor, st, i + 1);
    } else {
      LedgerWake(floor, st, i);
      DrainResumingLedger(cfg, floor, WakeAt(st, i), i);
    }
  }

  lemma {:induction false} DrainQueueLedger(cfg: Config, floor: nat, st: State, i: nat)
    requires i <= |st.queue| && Ledger(floor, st, {})
    ensures Ledger(floor, DrainQueue(cfg, st, i), {})
    ensures st.log <= DrainQueue(cfg, st, i).log
    decreases |st.queue| - i
  {
    hide Ledger, Admits, Busy;
    if i == |st.queue| || |Busy(st)| >= cfg.maxConcurrent {
    } else if !Admits(cfg, Busy(st), st.queue[i].session) {
      DrainQueueLedger(cfg, floor, st, i + 1);
    } else {
      LedgerTake(floor, st, i);
      LedgerStart(floor, st.(queue := Without(st.queue, i)), st.queue[i]);
      DrainQueueLedger(cfg, floor, StartAt(st, i), i);
    }
  }

  lemma DrainLedger(cfg: Config, floor: nat, st: State)
    requires Ledger(floor, st, {})
    ensures Ledger(floor, Drain(cfg, st), {}) && st.log <= Drain(cfg, st).log
  {
    hide Ledger;
    DrainResumingLedger(cfg, floor, st, 0);
    DrainQueueLedger(cfg, floor, DrainResuming(cfg, st, 0), 0);
  }

  // ---- Every step ----

  lemma LedgerPending(floor: nat, st: State, st': State, loose: set<RunId>)
    requires Ledger(floor, st, loose)
    requires st' == st.(pending := st'.pending, unreachable := st'.unreachable, paused := st'.paused)
    ensures Ledger(floor, st', loose)
  {
  }

  lemma StartOrEnqueueLedger(cfg: Config, floor: nat, st: State, entry: QueuedRun)
    requires Ledger(floor, st, {entry.runId})
    ensures var out := StartOrEnqueue(cfg, st, entry); Ledger(floor, out, {}) && st.log <= out.log
  {
    hide Ledger, Admits;
    if Admits(cfg, Busy(st), entry.session) { LedgerStart(floor, st, entry); } else { LedgerEnqueue(floor, st, entry); }
  }

  lemma SubmitLedger(cfg: Config, floor: nat, st: State, sub: Submission)
    requires Ledger(floor, st, {})
    ensures var out := Submit(cfg, st, sub).state; Ledger(floor, out, {}) && st.log <= out.log
  {
    hide Ledger, Admits, IdenticalFrom;
    if sub.open && sub.session !in st.unreachable && !(sub.session in st.active || sub.running) && sub.stored {
      var clear := DropPending(st, sub.session);
      LedgerPending(floor, st, clear, {});
      LedgerMint(floor, clear);
      var minted := clear.(ids := clear.ids + 1);
      StartOrEnqueueLedger(cfg, floor, minted, QueuedRun(sub.session, minted.ids, sub.messageId, "", sub.source));
    } else {
      LedgerPending(floor, st, Submit(cfg, st, sub).state, {});
    }
  }

  lemma PromoteLedger(floor: nat, st: State, s: SessionId)
    requires Ledger(floor, st, {}) && |Pending(st, s)| > 0
    ensures Ledger(floor, Promote(st, s), {})
  {
    hide Ledger;
    var taken := st.(pending := st.pending - {s});
    LedgerPending(floor, st, taken, {});
    LedgerMint(floor, taken);
    LedgerEnqueue(floor, taken.(ids := st.ids + 1), NextRun(st, s));
  }

  lemma SettleLedger(floor: nat, st: State, s: SessionId, r: RunId, reason: string)
    requires Ledger(floor, st, {}) && s in st.active && st.active[s].runId == r
    ensures var out := Settle(st, s, r, reason); Ledger(floor, out, {}) && st.log <= out.log
  {
    LedgerRetire(floor, st, s);
    assert LatestStart(st.log, s, r) && forall t :: Stopped(t, r) !in st.log;
    hide Ledger, ReportStopped, Retire, Promote, LatestStart;
    var held := if FinishReason(st, s, reason) == "model_unreachable" then st.unreachable + {s} else st.unreachable;
    var gone := Retire(st, s).(unreachable := held);
    LedgerPending(floor, Retire(st, s), gone, {});
    if |Pending(gone, s)| > 0 && s !in held && st.active[s].stopReason == "" {
      PromoteLedger(floor, gone, s);
      LedgerReport(floor, Promote(gone, s), s, r);
    } else {
      LedgerReport(floor, gone, s, r);
    }
  }

  /** An active run has an id, so owning the session means being its active run. */
  lemma OwnerIsActive(floor: nat, st: State, s: SessionId, r: RunId)
    requires Ledger(floor, st, {})
    ensures OwnsSession(st, s, r) <==> s in st.active && st.active[s].runId == r
  {
    if s in st.active { ActiveInLog(st.active, st.log, s); }
  }

  lemma {:induction false} ReleaseLedger(cfg: Config, floor: nat, st: State, c: ConnectionId, order: seq<SessionId>)
    requires Ledger(floor, st, {})
    ensures var out := ReleaseModel(cfg, st, c, order); Ledger(floor, out, {}) && st.log <= out.log
    decreases |order|
  {
    hide Ledger, Admits;
    if order != [] {
      var s := order[0];
      if s in st.unreachable && cfg.connectionOf(s) == c {
        var free := st.(unreachable := st.unreachable - {s});
        LedgerPending(floor, st, free, {});
        if |Pending(free, s)| > 0 && s !in free.active {
          var taken := free.(pending := free.pending - {s});
          LedgerPending(floor, free, taken, {});
          LedgerMint(floor, taken);
          StartOrEnqueueLedger(cfg, floor, taken.(ids := free.ids + 1), NextRun(free, s));
        }
        ReleaseLedger(cfg, floor, ReleaseSession(cfg, st, s), c, order[1..]);
      } else {
        ReleaseLedger(cfg, floor, st, c, order[1..]);
      }
    }
  }

  lemma {:induction false} StopQueuedLedger(floor: nat, st: State, all: bool, target: SessionId, i: nat)
    requires i <= |st.queue| && Ledger(floor, st, {})
    ensures var out := StopQueued(st, all, target, i); Ledger(floor, out, {}) && st.log <= out.log
    decreases |st.queue| - i
  {
    hide Ledger;
    if i == |st.queue| {
    } else if !Targets(all, target, st.queue[i].session) {
      StopQueuedLedger(floor, st, all, target, i + 1);
    } else {
      var entry := st.queue[i];
      var taken := st.(queue := Without(st.queue, i));
      var dropped := DropPending(taken, entry.session);
      LedgerTake(floor, st, i);
      LedgerPending(floor, taken, dropped, {entry.runId});
      LedgerCancel(floor, dropped, entry.session, entry.runId);
      StopQueuedLedger(floor, ReportStopped(dropped, entry.session, entry.runId), all, target, i);
    }
  }

  lemma StopActiveLedger(floor: nat, st: State, all: bool, target: SessionId, reason: SessionId -> string)
    requires Ledger(floor, st, {})
    ensures var out := StopActive(st, all, target, reason); Ledger(floor, out, {}) && out.log == st.log
  {
    MarkedSound(st.active, st.log, all, target, reason);
    hide Marked, Returned, Mentioned, WellOrdered, StopsBeforeNextStart, LogBounded, QueueSound, ReportsSound,
        WaitersSound, Accounted, ActiveSound;
  }

  lemma MarkedSound(active: map<SessionId, ActiveRun>, log: seq<Event>, all: bool, target: SessionId,
                    reason: SessionId -> string)
    requires ActiveSound(active, log)
    ensures ActiveSound(Marked(active, active.Keys, all, target, reason), log)
  {
    var marked := Marked(active, active.Keys, all, target, reason);
    assert forall s :: s in marked ==> s in active && marked[s].runId == active[s].runId;
    hide Marked, LatestStart;
  }

  lemma StopLedger(floor: nat, st: State, all: bool, target: SessionId, reason: SessionId -> string)
    requires Ledger(floor, st, {})
    ensures var out := Stop(st, all, target, reason); Ledger(floor, out, {}) && st.log <= out.log
  {
    var first := StopActive(st, all, target, reason);
    StopActiveLedger(floor, st, all, target, reason);
    hide Ledger, StopActive, StopQueued;
    StopQueuedLedger(floor, first, all, target, 0);
    LedgerPending(floor, StopQueued(first, all, target, 0), Stop(st, all, target, reason), {});
  }

  lemma LedgerWait(floor: nat, st: State, s: SessionId)
    requires Ledger(floor, st, {})
    ensures Ledger(floor, st.(resuming := st.resuming + [ResumeWaiter(s, st.channels)], channels := st.channels + 1),
            {})
  {
  }

  lemma ResumeLedger(cfg: Config, floor: nat, st: State, s: SessionId, r: RunId)
    requires Ledger(floor, st, {})
    ensures var out := Resume(cfg, st, s, r); Ledger(floor, out, {}) && st.log <= out.log
  {
    hide Ledger, Drain, Admits;
    if s !in st.active || st.active[s].runId != r || s !in st.paused {
    } else if |st.resuming| == 0 && Admits(cfg, Busy(st), s) {
      LedgerPending(floor, st, Resume(cfg, st, s, r), {});
    } else {
      var longer := st.(resuming := st.resuming + [ResumeWaiter(s, st.channels)], channels := st.channels + 1);
      LedgerWait(floor, st, s);
      DrainLedger(cfg, floor, longer);
    }
  }

  lemma StepLedger(cfg: Config, floor: nat, st: State, step: Step)
    requires Ledger(floor, st, {})
    ensures Ledger(floor, Apply(cfg, st, step), {}) && st.log <= Apply(cfg, st, step).log
  {
    hide Ledger, Admits, Drain, Submit, Resume, ReleaseModel, Stop, Settle, Retire;
    match step
    case DoSubmit(sub) => SubmitLedger(cfg, floor, st, sub);
    case DoFinish(s, r, reason) =>
      OwnerIsActive(floor, st, s, r);
      if OwnsSession(st, s, r) {
        SettleLedger(floor, st, s, r, reason);
        DrainLedger(cfg, floor, Settle(st, s, r, reason));
      }
    case DoForceFinish(s, r) =>
      if s in st.active && st.active[s].runId == r {
        ForceLedger(floor, st, s, r);
        DrainLedger(cfg, floor, ReportStopped(Retire(st, s), s, r));
      }
    case DoPause(s, r) =>
      if s in st.active && st.active[s].runId == r && s !in st.paused {
        LedgerPending(floor, st, st.(paused := st.paused + {s}), {});
        DrainLedger(cfg, floor, st.(paused := st.paused + {s}));
      }
    case DoResume(s, r) => ResumeLedger(cfg, floor, st, s, r);
    case DoCancelResume(ready) => CancelLedger(floor, st, ready);
    case DoRelease(c, order) => ReleaseLedger(cfg, floor, st, c, order);
    case DoStop(all, target, reasons) => StopLedger(floor, st, all, target, reasons);
    case DoHold(s) => LedgerPending(floor, st, Apply(cfg, st, step), {});
    case DoRestore(s, entries) => LedgerPending(floor, st, Apply(cfg, st, step), {});
    case DoBoundary(s, r) => LedgerPending(floor, st, Apply(cfg, st, step), {});
  }

  lemma ForceLedger(floor: nat, st: State, s: SessionId, r: RunId)
    requires Ledger(floor, st, {}) && s in st.active && st.active[s].runId == r
    ensures var out := ReportStopped(Retire(st, s), s, r); Ledger(floor, out, {}) && st.log <= out.log
  {
    LedgerRetire(floor, st, s);
    LedgerReport(floor, Retire(st, s), s, r);
  }

  lemma CancelLedger(floor: nat, st: State, ready: nat)
    requires Ledger(floor, st, {})
    ensures Ledger(floor, CancelResume(st, ready), {})
  {
    var k := ChannelAt(st.resuming, ready, 0);
    if k < |st.resuming| { WaitersWithout(st.resuming, st.channels, st.log, k); }
  }

  /**
   Over every history: each run id is started at most once, reported stopped at most once and never
   started after that; each resume channel is closed at most once; and every id minted is queued or
   has been started or stopped, never both.
   */
  lemma {:induction false} EveryHistoryLedger(cfg: Config, floor: nat, steps: seq<Step>)
    ensures Ledger(floor, After(cfg, floor, steps), {})
    decreases |steps|
  {
    if steps != [] {
      EveryHistoryLedger(cfg, floor, steps[..|steps| - 1]);
      hide Ledger;
      StepLedger(cfg, floor, After(cfg, floor, steps[..|steps| - 1]), steps[|steps| - 1]);
    }
  }

  lemma {:induction false} LogOnlyGrows(cfg: Config, floor: nat, steps: seq<Step>, more: seq<Step>)
    ensures After(cfg, floor, steps).log <= After(cfg, floor, steps + more).log
    decreases |more|
  {
    hide Apply, Ledger;
    if more == [] {
      assert steps + more == steps;
    } else {
      var all, last := steps + more, more[|more| - 1];
      var before := more[..|more| - 1];
      LogOnlyGrows(cfg, floor, steps, before);
      EveryHistoryLedger(cfg, floor, steps + before);
      assert all[..|all| - 1] == steps + before && all[|all| - 1] == last;
      StepLedger(cfg, floor, After(cfg, floor, steps + before), last);
    }
  }

  /** Once a run has been reported stopped, a finish of it changes nothing, however late. */
  lemma FencedForever(cfg: Config, floor: nat, steps: seq<Step>, more: seq<Step>, s: SessionId, t: SessionId,
                      r: RunId, reason: string)
    requires Stopped(s, r) in After(cfg, floor, steps).log
    ensures var st := After(cfg, floor, steps + more);
            Finish(cfg, st, t, r, reason) == st && ForceFinish(cfg, st, t, r) == st
  {
    var st := After(cfg, floor, steps + more);
    LogOnlyGrows(cfg, floor, steps, more);
    EveryHistoryLedger(cfg, floor, steps + more);
    assert Stopped(s, r) in st.log;
    OwnerIsActive(floor, st, t, r);
  }

  /** A run whose session starts another run before it was reported is never reported at all. */
  lemma DisplacedNeverReported(cfg: Config, floor: nat, steps: seq<Step>, more: seq<Step>, i: nat, k: nat)
    requires var log := After(cfg, floor, steps).log;
             && i < k < |log| && log[i].Started? && StartsIn(log[k], log[i].session)
             && forall t :: Stopped(t, log[i].run) !in log
    ensures var r := After(cfg, floor, steps).log[i].run;
            forall t :: Stopped(t, r) !in After(cfg, floor, steps + more).log
  {
    var log, later := After(cfg, floor, steps).log, After(cfg, floor, steps + more).log;
    LogOnlyGrows(cfg, floor, steps, more);
    EveryHistoryLedger(cfg, floor, steps + more);
    assert later[i] == log[i] && later[k] == log[k];
    forall j | 0 <= j < |later| ensures later[j].Stopped? ==> later[j].run != log[i].run {
      assert j < |log| ==> later[j] == log[j] && log[j] in log;
    }
  }
}
