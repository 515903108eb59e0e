/**
 The scheduler object itself: the fields its mutex guards, edited in place, one method for each
 locked section. Each method is proved to compute the function of `SchedulerSpec` of that section.
 */
module SchedulerObject {
  import opened Common
  import opened SchedulerSpec

  class Scheduler {
    const cfg: Config
    var active: map<SessionId, ActiveRun>
    var queue: seq<QueuedRun>
    var pending: map<SessionId, seq<QueuedRun>>
    var unreachable: set<SessionId>
    var stoppedRuns: set<(SessionId, RunId)>
    var paused: set<SessionId>
    var resuming: seq<ResumeWaiter>
    var ids: nat
    var channels: nat
    var log: seq<Event>

    function St(): State
      reads this
    {
      State(active, queue, pending, unreachable, stoppedRuns, paused, resuming, ids, channels, log)
    }

    constructor (cfg: Config, floor: nat)
      ensures St() == Init(floor) && this.cfg == cfg
    {
      this.cfg := cfg;
      active, queue, pending, unreachable := map[], [], map[], {};
      stoppedRuns, paused, resuming := {}, {}, [];
      ids, channels, log := floor, 0, [];
    }

    // ---- Admission ----

    static lemma OneLess(counted: set<SessionId>, todo: set<SessionId>, s: SessionId)
      requires s in todo
      ensures |counted - (todo - {s})| == |counted - todo| + if s in counted then 1 else 0
    {
      if s in counted {
        assert counted - (todo - {s}) == counted - todo + {s};
      } else {
        assert counted - (todo - {s}) == counted - todo;
      }
    }

    method RunningLocked() returns (count: nat)
      ensures count == |Busy(St())|
    {
      count := 0;
      var todo := active.Keys;
      while todo != {}
        invariant todo <= active.Keys && count == |Busy(St()) - todo|
        decreases todo
      {
        var s :| s in todo;
        if s !in paused {
          count := count + 1;
        }
        OneLess(Busy(St()), todo, s);
        todo := todo - {s};
      }
      assert Busy(St()) - {} == Busy(St());
    }

    method ConnectionRunsLocked(c: ConnectionId) returns (count: nat)
      ensures count == |OnConnection(cfg, Busy(St()), c)|
    {
      count := 0;
      var todo := active.Keys;
      ghost var here := OnConnection(cfg, Busy(St()), c);
      hide ConnectionLimit;
      while todo != {}
        invariant todo <= active.Keys && count == |here - todo|
        decreases todo
      {
        var s :| s in todo;
        if s !in paused && cfg.connectionOf(s) == c {
          count := count + 1;
        }
        assert (s in here) == (s !in paused && cfg.connectionOf(s) == c);
        OneLess(here, todo, s);
        todo := todo - {s};
      }
      assert here - {} == here;
    }

    method AdmitLocked(s: SessionId) returns (ok: bool)
      ensures ok == Admits(cfg, Busy(St()), s)
    {
      var running := RunningLocked();
      if running >= cfg.maxConcurrent {
        return false;
      }
      var count := ConnectionRunsLocked(cfg.connectionOf(s));
      return count < ConnectionLimit(cfg, cfg.connectionOf(s));
    }

    // ---- One run ----

    method StartLocked(entry: QueuedRun)
      modifies this
      ensures St() == StartRun(old(St()), entry)
    {
      active := active[entry.session := ActiveRun(entry.runId, "", entry.messageId, entry.source)];
      log := log + [Started(entry.session, entry.runId)];
    }

    method PublishRunStoppedLocked(s: SessionId, r: RunId) returns (published: bool)
      modifies this
      ensures St() == ReportStopped(old(St()), s, r) && published == ((s, r) !in old(stoppedRuns))
    {
      if (s, r) in stoppedRuns {
        return false;
      }
      stoppedRuns := stoppedRuns + {(s, r)};
      log := log + [Stopped(s, r)];
      return true;
    }

    /** Resumers first, then the queue; each list is edited in place while its index moves. */
    method DrainLocked()
      modifies this
      ensures St() == Drain(cfg, old(St()))
    {
      hide Admits;
      var index := 0;
      while index < |resuming|
        invariant index <= |resuming|
        invariant DrainResuming(cfg, St(), index) == DrainResuming(cfg, old(St()), 0)
        decreases |resuming| - index
      {
        var waiter := resuming[index];
        var ok := AdmitLocked(waiter.session);
        if !ok {
          index := index + 1;
        } else {
          ghost var next := WakeAt(St(), index);
          resuming := resuming[..index] + resuming[index + 1..];
          paused := paused - {waiter.session};
          log := log + [Woken(waiter.ready)];
          assert St() == next;
        }
      }
      assert St() == DrainResuming(cfg, old(St()), 0);
      DrainQueueLoop();
    }

    method StartQueued(index: nat)
      requires index < |queue|
      modifies this
      ensures St() == StartAt(old(St()), index) && |queue| == |old(queue)| - 1
    {
      var next := queue[index];
      queue := queue[..index] + queue[index + 1..];
      StartLocked(next);
    }

    method DrainQueueLoop()
      modifies this
      ensures St() == DrainQueue(cfg, old(St()), 0)
    {
      hide Admits, StartAt, Busy;
      var index := 0;
      while true
        invariant index <= |queue|
        invariant DrainQueue(cfg, St(), index) == DrainQueue(cfg, old(St()), 0)
        decreases |queue| - index
      {
        if index == |queue| { return; }
        var running := RunningLocked();
        if running >= cfg.maxConcurrent { return; }
        var next := queue[index];
        var ok := AdmitLocked(next.session);
        if !ok {
          index := index + 1;
        } else {
          StartQueued(index);
        }
      }
    }

    // ---- Waiting messages ----

    method IdenticalPendingPosition(waiting: seq<QueuedRun>, text: string) returns (position: nat)
      ensures position == IdenticalFrom(waiting, text, 0)
    {
      var index := 0;
      while index < |waiting|
        invariant index <= |waiting|
        invariant IdenticalFrom(waiting, text, index) == IdenticalFrom(waiting, text, 0)
      {
        if waiting[index].content == text { return index + 1; }
        index := index + 1;
      }
      return 0;
    }

    method ReturnPendingLocked(s: SessionId)
      modifies this`pending
      ensures St() == DropPending(old(St()), s)
    {
      if |Pending(St(), s)| > 0 {
        pending := pending - {s};
      }
    }

    method ForgetPausedLocked(s: SessionId)
      modifies this
      ensures St() == ForgetPaused(old(St()), s)
    {
      paused := paused - {s};
      var index := 0;
      while index < |resuming|
        invariant index <= |resuming|
        invariant WaiterOf(resuming, s, index) == WaiterOf(resuming, s, 0)
        invariant resuming == old(resuming) && St() == old(St()).(paused := paused)
      {
        if resuming[index].session == s {
          resuming := resuming[..index] + resuming[index + 1..];
          return;
        }
        index := index + 1;
      }
    }

    // ---- The locked sections ----

    method SubmitAttachmentsFrom(sub: Submission) returns (outcome: Outcome)
      modifies this
      ensures Submitted(St(), outcome) == Submit(cfg, old(St()), sub)
    {
      hide Admits;
      if !sub.open { return Refused; }
      if sub.session in unreachable {
        var position := IdenticalPendingPosition(Pending(St(), sub.session), sub.text);
        if position > 0 { return Waiting(position); }
        if !sub.stored { return Refused; }
        pending := pending[sub.session := Pending(St(), sub.session) + [MessageEntry(sub)]];
        return Waiting(|pending[sub.session]|);
      }
      if sub.session in active || sub.running {
        var position := IdenticalPendingPosition(Pending(St(), sub.session), sub.text);
        if position > 0 { return Waiting(position); }
        if cfg.queueDepth > 0 && |Pending(St(), sub.session)| >= cfg.queueDepth { return QueueFull; }
        if !sub.stored { return Refused; }
        pending := pending[sub.session := Pending(St(), sub.session) + [MessageEntry(sub)]];
        var place := |pending[sub.session]|;
        if sub.session in active && active[sub.session].stopReason != "" {
          ReturnPendingLocked(sub.session);
        }
        return Waiting(place);
      }
      if |Pending(St(), sub.session)| > 0 { ReturnPendingLocked(sub.session); }
      if !sub.stored { return Refused; }
      ids := ids + 1;
      var run := ids;
      var entry := QueuedRun(sub.session, run, sub.messageId, "", sub.source);
      var ok := AdmitLocked(sub.session);
      if ok {
        StartLocked(entry);
        return Dispatched(run);
      }
      queue := queue + [entry];
      return Queued(run, |queue|);
    }

    method Finish(s: SessionId, r: RunId, reason: string)
      modifies this
      ensures St() == SchedulerSpec.Finish(cfg, old(St()), s, r, reason)
    {
      hide Settle, Drain;
      if s !in active || (active[s].runId != 0 && active[s].runId != r) { return; }
      SettleLocked(s, r, reason);
      DrainLocked();
    }

    /** finish up to its drain, for the session's own active run. */
    method SettleLocked(s: SessionId, r: RunId, reason: string)
      requires s in active
      modifies this
      ensures St() == Settle(old(St()), s, r, reason)
    {
      var run := active[s];
      active := active - {s};
      ForgetPausedLocked(s);
      assert St() == Retire(old(St()), s);
      hide ForgetPaused;
      var why := if run.stopReason != "" then run.stopReason else reason;
      if why == "model_unreachable" {
        unreachable := unreachable + {s};
      }
      if |Pending(St(), s)| > 0 && s !in unreachable && run.stopReason == "" {
        var next := Pending(St(), s)[0].(session := s, runId := ids + 1, content := "");
        pending := pending - {s};
        ids := ids + 1;
        queue := queue + [next];
      }
      var published := PublishRunStoppedLocked(s, r);
    }

    method ForceFinish(s: SessionId, r: RunId)
      modifies this
      ensures St() == SchedulerSpec.ForceFinish(cfg, old(St()), s, r)
    {
      hide Admits, Drain;
      if s !in active || active[s].runId != r { return; }
      active := active - {s};
      ForgetPausedLocked(s);
      var published := PublishRunStoppedLocked(s, r);
      DrainLocked();
    }

    method ReleaseForCard(s: SessionId, r: RunId)
      modifies this
      ensures St() == Pause(cfg, old(St()), s, r)
    {
      hide Admits, Drain;
      if s !in active || active[s].runId != r || s in paused { return; }
      paused := paused + {s};
      DrainLocked();
    }

    /** True when the run may go on at once; otherwise it waits on `ready`. */
    method ReacquireAfterCard(s: SessionId, r: RunId) returns (proceed: bool, ready: nat)
      modifies this
      ensures St() == Resume(cfg, old(St()), s, r)
      ensures ready == old(channels)
      ensures proceed <==>
                || s !in old(active) || old(active)[s].runId != r || s !in old(paused)
                || (|old(resuming)| == 0 && Admits(cfg, Busy(old(St())), s))
                || !exists w :: w in resuming && w.ready == ready
    {
      hide Admits, Drain;
      ready := channels;
      if s !in active || active[s].runId != r || s !in paused { return true, ready; }
      if |resuming| == 0 {
        var ok := AdmitLocked(s);
        if ok {
          paused := paused - {s};
          return true, ready;
        }
      }
      resuming := resuming + [ResumeWaiter(s, ready)];
      channels := channels + 1;
      DrainLocked();
      proceed := !exists w :: w in resuming && w.ready == ready;
    }

    method CancelWait(ready: nat)
      modifies this`resuming
      ensures St() == CancelResume(old(St()), ready)
    {
      var index := 0;
      while index < |resuming|
        invariant index <= |resuming| && resuming == old(resuming)
        invariant ChannelAt(resuming, ready, index) == ChannelAt(resuming, ready, 0)
      {
        if resuming[index].ready == ready {
          resuming := resuming[..index] + resuming[index + 1..];
          return;
        }
        index := index + 1;
      }
    }

    /** `order` is the order in which the map of held sessions happens to be walked. */
    method ReleaseModel(c: ConnectionId, order: seq<SessionId>)
      modifies this
      ensures St() == SchedulerSpec.ReleaseModel(cfg, old(St()), c, order)
    {
      hide Admits;
      var k := 0;
      while k < |order|
        invariant k <= |order|
        invariant SchedulerSpec.ReleaseModel(cfg, St(), c, order[k..]) ==
                  SchedulerSpec.ReleaseModel(cfg, old(St()), c, order)
      {
        var s := order[k];
        assert order[k..][1..] == order[k + 1..];
        if s in unreachable && cfg.connectionOf(s) == c {
          ReleaseOne(s);
        }
        k := k + 1;
      }
    }

    method ReleaseOne(s: SessionId)
      modifies this
      ensures St() == ReleaseSession(cfg, old(St()), s)
    {
      hide Admits;
      unreachable := unreachable - {s};
      if |Pending(St(), s)| == 0 || s in active { return; }
      var next := Pending(St(), s)[0].(session := s, runId := ids + 1, content := "");
      pending := pending - {s};
      ids := ids + 1;
      var ok := AdmitLocked(s);
      if ok { StartLocked(next); } else { queue := queue + [next]; }
    }

    method StopReason(all: bool, target: SessionId, reason: SessionId -> string)
      modifies this
      ensures St() == Stop(old(St()), all, target, reason)
    {
      StopActiveRuns(all, target, reason);
      var index := 0;
      ghost var stopped := St();
      while index < |queue|
        invariant index <= |queue|
        invariant StopQueued(St(), all, target, index) == StopQueued(stopped, all, target, 0)
        decreases |queue| - index
      {
        var entry := queue[index];
        if all || entry.session == target {
          queue := queue[..index] + queue[index + 1..];
          ReturnPendingLocked(entry.session);
          var published := PublishRunStoppedLocked(entry.session, entry.runId);
        } else {
          index := index + 1;
        }
      }
      if !all && target !in active {
        ReturnPendingLocked(target);
      }
    }

    method StopActiveRuns(all: bool, target: SessionId, reason: SessionId -> string)
      modifies this`active, this`pending
      ensures St() == StopActive(old(St()), all, target, reason)
    {
      hide Marked, Returned;
      var todo := active.Keys;
      ghost var before := St();
      assert Marked(active, {}, all, target, reason) == active by { MarkedNone(active, all, target, reason); }
      assert Returned(before, {}, all, target) == {} by { ReturnedNone(before, all, target); }
      assert active.Keys - active.Keys == {};
      while todo != {}
        invariant todo <= active.Keys == before.active.Keys
        invariant active == Marked(before.active, before.active.Keys - todo, all, target, reason)
        invariant pending == before.pending - Returned(before, before.active.Keys - todo, all, target)
        decreases todo
      {
        var s :| s in todo;
        ghost var done := before.active.Keys - todo;
        assert before.active.Keys - (todo - {s}) == done + {s};
        if all || s == target {
          active := active[s := active[s].(stopReason := reason(s))];
          ReturnPendingLocked(s);
        }
        ReturnedOneMore(before, done, s, all, target);
        MarkedOneMore(before.active, done, s, all, target, reason);
        todo := todo - {s};
      }
      assert before.active.Keys - {} == before.active.Keys;
    }

    static lemma MarkedNone(active: map<SessionId, ActiveRun>, all: bool, target: SessionId,
                            reason: SessionId -> string)
      ensures Marked(active, {}, all, target, reason) == active
    {
    }

    static lemma ReturnedNone(st: State, all: bool, target: SessionId)
      ensures Returned(st, {}, all, target) == {}
    {
    }

    static lemma MarkedOneMore(active: map<SessionId, ActiveRun>, done: set<SessionId>, s: SessionId, all: bool,
                               target: SessionId, reason: SessionId -> string)
      requires s in active && s !in done
      ensures var before, after := Marked(active, done, all, target, reason),
              Marked(active, done + {s}, all, target, reason);
              && before.Keys == active.Keys && before[s] == active[s]
              && after == if Targets(all, target, s) then before[s := before[s].(stopReason := reason(s))] else before
    {
    }

    static lemma ReturnedOneMore(st: State, done: set<SessionId>, s: SessionId, all: bool, target: SessionId)
      requires s !in done
      ensures var gone := Returned(st, done, all, target);
              && s !in gone
              && Returned(st, done + {s}, all, target) ==
                 gone + (if Targets(all, target, s) && |Pending(st, s)| > 0 then {s} else {})
              && Pending(st.(pending := st.pending - gone), s) == Pending(st, s)
    {
    }
  }
}
