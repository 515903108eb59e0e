/**
 A history in which a started run is never reported stopped, because a second queued run of the
 same chat takes its place while it is still running.
 */
module SchedulerDisplacement {
  import opened Common
  import opened SchedulerSpec
  import Lifecycle = SchedulerLifecycle

  /** Two slots, every connection serving at least two runs, three different chats. */
  predicate Setting(cfg: Config, a: SessionId, b: SessionId, c: SessionId) {
    && cfg.maxConcurrent == 2 && cfg.queueDepth == 0
    && a != b && b != c && a != c
    && ConnectionLimit(cfg, cfg.connectionOf(a)) >= 2
    && ConnectionLimit(cfg, cfg.connectionOf(b)) >= 2
    && ConnectionLimit(cfg, cfg.connectionOf(c)) >= 2
  }

  function From(s: SessionId): Submission {
    Submission(s, "hi", "m-1", "", true, false, true)
  }

  /**
   Chats a and b run; a second message waits behind a's run and chat c is queued. When a's run
   finishes, its message is queued behind c's and the chat is idle, so a third message to a is
   queued as well; b and c finish, and both runs of a start.
   */
  function TwoRunsOfOneChat(a: SessionId, b: SessionId, c: SessionId): seq<Step> {
    Opening(a, b) + Waiting(a, c) + [DoFinish(a, 1, "done"), DoSubmit(From(a))] +
        [DoFinish(b, 2, "done"), DoFinish(c, 3, "done")]
  }

  function Opening(a: SessionId, b: SessionId): seq<Step> { [DoSubmit(From(a)), DoSubmit(From(b))] }

  function Waiting(a: SessionId, c: SessionId): seq<Step> { [DoSubmit(From(a)), DoSubmit(From(c))] }

  function Queued(s: SessionId, r: RunId): QueuedRun { QueuedRun(s, r, "m-1", "", "") }

  function Live(r: RunId): ActiveRun { ActiveRun(r, "", "m-1", "") }

  function Snapshot(active: map<SessionId, ActiveRun>, queue: seq<QueuedRun>, stopped: set<(SessionId, RunId)>,
                    ids: nat, log: seq<Event>): State
  {
    State(active, queue, map[], {}, stopped, {}, [], ids, 0, log)
  }

  lemma RoomForOne(cfg: Config, busy: set<SessionId>, s: SessionId)
    requires cfg.maxConcurrent == 2 && ConnectionLimit(cfg, cfg.connectionOf(s)) >= 2
    ensures Admits(cfg, busy, s) <==> |busy| < 2
  {
    var here := OnConnection(cfg, busy, cfg.connectionOf(s));
    assert busy == here + (busy - here);
  }

  lemma IdleSubmit(cfg: Config, st: State, s: SessionId)
    requires s !in st.active && s !in st.pending && s !in st.unreachable
    ensures Apply(cfg, st, DoSubmit(From(s))) == SubmitIdle(cfg, st, From(s)).state
  {
    hide SubmitIdle, SubmitHeld, SubmitBehind;
  }

  /** A message to an idle chat with nothing waiting. */
  lemma SubmitToIdle(cfg: Config, st: State, s: SessionId)
    requires cfg.maxConcurrent == 2 && ConnectionLimit(cfg, cfg.connectionOf(s)) >= 2
    requires s !in st.active && s !in st.pending && s !in st.unreachable
    ensures Apply(cfg, st, DoSubmit(From(s))) ==
            (if |Busy(st)| < 2 then StartRun(st.(ids := st.ids + 1), Queued(s, st.ids + 1))
             else Enqueue(st.(ids := st.ids + 1), Queued(s, st.ids + 1)))
  {
    hide *;
    RoomForOne(cfg, Busy(st), s);
    IdleSubmit(cfg, st, s);
    IdleIs(cfg, st, s);
    StartsOrQueues(cfg, st.(ids := st.ids + 1), Queued(s, st.ids + 1));
    EntryIs(s, st.ids + 1);
    SameBusy(st);
  }

  lemma IdleIs(cfg: Config, st: State, s: SessionId)
    requires s !in st.pending
    ensures SubmitIdle(cfg, st, From(s)).state == StartOrEnqueue(cfg, st.(ids := st.ids + 1), Queued(s, st.ids + 1))
  {
    assert DropPending(st, s) == st;
    hide StartOrEnqueue, Admits, Busy;
  }

  lemma StartsOrQueues(cfg: Config, st: State, entry: QueuedRun)
    ensures StartOrEnqueue(cfg, st, entry) ==
            if Admits(cfg, Busy(st), entry.session) then StartRun(st, entry) else Enqueue(st, entry)
  {
  }

  lemma EntryIs(s: SessionId, r: RunId)
    ensures Queued(s, r).session == s
  {
  }

  lemma SameBusy(st: State)
    ensures Busy(st.(ids := st.ids + 1)) == Busy(st)
  {
  }

  /** The end of a run with nothing waiting behind it, when exactly one slot is then free. */
  lemma FinishStartsNext(cfg: Config, st: State, s: SessionId, r: RunId)
    requires cfg.maxConcurrent == 2
    requires s in st.active && st.active[s] == Live(r) && (s, r) !in st.stoppedRuns
    requires st.pending == map[] && st.paused == {} && st.resuming == []
    requires |st.queue| > 0 && ConnectionLimit(cfg, cfg.connectionOf(st.queue[0].session)) >= 2
    requires |st.active.Keys - {s}| == 1
    requires |st.active.Keys - {s} + {st.queue[0].session}| == 2 || |st.queue| == 1
    ensures Apply(cfg, st, DoFinish(s, r, "done")) ==
            StartAt(st.(active := st.active - {s}, stoppedRuns := st.stoppedRuns + {(s, r)},
                log := st.log + [Stopped(s, r)]), 0)
  {
    hide *;
    var settled := st.(active := st.active - {s}, stoppedRuns := st.stoppedRuns + {(s, r)},
        log := st.log + [Stopped(s, r)]);
    FinishSettles(cfg, st, s, r);
    RoomForOne(cfg, st.active.Keys - {s}, st.queue[0].session);
    DrainStartsFirst(cfg, settled);
  }

  lemma FinishSettles(cfg: Config, st: State, s: SessionId, r: RunId)
    requires s in st.active && st.active[s] == Live(r) && (s, r) !in st.stoppedRuns
    requires st.pending == map[] && st.paused == {} && st.resuming == []
    ensures var settled := st.(active := st.active - {s}, stoppedRuns := st.stoppedRuns + {(s, r)},
            log := st.log + [Stopped(s, r)]);
            Apply(cfg, st, DoFinish(s, r, "done")) == Drain(cfg, settled)
  {
    var settled := st.(active := st.active - {s}, stoppedRuns := st.stoppedRuns + {(s, r)},
        log := st.log + [Stopped(s, r)]);
    assert Settle(st, s, r, "done") == settled;
    hide Settle, Drain;
  }

  /** A drain with one slot free starts the first of the queue and no other. */
  lemma DrainStartsFirst(cfg: Config, st: State)
    requires cfg.maxConcurrent == 2 && st.paused == {} && st.resuming == [] && |st.queue| > 0
    requires |st.active.Keys| == 1 && Admits(cfg, st.active.Keys, st.queue[0].session)
    requires |st.active.Keys + {st.queue[0].session}| == 2 || |st.queue| == 1
    ensures Drain(cfg, st) == StartAt(st, 0)
  {
    var next := StartAt(st, 0);
    assert Busy(st) == st.active.Keys;
    assert Busy(next) == st.active.Keys + {st.queue[0].session};
    assert |next.queue| == |st.queue| - 1;
    hide Admits, StartAt, Busy;
    assert DrainResuming(cfg, st, 0) == st;
    assert DrainQueue(cfg, next, 0) == next;
    assert DrainQueue(cfg, st, 0) == next;
  }

  function TwoRunning(a: SessionId, b: SessionId): State {
    Snapshot(map[a := Live(1)][b := Live(2)], [], {}, 2, [Started(a, 1), Started(b, 2)])
  }

  function OneBehind(a: SessionId, b: SessionId, c: SessionId): State {
    TwoRunning(a, b).(pending := map[a := [QueuedRun(a, 0, "m-1", "hi", "")]], queue := [Queued(c, 3)], ids := 3)
  }

  function OneQueued(a: SessionId, b: SessionId, c: SessionId): State {
    Snapshot(map[b := Live(2)][c := Live(3)], [Queued(a, 4)], {(a, 1)}, 4,
             [Started(a, 1), Started(b, 2), Stopped(a, 1), Started(c, 3)])
  }

  function BothQueued(a: SessionId, b: SessionId, c: SessionId): State {
    OneQueued(a, b, c).(queue := [Queued(a, 4), Queued(a, 5)], ids := 5)
  }

  function FirstStarted(a: SessionId, b: SessionId, c: SessionId): State {
    Snapshot(map[c := Live(3)][a := Live(4)], [Queued(a, 5)], {(a, 1), (b, 2)}, 5,
             [Started(a, 1), Started(b, 2), Stopped(a, 1), Started(c, 3), Stopped(b, 2), Started(a, 4)])
  }

  function FirstDisplaced(a: SessionId, b: SessionId, c: SessionId): State {
    Snapshot(map[a := Live(5)], [], {(a, 1), (b, 2), (c, 3)}, 5,
             [Started(a, 1), Started(b, 2), Stopped(a, 1), Started(c, 3), Stopped(b, 2), Started(a, 4),
              Stopped(c, 3), Started(a, 5)])
  }

  lemma FirstTwo(cfg: Config, a: SessionId, b: SessionId, c: SessionId)
    requires Setting(cfg, a, b, c)
    ensures Apply(cfg, Apply(cfg, Init(0), DoSubmit(From(a))), DoSubmit(From(b))) == TwoRunning(a, b)
  {
    var one := Snapshot(map[a := Live(1)], [], {}, 1, [Started(a, 1)]);
    assert Busy(Init(0)) == {} && Busy(one) == {a};
    SubmitToIdle(cfg, Init(0), a);
    SubmitToIdle(cfg, one, b);
    hide Apply, Admits, ConnectionLimit;
    assert Apply(cfg, Init(0), DoSubmit(From(a))) == one;
    assert [Started(a, 1)] + [Started(b, 2)] == [Started(a, 1), Started(b, 2)];
  }

  lemma MessageBehind(cfg: Config, st: State, s: SessionId)
    requires cfg.queueDepth == 0 && s in st.active && st.active[s].stopReason == "" && s !in st.unreachable
             && s !in st.pending
    ensures Apply(cfg, st, DoSubmit(From(s))) == st.(pending := st.pending[s := [QueuedRun(s, 0, "m-1", "hi", "")]])
  {
    assert Pending(st, s) == [] && [] + [MessageEntry(From(s))] == [QueuedRun(s, 0, "m-1", "hi", "")];
    assert IdenticalFrom([], "hi", 0) == 0;
  }

  lemma NextTwo(cfg: Config, a: SessionId, b: SessionId, c: SessionId)
    requires Setting(cfg, a, b, c)
    ensures Apply(cfg, Apply(cfg, TwoRunning(a, b), DoSubmit(From(a))), DoSubmit(From(c))) == OneBehind(a, b, c)
  {
    var st := TwoRunning(a, b);
    var behind := st.(pending := map[a := [QueuedRun(a, 0, "m-1", "hi", "")]]);
    MessageBehind(cfg, st, a);
    assert map[][a := [QueuedRun(a, 0, "m-1", "hi", "")]] == map[a := [QueuedRun(a, 0, "m-1", "hi", "")]];
    assert Busy(behind) == {a, b} && |{a, b}| == 2;
    SubmitToIdle(cfg, behind, c);
    hide Apply, Admits, ConnectionLimit;
    assert [] + [Queued(c, 3)] == [Queued(c, 3)];
  }

  lemma FinishPromotes(cfg: Config, a: SessionId, b: SessionId, c: SessionId)
    requires Setting(cfg, a, b, c)
    ensures Apply(cfg, OneBehind(a, b, c), DoFinish(a, 1, "done")) == OneQueued(a, b, c)
  {
    assert OwnsSession(OneBehind(a, b, c), a, 1);
    SettlePromotes(a, b, c);
    DrainPromoted(cfg, a, b, c);
  }

  function Promoted(a: SessionId, b: SessionId, c: SessionId): State {
    Snapshot(map[b := Live(2)], [Queued(c, 3), Queued(a, 4)], {(a, 1)}, 4,
        [Started(a, 1), Started(b, 2), Stopped(a, 1)])
  }

  lemma DrainPromoted(cfg: Config, a: SessionId, b: SessionId, c: SessionId)
    requires Setting(cfg, a, b, c)
    ensures Drain(cfg, Promoted(a, b, c)) == OneQueued(a, b, c)
  {
    var st, next := Promoted(a, b, c), OneQueued(a, b, c);
    assert Busy(st) == {b} && Busy(next) == {b, c} && |{b, c}| == 2;
    RoomForOne(cfg, {b}, c);
    StartC(a, b, c);
    assert st.resuming == [] && |st.queue| == 2 && st.queue[0].session == c && |next.queue| == 1;
    hide Admits, ConnectionLimit, StartAt, Busy, OneQueued, Promoted, Setting;
    assert DrainQueue(cfg, next, 0) == next;
    assert DrainQueue(cfg, st, 0) == next;
  }

  lemma StartC(a: SessionId, b: SessionId, c: SessionId)
    requires a != b && b != c && a != c
    ensures StartAt(Promoted(a, b, c), 0) == OneQueued(a, b, c)
  {
    assert Without([Queued(c, 3), Queued(a, 4)], 0) == [Queued(a, 4)];
    assert [Started(a, 1), Started(b, 2), Stopped(a, 1)] + [Started(c, 3)] ==
           [Started(a, 1), Started(b, 2), Stopped(a, 1), Started(c, 3)];
  }

  lemma SettlePromotes(a: SessionId, b: SessionId, c: SessionId)
    requires a != b && b != c && a != c
    ensures Settle(OneBehind(a, b, c), a, 1, "done") == Promoted(a, b, c)
  {
    var st := OneBehind(a, b, c);
    var gone := Retire(st, a);
    assert gone.active == map[b := Live(2)];
    assert Pending(gone, a) == [QueuedRun(a, 0, "m-1", "hi", "")];
    assert Promote(gone, a).queue == [Queued(c, 3), Queued(a, 4)];
    assert Promote(gone, a).pending == map[];
  }

  lemma QueueBoth(cfg: Config, a: SessionId, b: SessionId, c: SessionId)
    requires Setting(cfg, a, b, c)
    ensures Apply(cfg, OneQueued(a, b, c), DoSubmit(From(a))) == BothQueued(a, b, c)
  {
    var st := OneQueued(a, b, c);
    assert Busy(st) == {b, c} && |{b, c}| == 2;
    SubmitToIdle(cfg, st, a);
    hide Apply, Admits, ConnectionLimit;
    assert [Queued(a, 4)] + [Queued(a, 5)] == [Queued(a, 4), Queued(a, 5)];
  }

  lemma StartFirst(cfg: Config, a: SessionId, b: SessionId, c: SessionId)
    requires Setting(cfg, a, b, c)
    ensures Apply(cfg, BothQueued(a, b, c), DoFinish(b, 2, "done")) == FirstStarted(a, b, c)
  {
    hide Apply, Admits, ConnectionLimit, StartAt, FirstStarted;
    var st := BothQueued(a, b, c);
    assert st.active.Keys - {b} == {c} && {c} + {a} == {a, c} && |{a, c}| == 2;
    FinishStartsNext(cfg, st, b, 2);
    StartA(a, b, c);
  }

  lemma StartA(a: SessionId, b: SessionId, c: SessionId)
    requires a != b && b != c && a != c
    ensures var st := BothQueued(a, b, c);
            StartAt(st.(active := st.active - {b}, stoppedRuns := st.stoppedRuns + {(b, 2)},
                log := st.log + [Stopped(b, 2)]), 0) == FirstStarted(a, b, c)
  {
    var st := BothQueued(a, b, c);
    assert st.active - {b} == map[c := Live(3)];
    assert Without(st.queue, 0) == [Queued(a, 5)];
    assert st.log + [Stopped(b, 2)] + [Started(a, 4)] == FirstStarted(a, b, c).log;
  }

  lemma StartSecond(cfg: Config, a: SessionId, b: SessionId, c: SessionId)
    requires Setting(cfg, a, b, c)
    ensures Apply(cfg, FirstStarted(a, b, c), DoFinish(c, 3, "done")) == FirstDisplaced(a, b, c)
  {
    hide Apply, Admits, ConnectionLimit, StartAt, FirstDisplaced;
    var st := FirstStarted(a, b, c);
    assert st.active.Keys - {c} == {a} && |{a}| == 1;
    FinishStartsNext(cfg, st, c, 3);
    StartAgain(a, b, c);
  }

  lemma StartAgain(a: SessionId, b: SessionId, c: SessionId)
    requires a != b && b != c && a != c
    ensures var st := FirstStarted(a, b, c);
            StartAt(st.(active := st.active - {c}, stoppedRuns := st.stoppedRuns + {(c, 3)},
                log := st.log + [Stopped(c, 3)]), 0) == FirstDisplaced(a, b, c)
  {
    var st := FirstStarted(a, b, c);
    assert (st.active - {c})[a := Live(5)] == map[a := Live(5)];
    assert Without(st.queue, 0) == [];
    assert st.log + [Stopped(c, 3)] + [Started(a, 5)] == FirstDisplaced(a, b, c).log;
  }

  lemma AfterTwo(cfg: Config, floor: nat, done: seq<Step>, x: Step, y: Step)
    ensures After(cfg, floor, done + [x, y]) == Apply(cfg, Apply(cfg, After(cfg, floor, done), x), y)
  {
    hide Apply;
    var one := done + [x];
    assert one[..|one| - 1] == done && one[|one| - 1] == x;
    var two := done + [x, y];
    assert two[..|two| - 1] == one && two[|two| - 1] == y;
  }

  lemma FirstHalf(cfg: Config, a: SessionId, b: SessionId, c: SessionId)
    requires Setting(cfg, a, b, c)
    ensures After(cfg, 0, Opening(a, b) + Waiting(a, c)) == OneBehind(a, b, c)
  {
    FirstTwo(cfg, a, b, c);
    NextTwo(cfg, a, b, c);
    hide Apply, TwoRunning, OneBehind, From;
    AfterTwo(cfg, 0, [], DoSubmit(From(a)), DoSubmit(From(b)));
    assert [] + Opening(a, b) == Opening(a, b);
    AfterTwo(cfg, 0, Opening(a, b), DoSubmit(From(a)), DoSubmit(From(c)));
  }

  lemma History(cfg: Config, a: SessionId, b: SessionId, c: SessionId)
    requires Setting(cfg, a, b, c)
    ensures After(cfg, 0, TwoRunsOfOneChat(a, b, c)) == FirstDisplaced(a, b, c)
  {
    FirstHalf(cfg, a, b, c);
    FinishPromotes(cfg, a, b, c);
    QueueBoth(cfg, a, b, c);
    StartFirst(cfg, a, b, c);
    StartSecond(cfg, a, b, c);
    hide Apply, After, OneBehind, OneQueued, BothQueued, FirstStarted, FirstDisplaced, From, Setting, Opening, Waiting;
    AfterTwo(cfg, 0, Opening(a, b) + Waiting(a, c), DoFinish(a, 1, "done"), DoSubmit(From(a)));
    AfterTwo(cfg, 0, Opening(a, b) + Waiting(a, c) + [DoFinish(a, 1, "done"), DoSubmit(From(a))],
             DoFinish(b, 2, "done"), DoFinish(c, 3, "done"));
  }

  /**
   Not every started run is reported stopped. After this history run 4 of chat a has been started
   and run 5 has taken its place; nothing has reported run 4, and no continuation ever does.
   */
  lemma LostRun(cfg: Config, a: SessionId, b: SessionId, c: SessionId, more: seq<Step>)
    requires Setting(cfg, a, b, c)
    ensures var st := After(cfg, 0, TwoRunsOfOneChat(a, b, c));
            && |st.log| == 8 && st.log[5] == Started(a, 4) && st.log[7] == Started(a, 5) && st.active.Keys == {a}
    ensures forall t :: Stopped(t, 4) !in After(cfg, 0, TwoRunsOfOneChat(a, b, c) + more).log
  {
    History(cfg, a, b, c);
    hide After;
    Lifecycle.DisplacedNeverReported(cfg, 0, TwoRunsOfOneChat(a, b, c), more, 5, 7);
  }
}
