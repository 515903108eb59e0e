/**
 The run scheduler of internal/agent/scheduler.go as a value: one `State` holds every field the
 scheduler's mutex guards, and each locked section is one function from state to state.

 The `log` records what leaves the locked sections: the run.started and run.stopped events and
 the resume channels closed.
 */
module SchedulerSpec {
  import opened Common

  type SessionId = string
  type ConnectionId = string

  /** "r1", "r2", ... are written as the counter they print; 0 is the empty run id. */
  type RunId = nat

  /** The configuration and the registry, both fixed for the life of a run. */
  datatype Config = Config(
    maxConcurrent: int,
    queueDepth: int,
    connections: map<ConnectionId, Connection>,
    connectionOf: SessionId -> ConnectionId)

  datatype QueuedRun = QueuedRun(session: SessionId, runId: RunId, messageId: string, content: string, source: string)

  datatype ActiveRun = ActiveRun(runId: RunId, stopReason: string, messageId: string, source: string)

  /** An answered run waiting to take back its slot; `ready` names its channel. */
  datatype ResumeWaiter = ResumeWaiter(session: SessionId, ready: nat)

  datatype Event =
    | Started(session: SessionId, run: RunId)
    | Stopped(session: SessionId, run: RunId)
    | Woken(ready: nat)

  datatype State = State(
    active: map<SessionId, ActiveRun>,
    queue: seq<QueuedRun>,
    pending: map<SessionId, seq<QueuedRun>>,
    unreachable: set<SessionId>,
    stoppedRuns: set<(SessionId, RunId)>,
    paused: set<SessionId>,
    resuming: seq<ResumeWaiter>,
    ids: nat,
    channels: nat,
    log: seq<Event>)

  function Init(floor: nat): State {
    State(map[], [], map[], {}, {}, {}, [], floor, 0, [])
  }

  // ---- Admission ----

  /** The sessions that hold a model slot: active and not paused on a card. */
  function Busy(st: State): set<SessionId> {
    st.active.Keys - st.paused
  }

  function OnConnection(cfg: Config, busy: set<SessionId>, c: ConnectionId): set<SessionId> {
    set s | s in busy && cfg.connectionOf(s) == c
  }

  function ConnectionLimit(cfg: Config, c: ConnectionId): (limit: int)
    ensures limit >= 1
  {
    Limit(cfg.connections, c)
  }

  predicate Admits(cfg: Config, busy: set<SessionId>, s: SessionId) {
    && |busy| < cfg.maxConcurrent
    && |OnConnection(cfg, busy, cfg.connectionOf(s))| < ConnectionLimit(cfg, cfg.connectionOf(s))
  }

  // ---- Starting, waking, stopping one run ----

  function StartRun(st: State, entry: QueuedRun): State {
    st.(active := st.active[entry.session := ActiveRun(entry.runId, "", entry.messageId, entry.source)],
        log := st.log + [Started(entry.session, entry.runId)])
  }

  function WakeAt(st: State, i: nat): State
    requires i < |st.resuming|
  {
    st.(resuming := Without(st.resuming, i),
        paused := st.paused - {st.resuming[i].session},
        log := st.log + [Woken(st.resuming[i].ready)])
  }

  function StartAt(st: State, i: nat): State
    requires i < |st.queue|
  {
    StartRun(st.(queue := Without(st.queue, i)), st.queue[i])
  }

  function ReportStopped(st: State, s: SessionId, r: RunId): State {
    if (s, r) in st.stoppedRuns then st
    else st.(stoppedRuns := st.stoppedRuns + {(s, r)}, log := st.log + [Stopped(s, r)])
  }

  // ---- Draining ----

  /** The first loop of drainLocked, from position i. */
  function DrainResuming(cfg: Config, st: State, i: nat): State
    requires i <= |st.resuming|
    decreases |st.resuming| - i
  {
    if i == |st.resuming| then st
    else if !Admits(cfg, Busy(st), st.resuming[i].session) then DrainResuming(cfg, st, i + 1)
    else DrainResuming(cfg, WakeAt(st, i), i)
  }

  /** The second loop of drainLocked, from position i. */
  function DrainQueue(cfg: Config, st: State, i: nat): State
    requires i <= |st.queue|
    decreases |st.queue| - i
  {
    if i == |st.queue| || |Busy(st)| >= cfg.maxConcurrent then st
    else if !Admits(cfg, Busy(st), st.queue[i].session) then DrainQueue(cfg, st, i + 1)
    else DrainQueue(cfg, StartAt(st, i), i)
  }

  function Drain(cfg: Config, st: State): State {
    DrainQueue(cfg, DrainResuming(cfg, st, 0), 0)
  }

  // ---- Messages waiting on a session ----

  function Pending(st: State, s: SessionId): seq<QueuedRun> {
    if s in st.pending then st.pending[s] else []
  }

  /** The 1-based position of a waiting message with this text, or 0. */
  function IdenticalFrom(waiting: seq<QueuedRun>, text: string, i: nat): (position: nat)
    requires i <= |waiting|
    decreases |waiting| - i
  {
    if i == |waiting| then 0
    else if waiting[i].content == text then i + 1
    else IdenticalFrom(waiting, text, i + 1)
  }

  function DropPending(st: State, s: SessionId): State {
    if |Pending(st, s)| == 0 then st else st.(pending := st.pending - {s})
  }

  function AppendPending(st: State, entry: QueuedRun): State {
    st.(pending := st.pending[entry.session := Pending(st, entry.session) + [entry]])
  }

  /** The delivered head of a session's waiting messages, as a run with a new id. */
  function NextRun(st: State, s: SessionId): QueuedRun
    requires |Pending(st, s)| > 0
  {
    Pending(st, s)[0].(session := s, runId := st.ids + 1, content := "")
  }

  function Enqueue(st: State, entry: QueuedRun): State {
    st.(queue := st.queue + [entry])
  }

  /** An entry whose run id was just minted is started if there is a slot and queued if not. */
  function StartOrEnqueue(cfg: Config, st: State, entry: QueuedRun): State {
    if Admits(cfg, Busy(st), entry.session) then StartRun(st, entry) else Enqueue(st, entry)
  }

  // ---- Submission ----

  /** What the environment answers while one submission holds the lock. */
  datatype Submission = Submission(
    session: SessionId, text: string, messageId: string, source: string,
    open: bool,      // BeginSubmission accepted the session
    running: bool,   // item.IsRunning()
    stored: bool)    // the message was written to the journal

  datatype Outcome =
    | Refused
    | QueueFull
    | Waiting(position: nat)                    // behind this session's own run
    | Dispatched(run: RunId)
    | Queued(run: RunId, place: nat)

  datatype Submitted = Submitted(state: State, outcome: Outcome)

  function MessageEntry(sub: Submission): QueuedRun {
    QueuedRun(sub.session, 0, sub.messageId, sub.text, sub.source)
  }

  function SubmitHeld(st: State, sub: Submission): Submitted {
    var same := IdenticalFrom(Pending(st, sub.session), sub.text, 0);
    if same > 0 then Submitted(st, Waiting(same))
    else if !sub.stored then Submitted(st, Refused)
    else Submitted(AppendPending(st, MessageEntry(sub)), Waiting(|Pending(st, sub.session)| + 1))
  }

  function SubmitBehind(cfg: Config, st: State, sub: Submission): Submitted {
    var same := IdenticalFrom(Pending(st, sub.session), sub.text, 0);
    if same > 0 then Submitted(st, Waiting(same))
    else if cfg.queueDepth > 0 && |Pending(st, sub.session)| >= cfg.queueDepth then Submitted(st, QueueFull)
    else if !sub.stored then Submitted(st, Refused)
    else
      var added := AppendPending(st, MessageEntry(sub));
      var kept :=
        if sub.session in st.active && st.active[sub.session].stopReason != "" then DropPending(added, sub.session)
            else added;
      Submitted(kept, Waiting(|Pending(st, sub.session)| + 1))
  }

  function SubmitIdle(cfg: Config, st: State, sub: Submission): Submitted {
    var clear := DropPending(st, sub.session);
    if !sub.stored then Submitted(clear, Refused)
    else
      var minted := clear.(ids := clear.ids + 1);
      var entry := QueuedRun(sub.session, minted.ids, sub.messageId, "", sub.source);
      var next := StartOrEnqueue(cfg, minted, entry);
      Submitted(next,
                if Admits(cfg, Busy(minted), sub.session) then Dispatched(minted.ids)
                else Queued(minted.ids, |next.queue|))
  }

  function Submit(cfg: Config, st: State, sub: Submission): Submitted {
    if !sub.open then Submitted(st, Refused)
    else if sub.session in st.unreachable then SubmitHeld(st, sub)
    else if sub.session in st.active || sub.running then SubmitBehind(cfg, st, sub)
    else SubmitIdle(cfg, st, sub)
  }

  // ---- Finishing ----

  predicate OwnsSession(st: State, s: SessionId, r: RunId) {
    s in st.active && (st.active[s].runId == 0 || st.active[s].runId == r)
  }

  /** The position of the session's first waiter, or the length. */
  function WaiterOf(waiters: seq<ResumeWaiter>, s: SessionId, i: nat): (k: nat)
    requires i <= |waiters|
    ensures i <= k <= |waiters|
    ensures k < |waiters| ==> waiters[k].session == s
    decreases |waiters| - i
  {
    if i == |waiters| || waiters[i].session == s then i else WaiterOf(waiters, s, i + 1)
  }

  function ForgetPaused(st: State, s: SessionId): State {
    var k := WaiterOf(st.resuming, s, 0);
    st.(paused := st.paused - {s},
        resuming := if k < |st.resuming| then Without(st.resuming, k) else st.resuming)
  }

  function Retire(st: State, s: SessionId): State {
    ForgetPaused(st.(active := st.active - {s}), s)
  }

  function Promote(st: State, s: SessionId): State
    requires |Pending(st, s)| > 0
  {
    Enqueue(st.(pending := st.pending - {s}, ids := st.ids + 1), NextRun(st, s))
  }

  function FinishReason(st: State, s: SessionId, reason: string): string
    requires s in st.active
  {
    if st.active[s].stopReason != "" then st.active[s].stopReason else reason
  }

  /** Everything finish does before it drains. */
  function Settle(st: State, s: SessionId, r: RunId, reason: string): State
    requires s in st.active
  {
    var held := if FinishReason(st, s, reason) == "model_unreachable" then st.unreachable + {s} else st.unreachable;
    var gone := Retire(st, s).(unreachable := held);
    var next :=
      if |Pending(gone, s)| > 0 && s !in held && st.active[s].stopReason == "" then Promote(gone, s) else gone;
    ReportStopped(next, s, r)
  }

  function Finish(cfg: Config, st: State, s: SessionId, r: RunId, reason: string): State {
    if !OwnsSession(st, s, r) then st else Drain(cfg, Settle(st, s, r, reason))
  }

  /** forceFinish; the *activeRun the caller holds is named by its run id. */
  function ForceFinish(cfg: Config, st: State, s: SessionId, r: RunId): State {
    if s !in st.active || st.active[s].runId != r then st
    else Drain(cfg, ReportStopped(Retire(st, s), s, r))
  }

  // ---- Cards ----

  function Pause(cfg: Config, st: State, s: SessionId, r: RunId): State {
    if s !in st.active || st.active[s].runId != r || s in st.paused then st
    else Drain(cfg, st.(paused := st.paused + {s}))
  }

  /** The locked part of reacquireAfterCard. */
  function Resume(cfg: Config, st: State, s: SessionId, r: RunId): State {
    if s !in st.active || st.active[s].runId != r || s !in st.paused then st
    else if |st.resuming| == 0 && Admits(cfg, Busy(st), s) then st.(paused := st.paused - {s})
    else Drain(cfg, st.(resuming := st.resuming + [ResumeWaiter(s, st.channels)], channels := st.channels + 1))
  }

  function ChannelAt(waiters: seq<ResumeWaiter>, ready: nat, i: nat): (k: nat)
    requires i <= |waiters|
    ensures i <= k <= |waiters|
    decreases |waiters| - i
  {
    if i == |waiters| || waiters[i].ready == ready then i else ChannelAt(waiters, ready, i + 1)
  }

  /** A cancelled run leaves the resume list. */
  function CancelResume(st: State, ready: nat): State {
    var k := ChannelAt(st.resuming, ready, 0);
    if k < |st.resuming| then st.(resuming := Without(st.resuming, k)) else st
  }

  // ---- Reachability of the model ----

  function ReleaseSession(cfg: Config, st: State, s: SessionId): State {
    var free := st.(unreachable := st.unreachable - {s});
    if |Pending(free, s)| == 0 || s in free.active then free
    else
      var next := NextRun(free, s);
      StartOrEnqueue(cfg, free.(pending := free.pending - {s}, ids := free.ids + 1), next)
  }

  /** ReleaseModel over the held sessions in the order the map hands them out. */
  function ReleaseModel(cfg: Config, st: State, c: ConnectionId, order: seq<SessionId>): State
    decreases |order|
  {
    if order == [] then st
    else
      var s := order[0];
      var st' := if s in st.unreachable && cfg.connectionOf(s) == c then ReleaseSession(cfg, st, s) else st;
      ReleaseModel(cfg, st', c, order[1..])
  }

  // ---- Stopping ----

  predicate Targets(all: bool, target: SessionId, s: SessionId) {
    all || s == target
  }

  /** Those of the sessions that are stopped with messages waiting: the messages go back to the composer. */
  function Returned(st: State, sessions: set<SessionId>, all: bool, target: SessionId): set<SessionId> {
    set s | s in sessions && Targets(all, target, s) && |Pending(st, s)| > 0
  }

  /** The targets among `sessions` carry their stop reason; nothing else changes. */
  function Marked(active: map<SessionId, ActiveRun>, sessions: set<SessionId>, all: bool, target: SessionId,
                  reason: SessionId -> string): map<SessionId, ActiveRun>
  {
    map s | s in active ::
      if s in sessions && Targets(all, target, s) then active[s].(stopReason := reason(s)) else active[s]
  }

  function StopActive(st: State, all: bool, target: SessionId, reason: SessionId -> string): State {
    st.(active := Marked(st.active, st.active.Keys, all, target, reason),
        pending := st.pending - Returned(st, st.active.Keys, all, target))
  }

  /** The queue loop of stopReason: keeps the others, reports the targets, from position i. */
  function StopQueued(st: State, all: bool, target: SessionId, i: nat): State
    requires i <= |st.queue|
    decreases |st.queue| - i
  {
    if i == |st.queue| then st
    else if !Targets(all, target, st.queue[i].session) then StopQueued(st, all, target, i + 1)
    else
      var entry := st.queue[i];
      var dropped := DropPending(st.(queue := Without(st.queue, i)), entry.session);
      StopQueued(ReportStopped(dropped, entry.session, entry.runId), all, target, i)
  }

  function Stop(st: State, all: bool, target: SessionId, reason: SessionId -> string): State {
    var st' := StopQueued(StopActive(st, all, target, reason), all, target, 0);
    if !all && target !in st'.active then DropPending(st', target) else st'
  }

  // ---- Steps and histories ----

  datatype Step =
    | DoSubmit(sub: Submission)
    | DoFinish(session: SessionId, run: RunId, reason: string)
    | DoForceFinish(session: SessionId, run: RunId)
    | DoPause(session: SessionId, run: RunId)
    | DoResume(session: SessionId, run: RunId)
    | DoCancelResume(ready: nat)
    | DoRelease(connection: ConnectionId, order: seq<SessionId>)
    | DoStop(all: bool, target: SessionId, reasons: SessionId -> string)
    | DoHold(session: SessionId)
    | DoRestore(session: SessionId, entries: seq<QueuedRun>)
    | DoBoundary(session: SessionId, run: RunId)

  function Apply(cfg: Config, st: State, step: Step): State {
    match step
    case DoSubmit(sub) => Submit(cfg, st, sub).state
    case DoFinish(s, r, reason) => Finish(cfg, st, s, r, reason)
    case DoForceFinish(s, r) => ForceFinish(cfg, st, s, r)
    case DoPause(s, r) => Pause(cfg, st, s, r)
    case DoResume(s, r) => Resume(cfg, st, s, r)
    case DoCancelResume(ready) => CancelResume(st, ready)
    case DoRelease(c, order) => ReleaseModel(cfg, st, c, order)
    case DoStop(all, target, reasons) => Stop(st, all, target, reasons)
    case DoHold(s) => st.(unreachable := st.unreachable + {s})
    case DoRestore(s, entries) => if entries == [] then st else st.(pending := st.pending[s := entries])
    case DoBoundary(s, r) =>
      if s !in st.active || st.active[s].runId != r || st.active[s].stopReason != "" || s in st.unreachable then st
      else DropPending(st, s)
  }

  /** The state after a history of locked sections, from a scheduler whose ids start at floor. */
  function After(cfg: Config, floor: nat, steps: seq<Step>): State
    decreases |steps|
  {
    if steps == [] then Init(floor)
    else Apply(cfg, After(cfg, floor, steps[..|steps| - 1]), steps[|steps| - 1])
  }
}
