/**
 Loop detection of internal/agent/guards.go: a bounded list of recent calls and a streak per loop
 key, both proved to say what the whole history of the run says.
 */
module Guards {

  const STEER_AT := 3
  const CYCLE_AT := 6

  /** A hexadecimal digest, never empty. */
  type Digest = d: string | d != "" witness "0"

  /** A tool call: digests stand for its name with its arguments and for its result. */
  datatype Call = Call(id: string, args: Digest, key: string, result: Digest)

  datatype Pair = Pair(args: string, result: string, id: string)

  datatype Streak = Streak(result: string, first: string, count: nat, steered: bool)

  const NEW_STREAK := Streak("", "", 0, false)

  datatype Verdict = Quiet | WindowCycle(prior: string) | KeyCycle(prior: string) | Steer

  datatype State = State(window: int, keyed: bool, recent: seq<Pair>, streaks: map<string, Streak>)

  function PairOf(c: Call): Pair { Pair(c.args, c.result, c.id) }

  /** How many of the latest entries are identical to `p`. */
  function Trail(pairs: seq<Pair>, p: Pair): (n: nat)
    ensures n <= |pairs|
  {
    if pairs == [] then 0
    else
      var prior := pairs[|pairs| - 1];
      if prior.args != p.args || prior.result != p.result then 0 else 1 + Trail(pairs[..|pairs| - 1], p)
  }

  function LastOf<T>(s: seq<T>, n: nat): (r: seq<T>)
    ensures |r| == if |s| <= n then |s| else n
  {
    if |s| <= n then s else s[|s| - n..]
  }

  function PriorId(pairs: seq<Pair>, n: nat): string
    requires n <= |pairs|
  {
    if n == 0 then "" else pairs[|pairs| - n].id
  }

  function StreakOf(streaks: map<string, Streak>, key: string): Streak {
    if key in streaks then streaks[key] else NEW_STREAK
  }

  /** The streak after one more observation of its key. */
  function Counted(s: Streak, c: Call): Streak {
    if s.result != c.result then s.(result := c.result, first := c.id, count := 1) else s.(count := s.count + 1)
  }

  function Observe(st: State, c: Call): (State, Verdict) {
    if st.window <= 0 then (st, Quiet)
    else
      var n := Trail(st.recent, PairOf(c));
      var next := st.(recent := LastOf(st.recent + [PairOf(c)], st.window));
      if n + 1 >= st.window then (next, WindowCycle(PriorId(st.recent, n)))
      else if !st.keyed then (next, Quiet)
      else
        var streak := Counted(StreakOf(st.streaks, c.key), c);
        if streak.count >= CYCLE_AT then
          (next.(streaks := st.streaks[c.key := streak]), KeyCycle(streak.first))
        else if streak.count == STEER_AT && !streak.steered then
          (next.(streaks := st.streaks[c.key := streak.(steered := true)]), Steer)
        else
          (next.(streaks := st.streaks[c.key := streak]), Quiet)
  }

  function ResetCycle(st: State): State {
    st.(recent := [], streaks := map key | key in st.streaks :: st.streaks[key].(count := 0))
  }

  function Init(window: int, keyed: bool): State { State(window, keyed, [], map[]) }

  // ---- Whole runs ----

  datatype Input = DoObserve(call: Call) | DoReset

  datatype Event = Observed(call: Call, verdict: Verdict) | Reset

  function Step(st: State, input: Input): (State, Event) {
    match input
    case DoObserve(c) => var (next, verdict) := Observe(st, c); (next, Observed(c, verdict))
    case DoReset => (ResetCycle(st), Reset)
  }

  function Run(window: int, keyed: bool, inputs: seq<Input>): (State, seq<Event>)
    decreases |inputs|
  {
    if inputs == [] then (Init(window, keyed), [])
    else
      var (st, h) := Run(window, keyed, inputs[..|inputs| - 1]);
      var (next, event) := Step(st, inputs[|inputs| - 1]);
      (next, h + [event])
  }

  // ---- What the history says ----

  function Front<T>(s: seq<T>): seq<T> requires s != [] { s[..|s| - 1] }

  function Last<T>(s: seq<T>): T requires s != [] { s[|s| - 1] }

  /** Every call since the last reset. */
  function SinceReset(h: seq<Event>): seq<Pair> {
    if h == [] then []
    else match Last(h)
      case Reset => []
      case Observed(c, _) => SinceReset(Front(h)) + [PairOf(c)]
  }

  /** The calls of a key that its streak counted: a call the window already stopped is not one. */
  function OfKey(h: seq<Event>, key: string): seq<Call> {
    if h == [] then []
    else match Last(h)
      case Reset => OfKey(Front(h), key)
      case Observed(c, v) => OfKey(Front(h), key) + (if c.key == key && !v.WindowCycle? then [c] else [])
  }

  function OfKeySinceReset(h: seq<Event>, key: string): seq<Call> {
    if h == [] then []
    else match Last(h)
      case Reset => []
      case Observed(c, v) => OfKeySinceReset(Front(h), key) + (if c.key == key && !v.WindowCycle? then [c] else [])
  }

  /** How many of the latest calls gave the result of the last one. */
  function SameResults(calls: seq<Call>): (n: nat)
    ensures n <= |calls| && (calls != [] ==> n > 0)
  {
    if calls == [] then 0
    else if |calls| > 1 && Last(Front(calls)).result == Last(calls).result then 1 + SameResults(Front(calls))
    else 1
  }

  ghost predicate Steered(h: seq<Event>, key: string) {
    exists i :: 0 <= i < |h| && h[i].Observed? && h[i].verdict == Steer && h[i].call.key == key
  }

  // ---- Both counts, spelled out ----

  /** The last `n` calls have the same arguments and the same result. */
  ghost predicate LastIdentical(pairs: seq<Pair>, n: nat) {
    n <= |pairs| && forall i, j :: |pairs| - n <= i < |pairs| && |pairs| - n <= j < |pairs| ==>
      pairs[i].args == pairs[j].args && pairs[i].result == pairs[j].result
  }

  ghost predicate LastAlike(calls: seq<Call>, n: nat) {
    n <= |calls| && forall i, j :: |calls| - n <= i < |calls| && |calls| - n <= j < |calls| ==>
        calls[i].result == calls[j].result
  }

  ghost predicate Same(q: Pair, p: Pair) { q.args == p.args && q.result == p.result }

  lemma {:induction false} TrailIs(pairs: seq<Pair>, p: Pair, n: nat)
    requires n <= |pairs|
    ensures Trail(pairs, p) >= n <==> forall i :: |pairs| - n <= i < |pairs| ==> Same(pairs[i], p)
  {
    if n > 0 {
      TrailIs(Front(pairs), p, n - 1);
      assert forall i :: 0 <= i < |pairs| - 1 ==> Front(pairs)[i] == pairs[i];
      assert Same(Last(pairs), p) <==> Trail(pairs, p) >= 1;
    }
  }

  lemma TrailIdentical(pairs: seq<Pair>, p: Pair, n: nat)
    ensures Trail(pairs, p) >= n <==> LastIdentical(pairs + [p], n + 1)
  {
    var all := pairs + [p];
    if n <= |pairs| {
      TrailIs(pairs, p, n);
      assert all[|pairs|] == p;
      assert forall i :: 0 <= i < |pairs| ==> all[i] == pairs[i];
    }
  }

  lemma {:induction false} SameResultsIs(calls: seq<Call>, n: nat)
    ensures SameResults(calls) >= n <==> LastAlike(calls, n)
  {
    if n > 1 && |calls| > 1 {
      SameResultsIs(Front(calls), n - 1);
      var k := |calls|;
      assert forall i :: 0 <= i < k - 1 ==> Front(calls)[i] == calls[i];
      if LastAlike(calls, n) {
        assert calls[k - 2].result == calls[k - 1].result;
      }
    }
  }

  /** A window of the last `w` entries counts what the whole list counts, up to `w`. */
  lemma {:induction false} TrailOfWindow(pairs: seq<Pair>, p: Pair, w: nat)
    ensures Trail(LastOf(pairs, w), p) == if Trail(pairs, p) < w then Trail(pairs, p) else w
  {
    if |pairs| > w > 0 {
      assert Front(LastOf(pairs, w)) == LastOf(Front(pairs), w - 1);
      TrailOfWindow(Front(pairs), p, w - 1);
    }
  }

  // ---- Invariant ----

  ghost predicate StreakIs(s: Streak, h: seq<Event>, key: string) {
    var now, ever := OfKeySinceReset(h, key), OfKey(h, key);
    && s.count == SameResults(now)
    && (ever == [] ==> s.result == "")
    && (ever != [] ==> s.result == Last(ever).result && s.first == ever[|ever| - SameResults(ever)].id)
    && (now != [] ==> ever != [] && Last(now) == Last(ever))
    && (s.steered <==> Steered(h, key))
    && (s.count >= STEER_AT ==> s.steered)
  }

  ghost predicate StreaksAre(st: State, h: seq<Event>) {
    forall key :: StreakIs(StreakOf(st.streaks, key), h, key)
  }

  ghost predicate Inv(st: State, h: seq<Event>) {
    && (st.window > 0 ==> st.recent == LastOf(SinceReset(h), st.window))
    && (st.window > 0 && st.keyed ==> StreaksAre(st, h))
  }

  lemma WindowSlides(pairs: seq<Pair>, p: Pair, w: nat)
    requires w > 0
    ensures LastOf(LastOf(pairs, w) + [p], w) == LastOf(pairs + [p], w)
  {
  }

  lemma StepBack(h: seq<Event>, e: Event)
    ensures Front(h + [e]) == h && Last(h + [e]) == e
  {
  }

  lemma SteeredGrows(h: seq<Event>, e: Event, key: string)
    ensures Steered(h + [e], key) <==> Steered(h, key) || (e.Observed? && e.verdict == Steer && e.call.key == key)
  {
    var longer := h + [e];
    assert longer[|h|] == e;
    if Steered(h, key) {
      var i :| 0 <= i < |h| && h[i].Observed? && h[i].verdict == Steer && h[i].call.key == key;
      assert longer[i] == h[i];
    }
    if Steered(longer, key) {
      var i :| 0 <= i < |longer| && longer[i].Observed? && longer[i].verdict == Steer && longer[i].call.key == key;
      assert i < |h| ==> longer[i] == h[i];
    }
  }

  lemma SameResultsGrows(calls: seq<Call>, c: Call)
    ensures SameResults(calls + [c]) ==
            if calls != [] && Last(calls).result == c.result then SameResults(calls) + 1 else 1
  {
    assert Front(calls + [c]) == calls;
  }

  /** An event that is not a counted call of the key leaves its streak alone. */
  lemma StreakOther(s: Streak, h: seq<Event>, e: Event, key: string)
    requires StreakIs(s, h, key)
    requires e.Observed? && (e.call.key != key || e.verdict.WindowCycle?) && (e.verdict == Steer ==> e.call.key != key)
    ensures StreakIs(s, h + [e], key)
  {
    StepBack(h, e);
    SteeredGrows(h, e, key);
    assert OfKey(h, key) + [] == OfKey(h, key);
    assert OfKeySinceReset(h, key) + [] == OfKeySinceReset(h, key);
    assert OfKey(h + [e], key) == OfKey(h, key);
    assert OfKeySinceReset(h + [e], key) == OfKeySinceReset(h, key);
    hide OfKey, OfKeySinceReset, SameResults, Steered;
  }

  lemma StreakReset(s: Streak, h: seq<Event>, key: string)
    requires StreakIs(s, h, key)
    ensures StreakIs(s.(count := 0), h + [Reset], key)
  {
    StepBack(h, Reset);
    SteeredGrows(h, Reset, key);
  }

  lemma OfKeyGrows(h: seq<Event>, c: Call, v: Verdict)
    requires !v.WindowCycle?
    ensures OfKey(h + [Observed(c, v)], c.key) == OfKey(h, c.key) + [c]
    ensures OfKeySinceReset(h + [Observed(c, v)], c.key) == OfKeySinceReset(h, c.key) + [c]
  {
    StepBack(h, Observed(c, v));
  }

  /** A streak counts the latest equal results of its key. */
  lemma StreakCounts(s: Streak, h: seq<Event>, c: Call)
    requires StreakIs(s, h, c.key)
    ensures var t, now, ever := Counted(s, c), OfKeySinceReset(h, c.key) + [c], OfKey(h, c.key) + [c];
            && t.count == SameResults(now)
            && t.result == c.result && t.first == ever[|ever| - SameResults(ever)].id
            && t.steered == s.steered
  {
    hide Steered, OfKey, OfKeySinceReset;
    var now, ever := OfKeySinceReset(h, c.key), OfKey(h, c.key);
    SameResultsGrows(now, c);
    SameResultsGrows(ever, c);
    hide SameResults;
  }

  lemma StreakObserved(s: Streak, h: seq<Event>, c: Call, v: Verdict)
    requires StreakIs(s, h, c.key) && !v.WindowCycle?
    requires v == Steer <==> Counted(s, c).count == STEER_AT && !s.steered
    ensures StreakIs(Counted(s, c).(steered := s.steered || v == Steer), h + [Observed(c, v)], c.key)
  {
    StreakCounts(s, h, c);
    OfKeyGrows(h, c, v);
    SteeredGrows(h, Observed(c, v), c.key);
    assert Counted(s, c).count <= s.count + 1 || Counted(s, c).count == 1;
    hide OfKey, OfKeySinceReset, SameResults, Steered;
  }

  lemma {:induction false} EveryRun(window: int, keyed: bool, inputs: seq<Input>)
    ensures var (st, h) := Run(window, keyed, inputs);
            && st.window == window && st.keyed == keyed && Inv(st, h)
    decreases |inputs|
  {
    if inputs != [] {
      var (st, h) := Run(window, keyed, Front(inputs));
      EveryRun(window, keyed, Front(inputs));
      match Last(inputs)
      case DoObserve(c) => ObserveInv(st, h, c);
      case DoReset => ResetInv(st, h);
    }
  }

  lemma ResetInv(st: State, h: seq<Event>)
    requires Inv(st, h)
    ensures Inv(ResetCycle(st), h + [Reset])
  {
    StepBack(h, Reset);
    var next := ResetCycle(st);
    if st.window > 0 && st.keyed {
      forall key ensures StreakIs(StreakOf(next.streaks, key), h + [Reset], key) {
        StreakReset(StreakOf(st.streaks, key), h, key);
        assert StreakOf(next.streaks, key) == StreakOf(st.streaks, key).(count := 0);
      }
    }
  }

  lemma ObserveInv(st: State, h: seq<Event>, c: Call)
    requires Inv(st, h)
    ensures var (next, v) := Observe(st, c);
            Inv(next, h + [Observed(c, v)])
  {
    var (next, v) := Observe(st, c);
    var e := Observed(c, v);
    if st.window > 0 {
      StepBack(h, e);
      WindowSlides(SinceReset(h), PairOf(c), st.window);
      if st.keyed {
        ObserveStreaks(st, h, c);
      }
    }
  }

  lemma ObserveStreaks(st: State, h: seq<Event>, c: Call)
    requires st.window > 0 && st.keyed && StreaksAre(st, h)
    ensures var (next, v) := Observe(st, c);
            StreaksAre(next, h + [Observed(c, v)])
  {
    var (next, v) := Observe(st, c);
    forall key ensures StreakIs(StreakOf(next.streaks, key), h + [Observed(c, v)], key) {
      assert StreakIs(StreakOf(st.streaks, key), h, key);
      ObserveStreak(st, h, c, key);
    }
  }

  /** What an observation does to each streak. */
  lemma StreakAfter(st: State, c: Call, key: string)
    requires st.window > 0 && st.keyed
    ensures var (next, v) := Observe(st, c);
            var s, t := StreakOf(st.streaks, key), StreakOf(next.streaks, key);
            if key != c.key || v.WindowCycle? then t == s
            else
              && (v == Steer <==> Counted(s, c).count == STEER_AT && !s.steered)
              && t == Counted(s, c).(steered := s.steered || v == Steer)
  {
    hide Trail, LastOf;
  }

  lemma ObserveStreak(st: State, h: seq<Event>, c: Call, key: string)
    requires st.window > 0 && st.keyed && StreakIs(StreakOf(st.streaks, key), h, key)
    ensures var (next, v) := Observe(st, c);
            StreakIs(StreakOf(next.streaks, key), h + [Observed(c, v)], key)
  {
    StreakAfter(st, c, key);
    hide *;
    var (next, v) := Observe(st, c);
    if key != c.key || v.WindowCycle? {
      StreakOther(StreakOf(st.streaks, key), h, Observed(c, v), key);
    } else {
      StreakObserved(StreakOf(st.streaks, key), h, c, v);
    }
  }

  // ---- The results ----

  /**
   The verdict on a call, from the whole run so far: the window's list of at most `window` calls and
   the key's streak lose nothing that decides it.
   */
  lemma VerdictIs(window: int, keyed: bool, inputs: seq<Input>, c: Call)
    requires window > 0
    ensures var (st, h) := Run(window, keyed, inputs);
            var v := Observe(st, c).1;
            var calls, now := SinceReset(h), OfKeySinceReset(h, c.key) + [c];
            var cycling := LastIdentical(calls + [PairOf(c)], window);
            && (v.WindowCycle? <==> cycling)
            && (v.KeyCycle? <==> keyed && !cycling && LastAlike(now, 6))
            && (v == Steer <==>
                  && keyed && !cycling
                  && LastAlike(now, 3) && !LastAlike(now, 4) && !Steered(h, c.key))
  {
    var (st, h) := Run(window, keyed, inputs);
    EveryRun(window, keyed, inputs);
    var calls, now := SinceReset(h), OfKeySinceReset(h, c.key) + [c];
    TrailOfWindow(calls, PairOf(c), window);
    TrailIdentical(calls, PairOf(c), window - 1);
    SameResultsIs(now, CYCLE_AT);
    SameResultsIs(now, STEER_AT);
    SameResultsIs(now, STEER_AT + 1);
    if keyed {
      assert StreakIs(StreakOf(st.streaks, c.key), h, c.key);
      StreakCounts(StreakOf(st.streaks, c.key), h, c);
    }
    hide Run, LastAlike, LastIdentical, StreaksAre, SameResults, Trail;
  }

  /**
   The prior call a verdict names: the oldest call in the identical run that the window still sees,
   or the first of the key's calls in a row with this result, resets notwithstanding.
   */
  lemma PriorIs(window: int, keyed: bool, inputs: seq<Input>, c: Call)
    requires window > 0
    ensures var (st, h) := Run(window, keyed, inputs);
            var v := Observe(st, c).1;
            var calls, ever := SinceReset(h), OfKey(h, c.key) + [c];
            var n := Trail(calls, PairOf(c));
            && (v.WindowCycle? ==> v.prior == PriorId(calls, if n < window then n else window))
            && (v.KeyCycle? ==> v.prior == ever[|ever| - SameResults(ever)].id)
  {
    EveryRun(window, keyed, inputs);
    var (st, h) := Run(window, keyed, inputs);
    hide Run;
    WindowPrior(st, h, c);
    KeyPrior(st, h, c);
    hide *;
  }

  lemma WindowPrior(st: State, h: seq<Event>, c: Call)
    requires st.window > 0 && Inv(st, h)
    ensures var calls, v := SinceReset(h), Observe(st, c).1;
            var n := Trail(calls, PairOf(c));
            v.WindowCycle? ==> v.prior == PriorId(calls, if n < st.window then n else st.window)
  {
    hide *;
    var calls, p := SinceReset(h), PairOf(c);
    RecentIs(st, h);
    TrailOfWindow(calls, p, st.window);
    WindowNames(st, c);
    PriorOfWindow(calls, st.window, Trail(LastOf(calls, st.window), p));
  }

  lemma RecentIs(st: State, h: seq<Event>)
    requires st.window > 0 && Inv(st, h)
    ensures st.recent == LastOf(SinceReset(h), st.window)
  {
  }

  lemma WindowNames(st: State, c: Call)
    requires st.window > 0
    ensures var v := Observe(st, c).1;
            v.WindowCycle? ==> v.prior == PriorId(st.recent, Trail(st.recent, PairOf(c)))
  {
    hide Trail, LastOf, Counted;
  }

  lemma PriorOfWindow(pairs: seq<Pair>, w: nat, n: nat)
    requires n <= |LastOf(pairs, w)|
    ensures n <= |pairs| && PriorId(LastOf(pairs, w), n) == PriorId(pairs, n)
  {
  }

  lemma KeyPrior(st: State, h: seq<Event>, c: Call)
    requires st.window > 0 && Inv(st, h)
    ensures var ever, v := OfKey(h, c.key) + [c], Observe(st, c).1;
            v.KeyCycle? ==> v.prior == ever[|ever| - SameResults(ever)].id
  {
    hide *;
    KeyNames(st, c);
    if st.keyed {
      StreaksFrom(st, h);
      KeyFirst(st, h, c);
    }
  }

  lemma StreaksFrom(st: State, h: seq<Event>)
    requires st.window > 0 && st.keyed && Inv(st, h)
    ensures StreaksAre(st, h)
  {
  }

  lemma KeyNames(st: State, c: Call)
    ensures var v := Observe(st, c).1;
            v.KeyCycle? ==> st.keyed && v.prior == Counted(StreakOf(st.streaks, c.key), c).first
  {
    hide Trail, LastOf;
  }

  lemma KeyFirst(st: State, h: seq<Event>, c: Call)
    requires StreaksAre(st, h)
    ensures var ever := OfKey(h, c.key) + [c];
            Counted(StreakOf(st.streaks, c.key), c).first == ever[|ever| - SameResults(ever)].id
  {
    assert StreakIs(StreakOf(st.streaks, c.key), h, c.key);
    StreakCounts(StreakOf(st.streaks, c.key), h, c);
  }

  /** Without a window no call of any run gets a verdict. */
  lemma {:induction false} QuietWithoutWindow(window: int, keyed: bool, inputs: seq<Input>)
    requires window <= 0
    ensures var (st, h) := Run(window, keyed, inputs);
            && st.window == window
            && forall i :: 0 <= i < |h| && h[i].Observed? ==> h[i].verdict == Quiet
    decreases |inputs|
  {
    if inputs != [] {
      QuietWithoutWindow(window, keyed, Front(inputs));
    }
  }

  predicate Steers(e: Event) { e.Observed? && e.verdict == Steer }

  ghost predicate SteersOnce(h: seq<Event>) {
    forall i, j :: 0 <= i < j < |h| && Steers(h[i]) && Steers(h[j]) ==> h[i].call.key != h[j].call.key
  }

  ghost predicate CyclesSteered(h: seq<Event>) {
    forall j :: 0 <= j < |h| && h[j].Observed? && h[j].verdict.KeyCycle? ==> Steered(h[..j], h[j].call.key)
  }

  /** In every run each key is steered at most once, and a key's cycle verdict comes after its steer. */
  lemma {:induction false} SteerThenCycle(window: int, keyed: bool, inputs: seq<Input>)
    ensures var h := Run(window, keyed, inputs).1;
            && SteersOnce(h) && CyclesSteered(h)
    decreases |inputs|
  {
    if inputs != [] {
      var (st, h) := Run(window, keyed, Front(inputs));
      SteerThenCycle(window, keyed, Front(inputs));
      EveryRun(window, keyed, Front(inputs));
      if Last(inputs).DoObserve? {
        var c := Last(inputs).call;
        SteerIsNew(st, h, c);
        HistoryGrows(h, Observed(c, Observe(st, c).1));
      } else {
        HistoryGrows(h, Reset);
      }
    }
  }

  lemma SteerIsNew(st: State, h: seq<Event>, c: Call)
    requires Inv(st, h)
    ensures var v := Observe(st, c).1;
            && (v == Steer ==> !Steered(h, c.key))
            && (v.KeyCycle? ==> Steered(h, c.key))
  {
    if st.window > 0 && st.keyed {
      assert StreakIs(StreakOf(st.streaks, c.key), h, c.key);
      hide StreaksAre, Steered;
    }
  }

  lemma HistoryGrows(h: seq<Event>, e: Event)
    requires SteersOnce(h) && CyclesSteered(h)
    requires Steers(e) ==> !Steered(h, e.call.key)
    requires e.Observed? && e.verdict.KeyCycle? ==> Steered(h, e.call.key)
    ensures SteersOnce(h + [e]) && CyclesSteered(h + [e])
  {
    var longer := h + [e];
    forall j | 0 <= j < |longer| && longer[j].Observed? && longer[j].verdict.KeyCycle?
      ensures Steered(longer[..j], longer[j].call.key)
    {
      assert longer[..j] == h[..j];
      assert h[..|h|] == h;
    }
    forall i, j | 0 <= i < j < |longer| && Steers(longer[i]) && Steers(longer[j])
      ensures longer[i].call.key != longer[j].call.key
    {
      assert longer[i] == h[i];
    }
  }

  // ---- The object ----

  class RunGuards {
    const window: int
    const keyed: bool
    var recent: seq<Pair>
    var streaks: map<string, Streak>

    function St(): State
      reads this
    {
      State(window, keyed, recent, streaks)
    }

    constructor (window: int, keyed: bool)
      ensures St() == Init(window, keyed)
    {
      this.window, this.keyed := window, keyed;
      recent, streaks := [], map[];
    }

    /** The first loop of Observe: the identical calls at the end of the list. */
    method Consecutive(c: Call) returns (consecutive: nat, prior: string)
      ensures consecutive == Trail(recent, PairOf(c)) && prior == PriorId(recent, consecutive)
    {
      consecutive, prior := 0, "";
      var index := |recent|;
      assert recent[..index] == recent;
      while index > 0 && recent[index - 1].args == c.args && recent[index - 1].result == c.result
        invariant 0 <= index <= |recent| && consecutive == |recent| - index
        invariant Trail(recent, PairOf(c)) == consecutive + Trail(recent[..index], PairOf(c))
        invariant prior == PriorId(recent, consecutive)
      {
        index := index - 1;
        assert recent[..index + 1][..index] == recent[..index];
        consecutive, prior := consecutive + 1, recent[index].id;
      }
    }

    /** The rest of Observe, for a keyed guard: the key's streak and its verdict. */
    method ObserveKey(c: Call) returns (verdict: Verdict)
      modifies this`streaks
      ensures var streak := Counted(StreakOf(old(streaks), c.key), c);
              var steer := streak.count == STEER_AT && !streak.steered;
              && verdict ==
                 (if streak.count >= CYCLE_AT then KeyCycle(streak.first) else if steer then Steer else Quiet)
              && streaks == old(streaks)[c.key := if steer then streak.(steered := true) else streak]
    {
      var streak := if c.key in streaks then streaks[c.key] else NEW_STREAK;
      if streak.result != c.result {
        streak := streak.(result := c.result, first := c.id, count := 0);
      }
      streak := streak.(count := streak.count + 1);
      streaks := streaks[c.key := streak];
      if streak.count >= CYCLE_AT {
        return KeyCycle(streak.first);
      }
      if streak.count == STEER_AT && !streak.steered {
        streaks := streaks[c.key := streak.(steered := true)];
        return Steer;
      }
      return Quiet;
    }

    method ObserveCall(c: Call) returns (verdict: Verdict)
      modifies this
      ensures (St(), verdict) == Observe(old(St()), c)
    {
      if window <= 0 {
        return Quiet;
      }
      var consecutive, prior := Consecutive(c);
      recent := recent + [PairOf(c)];
      if |recent| > window {
        recent := recent[|recent| - window..];
      }
      if consecutive + 1 >= window {
        return WindowCycle(prior);
      }
      if !keyed {
        return Quiet;
      }
      verdict := ObserveKey(c);
    }

    method Restart()
      modifies this
      ensures St() == ResetCycle(old(St()))
    {
      recent := [];
      var left := streaks.Keys;
      while left != {}
        invariant left <= streaks.Keys && streaks.Keys == old(streaks).Keys && recent == []
        invariant forall key :: key in streaks ==>
                  streaks[key] == if key in left then old(streaks)[key] else old(streaks)[key].(count := 0)
      {
        var key :| key in left;
        streaks := streaks[key := streaks[key].(count := 0)];
        left := left - {key};
      }
      assert streaks == map key | key in old(streaks) :: old(streaks)[key].(count := 0);
    }
  }
}
