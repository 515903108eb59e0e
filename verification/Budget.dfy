/**
 Exact token accounting of internal/agent/budget.go: the request is rendered prefix by prefix, each
 step's growth is booked to a category, and a group's growth is split over its messages.
 */
module Budget {
  import opened Common

  datatype Failure = Unavailable | IncompleteGroup

  datatype Result<T> = Ok(value: T) | Err(error: Failure)

  datatype Role = System | User | Assistant | Tool

  datatype Category =
    | SystemBase | Project | Skills | WorkspaceMemory | AgentMemory | Tools
    | History | Files | Results | Fetched | Summary | Other(name: string)

  type Weight = w: nat | w > 0 witness 1

  /** A message with its record's category; `weight` is its own token count plus one, if it could be counted. */
  datatype Message = Message(role: Role, calls: nat, category: Category, weight: Option<Weight>)

  /**
   The server: what a system prompt with messages renders to, in tokens, with or without the tools in
   the template; and how a share tokens * weight / total is rounded.
   */
  datatype Server = Server(render: (string, seq<Message>, bool) -> Option<nat>, round: (nat, Weight, Weight) -> int)

  /** `estimate` is the tools' own count, used when the template does not take tools. */
  datatype Request = Request(
    base: string, project: string, skills: string, workspaceMemory: string, system: string,
    templateTools: bool, estimate: Option<nat>, messages: seq<Message>)

  type Accounts = map<Category, int>

  function Grown(from: int, to: int): nat { if to > from then to - from else 0 }

  function Get(m: Accounts, c: Category): int { if c in m then m[c] else 0 }

  // ---- The system prompt and the tools ----

  /** The counts of the growing system prompt, then with the tools. */
  datatype Head = Head(base: nat, project: nat, skills: nat, workspaceMemory: nat, memory: nat, tools: nat)

  function Extra(q: Request): nat {
    if !q.templateTools && q.estimate.Some? then q.estimate.value else 0
  }

  /** An empty prompt stands for the one before it. */
  function OrPrevious(prompt: string, previous: string): string { if prompt == "" then previous else prompt }

  function Rendered(server: Server, prompt: string): Option<nat> { server.render(prompt, [], false) }

  function RenderHead(server: Server, q: Request): Result<Head> {
    var project := OrPrevious(q.project, q.base);
    var skills := OrPrevious(q.skills, project);
    var ws := OrPrevious(q.workspaceMemory, skills);
    var a := Rendered(server, q.base);
    if a.None? then Err(Unavailable) else
    var b := if project != q.base then Rendered(server, project) else a;
    if b.None? then Err(Unavailable) else
    var c := if skills != project then Rendered(server, skills) else b;
    if c.None? then Err(Unavailable) else
    var d, e := Rendered(server, ws), Rendered(server, q.system);
    if d.None? || e.None? then Err(Unavailable) else
    var t := if q.templateTools then server.render(q.system, [], true) else q.estimate;
    if t.None? then Err(Unavailable) else
    Ok(Head(a.value, b.value, c.value, d.value, e.value, if q.templateTools then t.value else e.value + t.value))
  }

  const NOTHING: Accounts := map[History := 0, Files := 0, Results := 0, Fetched := 0, Summary := 0]

  function HeadAccounts(h: Head): Accounts {
    NOTHING[SystemBase := h.base][Project := Grown(h.base, h.project)][Skills := Grown(h.project, h.skills)]
           [WorkspaceMemory := Grown(h.skills, h.workspaceMemory)][AgentMemory := Grown(h.workspaceMemory, h.memory)]
           [Tools := Grown(h.memory, h.tools)]
  }

  // ---- Grouping ----

  /** How many messages from `from` on are tool results, up to `limit`. */
  function ToolRun(messages: seq<Message>, from: nat, limit: nat): (n: nat)
    ensures n <= limit && (from <= |messages| ==> from + n <= |messages|)
    ensures forall i :: from <= i < from + n ==> i < |messages| && messages[i].role == Tool
    ensures n < limit && from + n < |messages| ==> messages[from + n].role != Tool
    decreases limit
  {
    if limit == 0 || from >= |messages| || messages[from].role != Tool then 0
    else 1 + ToolRun(messages, from + 1, limit - 1)
  }

  function CallsOf(m: Message): nat { if m.role == Assistant then m.calls else 0 }

  /** The end of the group that starts at `index`, exclusive. */
  function GroupEnd(messages: seq<Message>, index: nat): (end: nat)
    requires index < |messages|
    ensures index < end <= |messages|
  {
    index + 1 + ToolRun(messages, index + 1, CallsOf(messages[index]))
  }

  /** Each call of the message at `index` has its result right behind it. */
  predicate Answered(messages: seq<Message>, index: nat)
    requires index < |messages|
  {
    index + CallsOf(messages[index]) < |messages|
    && forall i :: index < i <= index + CallsOf(messages[index]) ==> messages[i].role == Tool
  }

  // ---- Splitting a group ----

  function Sum(s: seq<int>): int { if s == [] then 0 else Sum(s[..|s| - 1]) + s[|s| - 1] }

  function WeightsOf(messages: seq<Message>): (r: Option<seq<Weight>>)
    ensures r.Some? ==> |r.value| == |messages| && forall i :: 0 <= i < |messages| ==>
            messages[i].weight == Some(r.value[i])
    ensures r.None? ==> exists i :: 0 <= i < |messages| && messages[i].weight == None
  {
    if messages == [] then Some([])
    else
      var rest := WeightsOf(messages[..|messages| - 1]);
      if rest.None? || messages[|messages| - 1].weight.None? then None
      else Some(rest.value + [messages[|messages| - 1].weight.value])
  }

  function TotalWeight(weights: seq<Weight>): nat {
    if weights == [] then 0 else TotalWeight(weights[..|weights| - 1]) + weights[|weights| - 1]
  }

  /** The rounded shares of the first `n` messages. */
  function Rounded(server: Server, tokens: nat, weights: seq<Weight>, n: nat): (r: seq<int>)
    requires n <= |weights|
    ensures |r| == n
  {
    if n == 0 then []
    else
      Heavy(weights, n - 1);
      Rounded(server, tokens, weights, n - 1) + [server.round(tokens, weights[n - 1], TotalWeight(weights))]
  }

  lemma {:induction false} Heavy(weights: seq<Weight>, i: nat)
    requires i < |weights|
    ensures TotalWeight(weights) >= weights[i] && TotalWeight(weights) > 0
  {
    if i < |weights| - 1 { Heavy(weights[..|weights| - 1], i); }
  }

  /** Every message but the last takes its rounded share, and the last what remains. */
  function Split(server: Server, tokens: nat, weights: seq<Weight>): (r: seq<int>)
    requires weights != []
    ensures |r| == |weights|
  {
    var most := Rounded(server, tokens, weights, |weights| - 1);
    most + [tokens - Sum(most)]
  }

  /** Whatever the rounding, a group's shares add up to the group's tokens. */
  lemma SplitSums(server: Server, tokens: nat, weights: seq<Weight>)
    requires weights != []
    ensures Sum(Split(server, tokens, weights)) == tokens
  {
    var most := Rounded(server, tokens, weights, |weights| - 1);
    assert Split(server, tokens, weights)[..|weights| - 1] == most;
  }

  lemma SplitAt(server: Server, tokens: nat, weights: seq<Weight>, i: nat)
    requires i + 1 < |weights|
    ensures TotalWeight(weights) > 0
    ensures Split(server, tokens, weights)[i] == server.round(tokens, weights[i], TotalWeight(weights))
  {
    Heavy(weights, i);
    RoundedIs(server, tokens, weights, |weights| - 1, i);
  }

  lemma {:induction false} RoundedIs(server: Server, tokens: nat, weights: seq<Weight>, n: nat, i: nat)
    requires i < n <= |weights|
    ensures TotalWeight(weights) > 0
    ensures Rounded(server, tokens, weights, n)[i] == server.round(tokens, weights[i], TotalWeight(weights))
  {
    Heavy(weights, n - 1);
    if i < n - 1 { RoundedIs(server, tokens, weights, n - 1, i); }
  }

  // ---- The groups of a request ----

  datatype Group = Group(start: nat, end: nat, count: nat, shares: seq<int>)

  function NextGroup(server: Server, q: Request, index: nat, previous: nat): (r: Result<Group>)
    requires index < |q.messages|
    ensures r.Ok? ==> index == r.value.start < r.value.end <= |q.messages|
  {
    var end := GroupEnd(q.messages, index);
    if end - index - 1 < CallsOf(q.messages[index]) then Err(IncompleteGroup)
    else
      var rendered := server.render(q.system, q.messages[..end], q.templateTools);
      if rendered.None? then Err(Unavailable)
      else
        var weights := WeightsOf(q.messages[index..end]);
        if weights.None? then Err(Unavailable)
        else
          var current := rendered.value + Extra(q);
          Ok(Group(index, end, current, Split(server, Grown(previous, current), weights.value)))
  }

  function GroupsFrom(server: Server, q: Request, index: nat, previous: nat): Result<seq<Group>>
    requires index <= |q.messages|
    decreases |q.messages| - index
  {
    if index == |q.messages| then Ok([])
    else
      var next := NextGroup(server, q, index, previous);
      if next.Err? then Err(next.error)
      else
        var rest := GroupsFrom(server, q, next.value.end, next.value.count);
        if rest.Err? then rest else Ok([next.value] + rest.value)
  }

  function Shares(groups: seq<Group>): seq<int> {
    if groups == [] then [] else groups[0].shares + Shares(groups[1..])
  }

  /** Each share is added to its message's category. */
  function AddShares(accounts: Accounts, messages: seq<Message>, shares: seq<int>): Accounts
    requires |shares| <= |messages|
  {
    if shares == [] then accounts
    else
      var n := |shares| - 1;
      var before := AddShares(accounts, messages, shares[..n]);
      before[messages[n].category := Get(before, messages[n].category) + shares[n]]
  }

  datatype Measured = Measured(accounts: Accounts, shares: seq<int>, used: int)

  // ---- Sums over accounts ----

  ghost function Total(m: Accounts): int {
    if m == map[] then 0
    else var c :| c in m; m[c] + Total(m - {c})
  }

  lemma {:induction false} TotalMinus(m: Accounts, c: Category)
    requires c in m
    ensures Total(m) == m[c] + Total(m - {c})
    decreases |m|
  {
    var d :| d in m && Total(m) == m[d] + Total(m - {d});
    hide Total;
    if c != d {
      MinusBoth(m, c, d);
      TotalMinus(m - {d}, c);
      TotalMinus(m - {c}, d);
    }
  }

  lemma MinusBoth(m: Accounts, c: Category, d: Category)
    requires c in m && d in m && c != d
    ensures m - {d} - {c} == m - {c} - {d}
    ensures c in m - {d} && (m - {d})[c] == m[c] && d in m - {c} && (m - {c})[d] == m[d]
    ensures |m - {d}| < |m| && |m - {c}| < |m|
  {
    assert m.Keys == (m - {d}).Keys + {d};
    assert m.Keys == (m - {c}).Keys + {c};
  }

  lemma TotalAdd(m: Accounts, c: Category, n: int)
    ensures Total(m[c := Get(m, c) + n]) == Total(m) + n
  {
    var more := m[c := Get(m, c) + n];
    TotalMinus(more, c);
    if c in m {
      TotalMinus(m, c);
      assert more - {c} == m - {c};
    } else {
      assert more - {c} == m;
    }
  }

  lemma {:induction false} TotalShares(accounts: Accounts, messages: seq<Message>, shares: seq<int>)
    requires |shares| <= |messages|
    ensures Total(AddShares(accounts, messages, shares)) == Total(accounts) + Sum(shares)
  {
    if shares != [] {
      var n := |shares| - 1;
      TotalShares(accounts, messages, shares[..n]);
      TotalAdd(AddShares(accounts, messages, shares[..n]), messages[n].category, shares[n]);
    }
  }

  /** The shares of the messages of one category. */
  function OfCategory(messages: seq<Message>, shares: seq<int>, c: Category): int
    requires |shares| <= |messages|
  {
    if shares == [] then 0
    else
      var n := |shares| - 1;
      OfCategory(messages, shares[..n], c) + if messages[n].category == c then shares[n] else 0
  }

  /** A category holds what the head booked to it and the shares of its own messages. */
  lemma {:induction false} CategoryHolds(accounts: Accounts, messages: seq<Message>, shares: seq<int>, c: Category)
    requires |shares| <= |messages|
    ensures Get(AddShares(accounts, messages, shares), c) == Get(accounts, c) + OfCategory(messages, shares, c)
  {
    if shares != [] { CategoryHolds(accounts, messages, shares[..|shares| - 1], c); }
  }

  // ---- Telescoping ----

  /** The first count and every growth after it. */
  function Climb(counts: seq<nat>): nat {
    if counts == [] then 0
    else if |counts| == 1 then counts[0]
    else Climb(counts[..|counts| - 1]) + Grown(counts[|counts| - 2], counts[|counts| - 1])
  }

  /** No longer prefix renders to fewer tokens. */
  ghost predicate Rising(counts: seq<nat>) {
    forall i :: 0 < i < |counts| ==> counts[i - 1] <= counts[i]
  }

  lemma {:induction false} ClimbBounds(counts: seq<nat>)
    requires counts != []
    ensures Climb(counts) >= counts[|counts| - 1]
    ensures Climb(counts) == counts[|counts| - 1] <==> Rising(counts)
  {
    if |counts| > 1 {
      var front := counts[..|counts| - 1];
      ClimbBounds(front);
      assert Rising(counts) <==> Rising(front) && counts[|counts| - 2] <= counts[|counts| - 1] by {
        assert forall i :: 0 <= i < |front| ==> front[i] == counts[i];
      }
    }
  }

  /** Every message of the group but the last takes its rounded share by its own weight. */
  ghost predicate ByWeight(server: Server, q: Request, g: Group, previous: nat)
    requires g.start < g.end <= |q.messages| && |g.shares| == g.end - g.start
  {
    var weights := WeightsOf(q.messages[g.start..g.end]);
    && weights.Some?
    && forall i :: 0 <= i < |g.shares| - 1 ==>
         TotalWeight(weights.value) > 0 &&
         g.shares[i] == server.round(Grown(previous, g.count), weights.value[i], TotalWeight(weights.value))
  }

  /** What each group is, from `index` and the count before it. */
  ghost predicate Chain(server: Server, q: Request, groups: seq<Group>, index: nat, previous: nat) {
    if groups == [] then index == |q.messages|
    else
      var g := groups[0];
      && g.start == index < g.end <= |q.messages|
      && g.end == index + 1 + CallsOf(q.messages[index]) && Answered(q.messages, index)
      && server.render(q.system, q.messages[..g.end], q.templateTools).Some?
      && g.count == server.render(q.system, q.messages[..g.end], q.templateTools).value + Extra(q)
      && |g.shares| == g.end - g.start && Sum(g.shares) == Grown(previous, g.count)
      && ByWeight(server, q, g, previous)
      && Chain(server, q, groups[1..], g.end, g.count)
  }

  lemma NextIs(server: Server, q: Request, index: nat, previous: nat)
    requires index < |q.messages|
    ensures var r := NextGroup(server, q, index, previous);
            && (r == Err(IncompleteGroup) <==> !Answered(q.messages, index))
            && (r.Ok? ==>
                  var g := r.value;
                  && g.end == index + 1 + CallsOf(q.messages[index])
                  && server.render(q.system, q.messages[..g.end], q.templateTools).Some?
                  && g.count == server.render(q.system, q.messages[..g.end], q.templateTools).value + Extra(q)
                  && |g.shares| == g.end - g.start && Sum(g.shares) == Grown(previous, g.count)
                  && ByWeight(server, q, g, previous))
  {
    AnsweredIs(q.messages, index);
    hide *;
    var end := GroupEnd(q.messages, index);
    if end - index - 1 < CallsOf(q.messages[index]) {
      NextIncomplete(server, q, index, previous);
    } else {
      NextComplete(server, q, index, previous);
    }
  }

  lemma NextIncomplete(server: Server, q: Request, index: nat, previous: nat)
    requires index < |q.messages| && GroupEnd(q.messages, index) - index - 1 < CallsOf(q.messages[index])
    ensures NextGroup(server, q, index, previous) == Err(IncompleteGroup)
  {
  }

  lemma NextComplete(server: Server, q: Request, index: nat, previous: nat)
    requires index < |q.messages| && GroupEnd(q.messages, index) - index - 1 >= CallsOf(q.messages[index])
    ensures var r, end := NextGroup(server, q, index, previous), GroupEnd(q.messages, index);
            && (r.Err? ==> r == Err(Unavailable))
            && (r.Ok? ==>
                  var g := r.value;
                  && g.end == end
                  && server.render(q.system, q.messages[..end], q.templateTools).Some?
                  && g.count == server.render(q.system, q.messages[..end], q.templateTools).value + Extra(q)
                  && |g.shares| == g.end - g.start && Sum(g.shares) == Grown(previous, g.count)
                  && ByWeight(server, q, g, previous))
  {
    hide Split, Sum, WeightsOf, GroupEnd, Grown, Extra, CallsOf;
    var end := GroupEnd(q.messages, index);
    var rendered := server.render(q.system, q.messages[..end], q.templateTools);
    var weights := WeightsOf(q.messages[index..end]);
    if rendered.Some? && weights.Some? {
      var tokens := Grown(previous, rendered.value + Extra(q));
      SplitSums(server, tokens, weights.value);
      forall i | 0 <= i < |weights.value| - 1
        ensures TotalWeight(weights.value) > 0
        ensures Split(server, tokens, weights.value)[i] ==
                server.round(tokens, weights.value[i], TotalWeight(weights.value))
      {
        SplitAt(server, tokens, weights.value, i);
      }
    }
  }

  lemma AnsweredIs(messages: seq<Message>, index: nat)
    requires index < |messages|
    ensures GroupEnd(messages, index) - index - 1 <= CallsOf(messages[index])
    ensures GroupEnd(messages, index) - index - 1 == CallsOf(messages[index]) <==> Answered(messages, index)
  {
  }

  lemma {:induction false} GroupsChain(server: Server, q: Request, index: nat, previous: nat)
    requires index <= |q.messages|
    ensures var r := GroupsFrom(server, q, index, previous);
            r.Ok? ==> Chain(server, q, r.value, index, previous)
    decreases |q.messages| - index
  {
    hide NextGroup;
    if index < |q.messages| {
      NextIs(server, q, index, previous);
      var next := NextGroup(server, q, index, previous);
      if next.Ok? {
        GroupsChain(server, q, next.value.end, next.value.count);
        var rest := GroupsFrom(server, q, next.value.end, next.value.count);
        hide Answered, Sum;
        if rest.Ok? {
          assert ([next.value] + rest.value)[1..] == rest.value;
        }
      }
    }
  }

  /** Every assistant message has its results right behind it. */
  ghost predicate AllAnswered(messages: seq<Message>, index: nat) {
    forall i :: index <= i < |messages| ==> Answered(messages, i)
  }

  /**
   Grouping succeeds only on a request in which every assistant message, wherever it stands, is
   followed by a result for each of its calls; and it is refused as incomplete only on others.
   */
  lemma {:induction false} GroupsAnswered(server: Server, q: Request, index: nat, previous: nat)
    requires index <= |q.messages|
    ensures GroupsFrom(server, q, index, previous).Ok? ==> AllAnswered(q.messages, index)
    ensures GroupsFrom(server, q, index, previous) == Err(IncompleteGroup) ==> !AllAnswered(q.messages, index)
    decreases |q.messages| - index
  {
    hide NextGroup;
    if index < |q.messages| {
      NextIs(server, q, index, previous);
      var next := NextGroup(server, q, index, previous);
      if next.Ok? {
        var end := next.value.end;
        GroupsAnswered(server, q, end, next.value.count);
        assert forall i :: index < i < end ==> q.messages[i].role == Tool;
        assert forall i :: index < i < end ==> Answered(q.messages, i);
        hide Answered;
      }
    }
  }

  /** The groups' counts, behind the ones before. */
  function CountsOf(groups: seq<Group>): seq<nat> {
    if groups == [] then [] else [groups[0].count] + CountsOf(groups[1..])
  }

  lemma {:induction false} SumAppend(a: seq<int>, b: seq<int>)
    ensures Sum(a + b) == Sum(a) + Sum(b)
  {
    if b == [] {
      assert a + b == a;
    } else {
      assert (a + b)[..|a + b| - 1] == a + b[..|b| - 1];
      SumAppend(a, b[..|b| - 1]);
    }
  }

  lemma ClimbMore(counts: seq<nat>, next: nat)
    requires counts != []
    ensures Climb(counts + [next]) == Climb(counts) + Grown(counts[|counts| - 1], next)
  {
    assert (counts + [next])[..|counts|] == counts;
  }

  lemma {:induction false} ChainClimbs(server: Server, q: Request, groups: seq<Group>, index: nat, before: seq<nat>)
    requires before != [] && Chain(server, q, groups, index, before[|before| - 1])
    ensures Climb(before + CountsOf(groups)) == Climb(before) + Sum(Shares(groups))
    ensures |Shares(groups)| == |q.messages| - index
  {
    ChainHead(server, q, groups, index, before[|before| - 1]);
    hide *;
    CountsStep(groups);
    if groups == [] {
      SumNone();
      AddNone(before);
    } else {
      var g, rest := groups[0], groups[1..];
      LastAdded(before, g.count);
      ChainClimbs(server, q, rest, g.end, before + [g.count]);
      ClimbMore(before, g.count);
      SumAppend(g.shares, Shares(rest));
      Assoc(before, [g.count], CountsOf(rest));
    }
  }

  lemma AddNone<T>(a: seq<T>)
    ensures a + [] == a
  {
  }

  lemma LastAdded<T>(a: seq<T>, x: T)
    ensures a + [x] != [] && (a + [x])[|a + [x]| - 1] == x
  {
  }

  lemma ChainHead(server: Server, q: Request, groups: seq<Group>, index: nat, previous: nat)
    requires Chain(server, q, groups, index, previous)
    ensures groups == [] ==> index == |q.messages|
    ensures groups != [] ==>
              var g := groups[0];
              && g.start == index < g.end <= |q.messages|
              && |g.shares| == g.end - g.start && Sum(g.shares) == Grown(previous, g.count)
              && Chain(server, q, groups[1..], g.end, g.count)
  {
  }

  lemma CountsStep(groups: seq<Group>)
    ensures CountsOf(groups) == if groups == [] then [] else [groups[0].count] + CountsOf(groups[1..])
    ensures Shares(groups) == if groups == [] then [] else groups[0].shares + Shares(groups[1..])
  {
  }

  lemma SumNone()
    ensures Sum([]) == 0
  {
  }

  /** The last count is the template's count of the whole request. */
  lemma {:induction false} ChainEnds(server: Server, q: Request, groups: seq<Group>, index: nat, previous: nat)
    requires Chain(server, q, groups, index, previous) && groups != []
    ensures var whole := server.render(q.system, q.messages, q.templateTools);
            && whole.Some?
            && CountsOf(groups) != [] && CountsOf(groups)[|CountsOf(groups)| - 1] == whole.value + Extra(q)
  {
    var g, rest := groups[0], groups[1..];
    if rest == [] {
      assert g.end == |q.messages|;
      assert q.messages[..g.end] == q.messages;
    } else {
      ChainEnds(server, q, rest, g.end, g.count);
    }
    hide Answered, Sum;
  }

  // ---- The whole measurement ----

  function HeadCounts(h: Head): seq<nat> {
    [h.base, h.project, h.skills, h.workspaceMemory, h.memory, h.tools]
  }

  lemma NothingTotals()
    ensures Total(NOTHING) == 0
  {
    var a: Accounts := map[];
    TotalAdd(a, History, 0);
    TotalAdd(a[History := 0], Files, 0);
    TotalAdd(a[History := 0][Files := 0], Results, 0);
    TotalAdd(a[History := 0][Files := 0][Results := 0], Fetched, 0);
    TotalAdd(a[History := 0][Files := 0][Results := 0][Fetched := 0], Summary, 0);
    assert NOTHING == a[History := 0][Files := 0][Results := 0][Fetched := 0][Summary := 0];
  }

  lemma HeadTotals(h: Head)
    ensures Total(HeadAccounts(h)) == Climb(HeadCounts(h))
  {
    NothingTotals();
    var a := NOTHING[SystemBase := h.base];
    var b := a[Project := Grown(h.base, h.project)];
    var c := b[Skills := Grown(h.project, h.skills)];
    var d := c[WorkspaceMemory := Grown(h.skills, h.workspaceMemory)];
    var e := d[AgentMemory := Grown(h.workspaceMemory, h.memory)];
    TotalAdd(NOTHING, SystemBase, h.base);
    TotalAdd(a, Project, Grown(h.base, h.project));
    TotalAdd(b, Skills, Grown(h.project, h.skills));
    TotalAdd(c, WorkspaceMemory, Grown(h.skills, h.workspaceMemory));
    TotalAdd(d, AgentMemory, Grown(h.workspaceMemory, h.memory));
    TotalAdd(e, Tools, Grown(h.memory, h.tools));
    HeadClimbs(h);
    hide Total, Climb, Grown;
  }

  lemma HeadClimbs(h: Head)
    ensures Climb(HeadCounts(h)) ==
            h.base + Grown(h.base, h.project) + Grown(h.project, h.skills) + Grown(h.skills, h.workspaceMemory)
            + Grown(h.workspaceMemory, h.memory) + Grown(h.memory, h.tools)
  {
    ClimbMore([h.base], h.project);
    ClimbMore([h.base, h.project], h.skills);
    ClimbMore([h.base, h.project, h.skills], h.workspaceMemory);
    ClimbMore([h.base, h.project, h.skills, h.workspaceMemory], h.memory);
    ClimbMore([h.base, h.project, h.skills, h.workspaceMemory, h.memory], h.tools);
    assert Climb([h.base]) == h.base;
    hide Climb, Grown;
    assert [h.base] + [h.project] == [h.base, h.project];
    assert [h.base, h.project] + [h.skills] == [h.base, h.project, h.skills];
    assert [h.base, h.project, h.skills] + [h.workspaceMemory] == [h.base, h.project, h.skills, h.workspaceMemory];
    assert [h.base, h.project, h.skills, h.workspaceMemory] + [h.memory] ==
           [h.base, h.project, h.skills, h.workspaceMemory, h.memory];
    assert [h.base, h.project, h.skills, h.workspaceMemory, h.memory] + [h.tools] == HeadCounts(h);
  }

  lemma SharesCover(server: Server, q: Request, h: Head)
    ensures var r := GroupsFrom(server, q, 0, h.tools);
            r.Ok? ==> |Shares(r.value)| == |q.messages|
  {
    var r := GroupsFrom(server, q, 0, h.tools);
    if r.Ok? {
      GroupsChain(server, q, 0, h.tools);
      ChainClimbs(server, q, r.value, 0, HeadCounts(h));
    }
  }

  /** The exact branch of measure. */
  ghost function Measure(server: Server, q: Request): Result<Measured> {
    var head := RenderHead(server, q);
    if head.Err? then Err(head.error)
    else
      var groups := GroupsFrom(server, q, 0, head.value.tools);
      if groups.Err? then Err(groups.error)
      else
        SharesCover(server, q, head.value);
        var shares := Shares(groups.value);
        var accounts := AddShares(HeadAccounts(head.value), q.messages, shares);
        Ok(Measured(accounts, shares, Total(accounts)))
  }

  /** The counts the measurement steps through, from the base prompt to the whole request. */
  ghost function Steps(server: Server, q: Request): seq<nat>
    requires Measure(server, q).Ok?
  {
    var h := RenderHead(server, q).value;
    HeadCounts(h) + CountsOf(GroupsFrom(server, q, 0, h.tools).value)
  }

  lemma StepsEnd(server: Server, q: Request)
    requires Measure(server, q).Ok?
    ensures var whole, steps := server.render(q.system, q.messages, q.templateTools), Steps(server, q);
            whole.Some? && steps != [] && steps[|steps| - 1] == whole.value + Extra(q)
  {
    var h := RenderHead(server, q).value;
    var groups := GroupsFrom(server, q, 0, h.tools).value;
    GroupsChain(server, q, 0, h.tools);
    if groups == [] {
      assert q.messages == [];
    } else {
      ChainEnds(server, q, groups, 0, h.tools);
    }
  }

  /**
   The categories add up to at least the count of the whole request, and to exactly that count if
   and only if no longer prefix renders to fewer tokens.
   */
  lemma ExactTelescopes(server: Server, q: Request)
    requires Measure(server, q).Ok?
    ensures var m, whole := Measure(server, q).value, server.render(q.system, q.messages, q.templateTools);
            && whole.Some?
            && (!q.templateTools ==> q.estimate.Some?)
            && var count := whole.value + if q.templateTools then 0 else q.estimate.value;
               && m.used == Total(m.accounts) >= count
               && (m.used == count <==> Rising(Steps(server, q)))
  {
    ExtraIs(server, q);
    UsedClimbs(server, q);
    StepsEnd(server, q);
    ClimbBounds(Steps(server, q));
    hide *;
  }

  lemma ExtraIs(server: Server, q: Request)
    requires Measure(server, q).Ok?
    ensures !q.templateTools ==> q.estimate.Some?
    ensures Extra(q) == if q.templateTools then 0 else q.estimate.value
  {
  }

  lemma UsedClimbs(server: Server, q: Request)
    requires Measure(server, q).Ok?
    ensures var m := Measure(server, q).value;
            m.used == Total(m.accounts) == Climb(Steps(server, q))
  {
    var h := RenderHead(server, q).value;
    var groups := GroupsFrom(server, q, 0, h.tools).value;
    GroupsChain(server, q, 0, h.tools);
    hide RenderHead, GroupsFrom, Chain, Climb, Total;
    SharesCover(server, q, h);
    ChainClimbs(server, q, groups, 0, HeadCounts(h));
    HeadTotals(h);
    TotalShares(HeadAccounts(h), q.messages, Shares(groups));
    hide AddShares, HeadAccounts, Shares, Sum, CountsOf;
  }

  /** A category holds the head's part and its own messages' shares, nothing else. */
  lemma CategoriesExact(server: Server, q: Request, c: Category)
    requires Measure(server, q).Ok?
    ensures var m := Measure(server, q).value;
            && |m.shares| == |q.messages|
            && Get(m.accounts, c) == Get(HeadAccounts(RenderHead(server, q).value), c) +
                 OfCategory(q.messages, m.shares, c)
  {
    var h := RenderHead(server, q).value;
    var groups := GroupsFrom(server, q, 0, h.tools).value;
    SharesCover(server, q, h);
    CategoryHolds(HeadAccounts(h), q.messages, Shares(groups), c);
    hide RenderHead, GroupsFrom, AddShares, HeadAccounts, Shares, OfCategory, Total;
  }

  /** What is booked to a category of the head. */
  function HeadPart(server: Server, q: Request, c: Category): int {
    Get(match RenderHead(server, q) case Ok(h) => HeadAccounts(h) case Err(_) => NOTHING, c)
  }

  /**
   The head's categories, from the renderings of the growing prompt: the base prompt whole, and for the
   project, the skills, the workspace memory and the agent's memory what each adds to the prompt before
   it, an empty prompt standing for that one; the tools what the template makes of them, or their own
   count; and nothing for any other category.
   */
  lemma HeadBooks(server: Server, q: Request)
    requires RenderHead(server, q).Ok?
    ensures var project := if q.project == "" then q.base else q.project;
            var skills := if q.skills == "" then project else q.skills;
            var memory := if q.workspaceMemory == "" then skills else q.workspaceMemory;
            var a, b, c := server.render(q.base, [], false), server.render(project, [], false),
                server.render(skills, [], false);
            var d, e := server.render(memory, [], false), server.render(q.system, [], false);
            && a.Some? && b.Some? && c.Some? && d.Some? && e.Some?
            && HeadPart(server, q, SystemBase) == a.value
            && HeadPart(server, q, Project) == Rise(a.value, b.value)
            && HeadPart(server, q, Skills) == Rise(b.value, c.value)
            && HeadPart(server, q, WorkspaceMemory) == Rise(c.value, d.value)
            && HeadPart(server, q, AgentMemory) == Rise(d.value, e.value)
            && (q.templateTools ==>
                  && server.render(q.system, [], true).Some?
                  && HeadPart(server, q, Tools) == Rise(e.value, server.render(q.system, [], true).value))
            && (!q.templateTools ==> q.estimate.Some? && HeadPart(server, q, Tools) == q.estimate.value)
            && forall o :: o !in {SystemBase, Project, Skills, WorkspaceMemory, AgentMemory, Tools} ==>
                 HeadPart(server, q, o) == 0
  {
    HeadRenderings(server, q);
    var h := RenderHead(server, q).value;
    HeadByCategory(h);
    hide RenderHead, HeadAccounts;
  }

  /** How much more the second count is. */
  function Rise(from: nat, to: nat): nat { if from <= to then to - from else 0 }

  lemma HeadRenderings(server: Server, q: Request)
    requires RenderHead(server, q).Ok?
    ensures var project := if q.project == "" then q.base else q.project;
            var skills := if q.skills == "" then project else q.skills;
            var memory := if q.workspaceMemory == "" then skills else q.workspaceMemory;
            var h := RenderHead(server, q).value;
            && server.render(q.base, [], false) == Some(h.base) && server.render(project, [], false) == Some(h.project)
            && server.render(skills, [], false) == Some(h.skills)
            && server.render(memory, [], false) == Some(h.workspaceMemory)
            && server.render(q.system, [], false) == Some(h.memory)
            && (q.templateTools ==> server.render(q.system, [], true) == Some(h.tools))
            && (!q.templateTools ==> q.estimate.Some? && h.tools == h.memory + q.estimate.value)
  {
  }

  lemma HeadByCategory(h: Head)
    ensures var m := HeadAccounts(h);
            && Get(m, SystemBase) == h.base && Get(m, Project) == Rise(h.base, h.project)
            && Get(m, Skills) == Rise(h.project, h.skills)
            && Get(m, WorkspaceMemory) == Rise(h.skills, h.workspaceMemory)
            && Get(m, AgentMemory) == Rise(h.workspaceMemory, h.memory)
            && Get(m, Tools) == Rise(h.memory, h.tools)
            && forall o :: o !in {SystemBase, Project, Skills, WorkspaceMemory, AgentMemory, Tools} ==> Get(m, o) == 0
  {
  }

  // ---- Every message in exactly one group ----

  ghost predicate InGroup(groups: seq<Group>, j: nat, i: nat) {
    j < |groups| && groups[j].start <= i < groups[j].end
  }

  lemma {:induction false} GroupsCover(server: Server, q: Request, groups: seq<Group>, index: nat, previous: nat,
                                       i: nat)
    requires Chain(server, q, groups, index, previous) && index <= i < |q.messages|
    ensures exists j: nat :: InGroup(groups, j, i)
  {
    ChainHead(server, q, groups, index, previous);
    hide Chain;
    var g, rest := groups[0], groups[1..];
    if i < g.end {
      assert InGroup(groups, 0, i);
    } else {
      GroupsCover(server, q, rest, g.end, g.count, i);
      var j: nat :| InGroup(rest, j, i);
      assert InGroup(groups, j + 1, i);
    }
  }

  lemma {:induction false} GroupsAfter(server: Server, q: Request, groups: seq<Group>, index: nat, previous: nat,
                                       j: nat)
    requires Chain(server, q, groups, index, previous) && j < |groups|
    ensures groups[j].start >= index
  {
    ChainHead(server, q, groups, index, previous);
    hide Chain;
    if j > 0 {
      GroupsAfter(server, q, groups[1..], groups[0].end, groups[0].count, j - 1);
    }
  }

  lemma {:induction false} GroupsApart(server: Server, q: Request, groups: seq<Group>, index: nat, previous: nat,
                                       j: nat, k: nat, i: nat)
    requires Chain(server, q, groups, index, previous) && j < k && InGroup(groups, j, i)
    ensures !InGroup(groups, k, i)
  {
    if k < |groups| {
      ChainHead(server, q, groups, index, previous);
      hide Chain;
      var g, rest := groups[0], groups[1..];
      if j == 0 {
        GroupsAfter(server, q, rest, g.end, g.count, k - 1);
      } else {
        assert InGroup(rest, j - 1, i) && rest[k - 1] == groups[k];
        GroupsApart(server, q, rest, g.end, g.count, j - 1, k - 1, i);
      }
    }
  }

  /**
   A measured request: every assistant message is answered, each message is in exactly one group, and
   each group's shares add up to what its rendering added.
   */
  lemma EachMessageOnce(server: Server, q: Request, i: nat)
    requires Measure(server, q).Ok? && i < |q.messages|
    ensures var groups := GroupsFrom(server, q, 0, RenderHead(server, q).value.tools).value;
            && AllAnswered(q.messages, 0)
            && (exists j: nat :: InGroup(groups, j, i))
            && (forall j: nat, k: nat :: InGroup(groups, j, i) && InGroup(groups, k, i) ==> j == k)
  {
    var h := RenderHead(server, q).value;
    var groups := GroupsFrom(server, q, 0, h.tools).value;
    GroupsAnswered(server, q, 0, h.tools);
    GroupsChain(server, q, 0, h.tools);
    hide Chain, GroupsFrom, RenderHead, AllAnswered, InGroup;
    GroupsCover(server, q, groups, 0, h.tools, i);
    forall j: nat, k: nat | InGroup(groups, j, i) && InGroup(groups, k, i) ensures j == k {
      if j < k {
        GroupsApart(server, q, groups, 0, h.tools, j, k, i);
      } else if k < j {
        GroupsApart(server, q, groups, 0, h.tools, k, j, i);
      }
    }
  }

  lemma IncompleteOnlyIfUnanswered(server: Server, q: Request)
    requires Measure(server, q) == Err(IncompleteGroup)
    ensures !AllAnswered(q.messages, 0)
  {
    var h := RenderHead(server, q);
    if h.Ok? {
      GroupsAnswered(server, q, 0, h.value.tools);
    }
  }

  // ---- Rounding to the nearest ----

  function Nearest(tokens: nat, weight: Weight, total: Weight): nat {
    (2 * tokens * weight + total) / (2 * total)
  }

  ghost predicate RoundsToNearest(server: Server) {
    forall t: nat, w: Weight, total: Weight :: server.round(t, w, total) == Nearest(t, w, total)
  }

  lemma NearestError(tokens: nat, weight: Weight, total: Weight)
    ensures 2 * total * Nearest(tokens, weight, total) <= 2 * tokens * weight + total
  {
    var a, b := 2 * tokens * weight + total, 2 * total;
    assert b * (a / b) <= a;
  }

  lemma {:induction false} RoundedBound(server: Server, tokens: nat, weights: seq<Weight>, n: nat)
    requires n <= |weights| && weights != [] && RoundsToNearest(server)
    ensures 2 * TotalWeight(weights) * Sum(Rounded(server, tokens, weights, n)) <=
            2 * tokens * TotalWeight(weights[..n]) + n * TotalWeight(weights)
  {
    if n > 0 {
      Heavy(weights, n - 1);
      var total, w := TotalWeight(weights), weights[n - 1];
      var before, share := Rounded(server, tokens, weights, n - 1), server.round(tokens, w, total);
      RoundedBound(server, tokens, weights, n - 1);
      NearestError(tokens, w, total);
      assert Rounded(server, tokens, weights, n) == before + [share];
      assert (before + [share])[..n - 1] == before;
      assert weights[..n][..n - 1] == weights[..n - 1];
      BoundStep(total, Sum(before), share, tokens, TotalWeight(weights[..n - 1]), w, n);
    }
  }

  lemma BoundStep(total: int, before: int, share: int, tokens: int, weighed: int, w: int, n: int)
    requires 2 * total * before <= 2 * tokens * weighed + (n - 1) * total
    requires 2 * total * share <= 2 * tokens * w + total
    ensures 2 * total * (before + share) <= 2 * tokens * (weighed + w) + n * total
  {
  }

  /** Rounding to the nearest, the last share is short of its part by at most half a token per other message. */
  lemma LastShareBound(server: Server, tokens: nat, weights: seq<Weight>)
    requires weights != [] && RoundsToNearest(server)
    ensures var n, total := |weights| - 1, TotalWeight(weights);
            2 * total * Split(server, tokens, weights)[n] >= 2 * tokens * weights[n] - n * total
  {
    hide *;
    var n, total := |weights| - 1, TotalWeight(weights);
    RoundedBound(server, tokens, weights, n);
    var most := Sum(Rounded(server, tokens, weights, n));
    SplitLast(server, tokens, weights);
    LastStep(total, most, tokens, TotalWeight(weights[..n]), weights[n], n);
  }

  lemma SplitLast(server: Server, tokens: nat, weights: seq<Weight>)
    requires weights != []
    ensures var n := |weights| - 1;
            && TotalWeight(weights) == TotalWeight(weights[..n]) + weights[n]
            && Split(server, tokens, weights)[n] == tokens - Sum(Rounded(server, tokens, weights, n))
  {
  }

  lemma LastStep(total: int, most: int, tokens: int, weighed: int, w: int, n: int)
    requires total == weighed + w
    requires 2 * total * most <= 2 * tokens * weighed + n * total
    ensures 2 * total * (tokens - most) >= 2 * tokens * w - n * total
  {
  }

  /** So a group of up to three messages has no negative share. */
  lemma UpToThreeNonnegative(server: Server, tokens: nat, weights: seq<Weight>)
    requires 0 < |weights| <= 3 && RoundsToNearest(server)
    ensures forall i :: 0 <= i < |weights| ==> Split(server, tokens, weights)[i] >= 0
  {
    var n, total := |weights| - 1, TotalWeight(weights);
    var shares := Split(server, tokens, weights);
    forall i | 0 <= i < n ensures shares[i] >= 0 {
      RoundedAt(server, tokens, weights, n, i);
    }
    Heavy(weights, n);
    LastShareBound(server, tokens, weights);
    if tokens == 0 {
      forall i | 0 <= i < n ensures shares[i] == 0 {
        RoundedAt(server, tokens, weights, n, i);
        assert Nearest(0, weights[i], total) == 0;
      }
      SumZero(shares[..n]);
      assert shares[..n] == Rounded(server, tokens, weights, n);
    } else {
      LastNonnegative(total, shares[n], tokens, weights[n], n);
    }
  }

  lemma LastNonnegative(total: int, last: int, tokens: int, w: int, n: int)
    requires total > 0 && tokens > 0 && w > 0 && n <= 2
    requires 2 * total * last >= 2 * tokens * w - n * total
    ensures last >= 0
  {
    assert tokens * w > 0;
    assert n * total <= 2 * total;
    assert 2 * total * (last + 1) > 0;
    assert last + 1 > 0;
  }

  lemma {:induction false} SumZero(s: seq<int>)
    requires forall i :: 0 <= i < |s| ==> s[i] == 0
    ensures Sum(s) == 0
  {
    if s != [] { SumZero(s[..|s| - 1]); }
  }

  lemma {:induction false} RoundedAt(server: Server, tokens: nat, weights: seq<Weight>, n: nat, i: nat)
    requires i < n <= |weights| && RoundsToNearest(server)
    ensures TotalWeight(weights) > 0
    ensures Rounded(server, tokens, weights, n)[i] == Nearest(tokens, weights[i], TotalWeight(weights))
  {
    Heavy(weights, n - 1);
    if i < n - 1 { RoundedAt(server, tokens, weights, n - 1, i); }
  }

  /** Four messages of equal weight sharing two tokens: the last one's share is negative. */
  lemma NegativeShare(server: Server)
    requires RoundsToNearest(server)
    ensures Split(server, 2, [1, 1, 1, 1]) == [1, 1, 1, -1]
  {
    var weights: seq<Weight> := [1, 1, 1, 1];
    assert weights[..3] == [1, 1, 1] && weights[..3][..2] == [1, 1] && weights[..3][..2][..1] == [1];
    assert TotalWeight(weights[..3][..2][..1]) == 1;
    assert TotalWeight(weights[..3][..2]) == 2;
    assert TotalWeight(weights[..3]) == 3;
    assert TotalWeight(weights) == 4;
    RoundedAt(server, 2, weights, 3, 0);
    RoundedAt(server, 2, weights, 3, 1);
    RoundedAt(server, 2, weights, 3, 2);
    assert Nearest(2, 1, 4) == 1;
    assert Rounded(server, 2, weights, 3) == [1, 1, 1];
    SumThree([1, 1, 1]);
  }

  lemma SumThree(s: seq<int>)
    requires |s| == 3
    ensures Sum(s) == s[0] + s[1] + s[2]
  {
    assert s[..2][..1] == s[..1] && s[..1][..0] == [];
    assert Sum(s[..1]) == s[0];
    assert Sum(s[..2]) == s[0] + s[1];
  }

  // ---- Which group sizes are safe ----

  function Ones(n: nat): (weights: seq<Weight>)
    ensures |weights| == n && forall i :: 0 <= i < n ==> weights[i] == 1
  {
    if n == 0 then [] else Ones(n - 1) + [1]
  }

  lemma {:induction false} OnesWeigh(n: nat)
    ensures TotalWeight(Ones(n)) == n
  {
    if n > 0 {
      OnesWeigh(n - 1);
      assert Ones(n)[..n - 1] == Ones(n - 1);
    }
  }

  /** Half the group's size in tokens, rounded up, rounds to one token each. */
  lemma HalfRoundsToOne(n: nat)
    requires n >= 2
    ensures Nearest((n + 1) / 2, 1, n) == 1
  {
    var a := 2 * ((n + 1) / 2) * 1 + n;
    assert 2 * n <= a < 4 * n;
    OneTimes(a, 2 * n);
  }

  lemma OneTimes(a: nat, b: nat)
    requires 0 < b <= a < 2 * b
    ensures a / b == 1
  {
  }

  lemma {:induction false} SumOnes(s: seq<int>)
    requires forall i :: 0 <= i < |s| ==> s[i] == 1
    ensures Sum(s) == |s|
  {
    if s != [] { SumOnes(s[..|s| - 1]); }
  }

  /** Equal messages sharing half as many tokens, rounded up: the last one's share is negative from four on. */
  lemma EqualMessagesNegative(server: Server, n: nat)
    requires n >= 4 && RoundsToNearest(server)
    ensures Split(server, (n + 1) / 2, Ones(n))[n - 1] == (n + 1) / 2 - (n - 1) < 0
  {
    var weights, tokens := Ones(n), (n + 1) / 2;
    OnesWeigh(n);
    HalfRoundsToOne(n);
    var most := Rounded(server, tokens, weights, n - 1);
    forall i | 0 <= i < n - 1 ensures most[i] == 1 {
      RoundedAt(server, tokens, weights, n - 1, i);
    }
    hide Nearest, Rounded, Ones, RoundsToNearest;
    SumOnes(most);
  }

  ghost predicate NoNegative(shares: seq<int>) {
    forall i :: 0 <= i < |shares| ==> shares[i] >= 0
  }

  /** Rounding to the nearest, no group of a size ever has a negative share if and only if the size is at most three. */
  lemma NonnegativeIffUpToThree(server: Server, n: nat)
    requires n > 0 && RoundsToNearest(server)
    ensures (forall tokens: nat, weights: seq<Weight> {:trigger Split(server, tokens, weights)} ::
               |weights| == n ==> NoNegative(Split(server, tokens, weights))) <==> n <= 3
  {
    hide Split, RoundsToNearest;
    if n <= 3 {
      forall tokens: nat, weights: seq<Weight> | |weights| == n ensures NoNegative(Split(server, tokens, weights)) {
        UpToThreeNonnegative(server, tokens, weights);
      }
    } else {
      EqualMessagesNegative(server, n);
      assert !NoNegative(Split(server, (n + 1) / 2, Ones(n)));
    }
  }
}
