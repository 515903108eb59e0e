/**
 The loops of the exact branch of measure in internal/agent/budget.go, each proved to compute its
 function of `Budget`.
 */
module BudgetMeter {
  import opened Common
  import opened Budget

  /** The loop that takes an assistant message's tool results into its group. */
  method ExtendGroup(messages: seq<Message>, index: nat) returns (end: nat)
    requires index < |messages|
    ensures end == GroupEnd(messages, index)
  {
    end := index + 1;
    if messages[index].role == Assistant && messages[index].calls > 0 {
      while end < |messages| && end - index - 1 < messages[index].calls && messages[end].role == Tool
        invariant index < end <= |messages| && end - index - 1 <= messages[index].calls
        invariant ToolRun(messages, index + 1, messages[index].calls) ==
                  end - index - 1 + ToolRun(messages, end, messages[index].calls - (end - index - 1))
      {
        end := end + 1;
      }
    }
  }

  method WeighGroup(group: seq<Message>) returns (weights: Option<seq<Weight>>, total: nat)
    ensures weights == WeightsOf(group)
    ensures weights.Some? ==> total == TotalWeight(weights.value)
  {
    var found: seq<Weight>;
    found, total := [], 0;
    for offset := 0 to |group|
      invariant WeightsOf(group[..offset]) == Some(found) && total == TotalWeight(found)
    {
      assert group[..offset + 1][..offset] == group[..offset];
      if group[offset].weight.None? {
        NoWeight(group, offset);
        return None, total;
      }
      var weight := group[offset].weight.value;
      assert (found + [weight])[..offset] == found;
      found, total := found + [weight], total + weight;
    }
    assert group[..|group|] == group;
    weights := Some(found);
  }

  lemma NoWeight(group: seq<Message>, i: nat)
    requires i < |group| && group[i].weight.None?
    ensures WeightsOf(group) == None
  {
  }

  /** The loop that splits a group's tokens and books each share. */
  method BookGroup(server: Server, messages: seq<Message>, tokens: nat, weights: seq<Weight>, total: nat,
                   before: Accounts, sharesBefore: seq<int>, ghost initial: Accounts)
    returns (accounts: Accounts, shares: seq<int>)
    requires weights != [] && total == TotalWeight(weights)
    requires |sharesBefore| + |weights| <= |messages|
    requires before == AddShares(initial, messages, sharesBefore)
    ensures shares == sharesBefore + Split(server, tokens, weights)
    ensures accounts == AddShares(initial, messages, shares)
  {
    hide *;
    accounts, shares := before, sharesBefore;
    RoundedEnds(server, tokens, weights);
    var booked, index, last := 0, |sharesBefore|, |weights| - 1;
    AddNone(sharesBefore);
    for offset := 0 to |weights|
      invariant offset <= last ==> shares == sharesBefore + Rounded(server, tokens, weights, offset)
      invariant offset <= last ==> booked == Sum(Rounded(server, tokens, weights, offset))
      invariant offset > last ==> shares == sharesBefore + Split(server, tokens, weights)
      invariant |shares| == index + offset
      invariant accounts == AddShares(initial, messages, shares)
    {
      var share := tokens - booked;
      if offset < last {
        Heavy(weights, offset);
        share := server.round(tokens, weights[offset], total);
        RoundedStep(server, tokens, weights, offset);
        Assoc(sharesBefore, Rounded(server, tokens, weights, offset), [share]);
        booked := booked + share;
      } else {
        Assoc(sharesBefore, Rounded(server, tokens, weights, last), [share]);
      }
      BookStep(initial, messages, shares, share);
      var category := messages[index + offset].category;
      accounts := accounts[category := Get(accounts, category) + share];
      shares := shares + [share];
    }
  }

  lemma RoundedEnds(server: Server, tokens: nat, weights: seq<Weight>)
    requires weights != []
    ensures Rounded(server, tokens, weights, 0) == [] && Sum([]) == 0
    ensures var most := Rounded(server, tokens, weights, |weights| - 1);
            Split(server, tokens, weights) == most + [tokens - Sum(most)]
  {
  }

  lemma RoundedStep(server: Server, tokens: nat, weights: seq<Weight>, n: nat)
    requires n < |weights| && TotalWeight(weights) > 0
    ensures var next := Rounded(server, tokens, weights, n) + [server.round(tokens, weights[n], TotalWeight(weights))];
            && Rounded(server, tokens, weights, n + 1) == next
            && Sum(next) == Sum(Rounded(server, tokens, weights, n)) +
                 server.round(tokens, weights[n], TotalWeight(weights))
  {
    SumAppend(Rounded(server, tokens, weights, n), [server.round(tokens, weights[n], TotalWeight(weights))]);
  }

  lemma BookStep(initial: Accounts, messages: seq<Message>, shares: seq<int>, share: int)
    requires |shares| < |messages|
    ensures var accounts, c := AddShares(initial, messages, shares), messages[|shares|].category;
            AddShares(initial, messages, shares + [share]) == accounts[c := Get(accounts, c) + share]
  {
    assert (shares + [share])[..|shares|] == shares;
  }

  /** The final sum over the categories, in whatever order they come. */
  method SumAccounts(accounts: Accounts) returns (used: int)
    ensures used == Total(accounts)
  {
    used := 0;
    var left := accounts;
    while left != map[]
      invariant used + Total(left) == Total(accounts)
      invariant forall c :: c in left ==> c in accounts && left[c] == accounts[c]
      decreases |left|
    {
      var c :| c in left;
      TotalMinus(left, c);
      used := used + left[c];
      SmallerMinus(left, c);
      left := left - {c};
    }
  }

  lemma SmallerMinus(m: Accounts, c: Category)
    requires c in m
    ensures |m - {c}| < |m|
  {
    assert m.Keys == (m - {c}).Keys + {c};
  }

  /** A list of groups put before the ones still to come. */
  ghost function Behind(done: seq<Group>, rest: Result<seq<Group>>): Result<seq<Group>> {
    if rest.Err? then rest else Ok(done + rest.value)
  }

  lemma {:induction false} SharesAppend(a: seq<Group>, g: Group)
    ensures Shares(a + [g]) == Shares(a) + g.shares
  {
    if a == [] {
      assert [g][1..] == [] && a + [g] == [g];
      assert Shares([g]) == g.shares + Shares([]);
    } else {
      SharesAppend(a[1..], g);
      assert (a + [g])[1..] == a[1..] + [g];
      assert Shares(a + [g]) == a[0].shares + (Shares(a[1..]) + g.shares);
    }
  }

  lemma OneMore(server: Server, q: Request, done: seq<Group>, index: nat, previous: nat)
    requires index < |q.messages|
    ensures var next := NextGroup(server, q, index, previous);
            && (next.Err? ==> Behind(done, GroupsFrom(server, q, index, previous)) == Err(next.error))
            && (next.Ok? ==>
                  var g := next.value;
                  Behind(done, GroupsFrom(server, q, index, previous)) ==
                      Behind(done + [g], GroupsFrom(server, q, g.end, g.count)))
  {
    hide NextGroup;
    var next := NextGroup(server, q, index, previous);
    if next.Ok? {
      var rest := GroupsFrom(server, q, next.value.end, next.value.count);
      if rest.Ok? {
        Assoc(done, [next.value], rest.value);
      }
    }
  }

  method RenderSystem(server: Server, q: Request) returns (r: Result<Head>)
    ensures r == RenderHead(server, q)
  {
    var promptProject := if q.project == "" then q.base else q.project;
    var promptSkills := if q.skills == "" then promptProject else q.skills;
    var promptMemory := if q.workspaceMemory == "" then promptSkills else q.workspaceMemory;
    var base := server.render(q.base, [], false);
    if base.None? { return Err(Unavailable); }
    var project := base;
    if promptProject != q.base {
      project := server.render(promptProject, [], false);
      if project.None? { return Err(Unavailable); }
    }
    var skills := project;
    if promptSkills != promptProject {
      skills := server.render(promptSkills, [], false);
      if skills.None? { return Err(Unavailable); }
    }
    var workspaceMemory := server.render(promptMemory, [], false);
    if workspaceMemory.None? { return Err(Unavailable); }
    var memory := server.render(q.system, [], false);
    if memory.None? { return Err(Unavailable); }
    var tools := if q.templateTools then server.render(q.system, [], true) else q.estimate;
    if tools.None? { return Err(Unavailable); }
    var previous := if q.templateTools then tools.value else memory.value + tools.value;
    return Ok(Head(base.value, project.value, skills.value, workspaceMemory.value, memory.value, previous));
  }

  method MeasureExact(server: Server, q: Request) returns (r: Result<Measured>)
    ensures r == Measure(server, q)
  {
    hide RenderHead, AddShares, Total, GroupsFrom, NextGroup, Behind, Shares, HeadAccounts;
    var head := RenderSystem(server, q);
    if head.Err? { return Err(head.error); }
    var h := head.value;
    var accounts, shares, index := HeadAccounts(h), [], 0;
    var previous: nat := h.tools;
    ghost var done: seq<Group> := [];
    StartOf(server, q, h, accounts);
    while index < |q.messages|
      invariant index <= |q.messages| && |shares| == index
      invariant Behind(done, GroupsFrom(server, q, index, previous)) == GroupsFrom(server, q, 0, h.tools)
      invariant shares == Shares(done)
      invariant accounts == AddShares(HeadAccounts(h), q.messages, shares)
    {
      OneMore(server, q, done, index, previous);
      NextUnfolds(server, q, index, previous);
      var end := ExtendGroup(q.messages, index);
      if end - index - 1 < CallsOf(q.messages[index]) {
        return Err(IncompleteGroup);
      }
      var rendered := server.render(q.system, q.messages[..end], q.templateTools);
      if rendered.None? { return Err(Unavailable); }
      var current := rendered.value + Extra(q);
      var tokens := if current > previous then current - previous else 0;
      var weights, total := WeighGroup(q.messages[index..end]);
      if weights.None? { return Err(Unavailable); }
      accounts, shares := BookGroup(server, q.messages, tokens, weights.value, total, accounts, shares,
          HeadAccounts(h));
      ghost var g := NextGroup(server, q, index, previous).value;
      SharesAppend(done, g);
      done := done + [g];
      previous, index := current, end;
    }
    Finished(server, q, done, previous);
    var used := SumAccounts(accounts);
    SharesCover(server, q, h);
    r := Ok(Measured(accounts, shares, used));
  }

  lemma StartOf(server: Server, q: Request, h: Head, accounts: Accounts)
    ensures Behind([], GroupsFrom(server, q, 0, h.tools)) == GroupsFrom(server, q, 0, h.tools)
    ensures Shares([]) == [] && AddShares(accounts, q.messages, []) == accounts
  {
    var r := GroupsFrom(server, q, 0, h.tools);
    if r.Ok? { assert [] + r.value == r.value; }
  }

  lemma Finished(server: Server, q: Request, done: seq<Group>, previous: nat)
    ensures Behind(done, GroupsFrom(server, q, |q.messages|, previous)) == Ok(done)
  {
    AddNone(done);
  }

  lemma NextUnfolds(server: Server, q: Request, index: nat, previous: nat)
    requires index < |q.messages|
    ensures var end := GroupEnd(q.messages, index);
            var rendered, weights := server.render(q.system, q.messages[..end], q.templateTools),
                WeightsOf(q.messages[index..end]);
            NextGroup(server, q, index, previous) ==
            if end - index - 1 < CallsOf(q.messages[index]) then Err(IncompleteGroup)
            else if rendered.None? || weights.None? then Err(Unavailable)
            else Ok(Group(index, end, rendered.value + Extra(q),
                          Split(server, Grown(previous, rendered.value + Extra(q)), weights.value)))
  {
    hide GroupEnd, WeightsOf, Split, Extra, Grown, CallsOf;
  }
}
