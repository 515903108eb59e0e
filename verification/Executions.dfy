/**
 Deduplication at the execution boundary of internal/broker/client.go: a bounded memory of answered
 requests, and what it guarantees over any sequence of deliveries and redeliveries.
 */
module Executions {
  import opened Common

  type RequestId = string

  const REMEMBERED := 1024

  datatype Execution = Execution(id: RequestId, answer: string)

  /** The memory, and the history of what was executed so far. */
  datatype State = State(handled: map<RequestId, string>, order: seq<RequestId>, history: seq<Execution>)

  const INIT := State(map[], [], [])

  /** rememberHandled. */
  function Remember(st: State, id: RequestId, answer: string): State {
    var handled, order := st.handled[id := answer], st.order + [id];
    if |order| > REMEMBERED then State(handled - {order[0]}, order[1..], st.history)
    else State(handled, order, st.history)
  }

  /** One delivery; `produced` is what the handler would answer if it were run. */
  function Deliver(st: State, id: RequestId, produced: string): State {
    if id in st.handled then st
    else Remember(st, id, produced).(history := st.history + [Execution(id, produced)])
  }

  /** What deliver sends back; an empty answer is not sent. */
  function Reply(st: State, id: RequestId, produced: string): string {
    if id in st.handled then st.handled[id] else produced
  }

  datatype Delivery = Delivery(id: RequestId, produced: string)

  function Run(steps: seq<Delivery>): State
    decreases |steps|
  {
    if steps == [] then INIT
    else
      var last := steps[|steps| - 1];
      Deliver(Run(steps[..|steps| - 1]), last.id, last.produced)
  }

  // ---- Invariant ----

  /** Executions fewer than 1024 apart are of different requests. */
  ghost predicate Spaced(history: seq<Execution>) {
    forall i, j :: 0 <= i < j < |history| && j - i <= REMEMBERED ==> history[i].id != history[j].id
  }

  function Recent(history: seq<Execution>): (n: nat)
    ensures n <= |history|
  {
    if |history| < REMEMBERED then |history| else REMEMBERED
  }

  /** The order list is the latest executions. */
  ghost predicate OrderIs(order: seq<RequestId>, h: seq<Execution>) {
    && |order| == Recent(h)
    && forall k :: 0 <= k < |order| ==> order[k] == h[|h| - |order| + k].id
  }

  /** The map answers exactly the listed requests, each with what its latest execution produced. */
  ghost predicate AnswersAre(handled: map<RequestId, string>, order: seq<RequestId>, h: seq<Execution>)
    requires |order| <= |h|
  {
    && (forall id :: id in handled <==> id in order)
    && (forall k :: 0 <= k < |order| ==> order[k] in handled && handled[order[k]] == h[|h| - |order| + k].answer)
  }

  ghost predicate Inv(st: State) {
    && Spaced(st.history)
    && OrderIs(st.order, st.history)
    && AnswersAre(st.handled, st.order, st.history)
  }

  lemma OrderDistinct(order: seq<RequestId>, h: seq<Execution>)
    requires Spaced(h) && OrderIs(order, h)
    ensures Distinct(order)
  {
    forall i, j | 0 <= i < j < |order| ensures order[i] != order[j] {
      assert h[|h| - |order| + i].id != h[|h| - |order| + j].id;
    }
  }

  lemma SpacedGrows(order: seq<RequestId>, h: seq<Execution>, e: Execution)
    requires Spaced(h) && OrderIs(order, h) && e.id !in order
    ensures Spaced(h + [e])
  {
    forall i | 0 <= i < |h| && |h| - i <= REMEMBERED ensures h[i].id != e.id {
      assert order[i - (|h| - |order|)] == h[i].id;
    }
  }

  lemma OrderGrows(order: seq<RequestId>, h: seq<Execution>, e: Execution)
    requires OrderIs(order, h)
    ensures OrderIs(if |order| == REMEMBERED then order[1..] + [e.id] else order + [e.id], h + [e])
  {
    var next := if |order| == REMEMBERED then order[1..] + [e.id] else order + [e.id];
    var longer := h + [e];
    assert |next| == Recent(longer) && longer[|h|] == e;
    hide Recent;
    var shift := |order| + 1 - |next|;
    forall k | 0 <= k < |next| ensures next[k] == longer[|longer| - |next| + k].id {
      if k < |next| - 1 {
        assert next[k] == order[k + shift] == h[|h| - |order| + (k + shift)].id;
      }
    }
  }

  /** Below the bound a new request is added to map and list. */
  lemma AnswersGrow(handled: map<RequestId, string>, order: seq<RequestId>, h: seq<Execution>, e: Execution)
    requires |order| <= |h| && AnswersAre(handled, order, h) && e.id !in order
    ensures AnswersAre(handled[e.id := e.answer], order + [e.id], h + [e])
  {
    var longer, more := order + [e.id], handled[e.id := e.answer];
    forall id ensures id in more <==> id in longer {
      assert id in longer <==> id in order || id == e.id;
    }
    forall k | 0 <= k < |longer| ensures longer[k] in more && more[longer[k]] == (h + [e])[|h| - |order| + k].answer {
      if k < |order| {
        assert longer[k] == order[k] && order[k] in order;
      }
    }
  }

  lemma TailHas(order: seq<RequestId>, id: RequestId)
    requires 0 < |order| && Distinct(order)
    ensures id in order[1..] <==> id in order && id != order[0]
  {
    assert order == [order[0]] + order[1..];
    assert forall k :: 0 <= k < |order| - 1 ==> order[1..][k] == order[k + 1];
  }

  /** Dropping the oldest listed request keeps the rest. */
  lemma AnswersDrop(handled: map<RequestId, string>, order: seq<RequestId>, h: seq<Execution>)
    requires 0 < |order| <= |h| && AnswersAre(handled, order, h) && Distinct(order)
    ensures AnswersAre(handled - {order[0]}, order[1..], h)
  {
    var rest, fewer := order[1..], handled - {order[0]};
    forall id ensures id in fewer <==> id in rest {
      TailHas(order, id);
    }
    forall k | 0 <= k < |rest| ensures rest[k] in fewer && fewer[rest[k]] == h[|h| - |rest| + k].answer {
      RestAnswers(handled, order, h, k);
    }
    hide Distinct;
  }

  lemma RestAnswers(handled: map<RequestId, string>, order: seq<RequestId>, h: seq<Execution>, k: nat)
    requires k + 1 < |order| <= |h| && AnswersAre(handled, order, h) && Distinct(order)
    ensures var id := order[1..][k];
            && id in handled && id != order[0] && (handled - {order[0]})[id] == handled[id]
            && handled[id] == h[|h| - (|order| - 1) + k].answer
  {
    AnswerAt(handled, order, h, k + 1);
    assert order[1..][k] == order[k + 1] != order[0];
    hide AnswersAre, Distinct;
  }

  lemma DeliverInv(st: State, id: RequestId, produced: string)
    requires Inv(st)
    ensures Inv(Deliver(st, id, produced))
  {
    var order, h, e := st.order, st.history, Execution(id, produced);
    assert id in st.handled <==> id in order;
    assert |order| <= REMEMBERED;
    hide AnswersAre;
    if id !in st.handled {
      SpacedGrows(order, h, e);
      OrderGrows(order, h, e);
      MapGrows(st.handled, order, h, e);
      hide Spaced, OrderIs;
      NewExecution(st, id, produced);
      hide Deliver;
    }
  }

  /** What executing a request leaves behind. */
  lemma NewExecution(st: State, id: RequestId, produced: string)
    requires id !in st.handled && |st.order| <= REMEMBERED
    ensures var out := Deliver(st, id, produced);
            && out.history == st.history + [Execution(id, produced)]
            && out.order == (if |st.order| == REMEMBERED then st.order[1..] + [id] else st.order + [id])
            && out.handled == (if |st.order| == REMEMBERED then st.handled[id := produced] - {st.order[0]}
                               else st.handled[id := produced])
  {
  }

  lemma MapGrows(handled: map<RequestId, string>, order: seq<RequestId>, h: seq<Execution>, e: Execution)
    requires Spaced(h) && OrderIs(order, h) && AnswersAre(handled, order, h) && e.id !in order
    ensures if |order| == REMEMBERED then
              AnswersAre(handled[e.id := e.answer] - {order[0]}, order[1..] + [e.id], h + [e])
            else
              AnswersAre(handled[e.id := e.answer], order + [e.id], h + [e])
  {
    OrderDistinct(order, h);
    assert Distinct(order + [e.id]);
    AnswersGrow(handled, order, h, e);
    hide Spaced, AnswersAre, Distinct;
    if |order| == REMEMBERED {
      AnswersDrop(handled[e.id := e.answer], order + [e.id], h + [e]);
      assert (order + [e.id])[1..] == order[1..] + [e.id];
    }
  }

  lemma {:induction false} EveryRun(steps: seq<Delivery>)
    ensures Inv(Run(steps))
    decreases |steps|
  {
    if steps != [] {
      var last := steps[|steps| - 1];
      EveryRun(steps[..|steps| - 1]);
      DeliverInv(Run(steps[..|steps| - 1]), last.id, last.produced);
    }
  }

  /**
   Over any deliveries: each execution of a request comes after 1024 executions of other requests
   since its last one, and the remembered ids are a duplicate-free list of the map's keys.
   */
  lemma AtMostOnce(steps: seq<Delivery>)
    ensures var st := Run(steps);
            && (forall j, k :: 0 <= k < j < |st.history| && j - k <= 1024 ==>
                 st.history[k].id != st.history[j].id)
            && (forall i, j :: 0 <= i < j < |st.order| ==> st.order[i] != st.order[j])
            && (forall id :: id in st.order <==> id in st.handled)
            && |st.order| <= 1024
  {
    EveryRun(steps);
    var st := Run(steps);
    OrderDistinct(st.order, st.history);
    hide Run;
  }

  /** The position of the latest execution of a request, or -1. */
  function Latest(history: seq<Execution>, id: RequestId): (at: int)
    ensures -1 <= at < |history|
    ensures at >= 0 ==> history[at].id == id
    ensures forall k :: at < k < |history| ==> history[k].id != id
  {
    if history == [] then -1
    else if history[|history| - 1].id == id then |history| - 1
    else Latest(history[..|history| - 1], id)
  }

  /**
   A delivery runs the handler exactly when the request is not among the last 1024 executed, and is
   answered with what its latest execution produced.
   */
  lemma EveryCopyAnswered(steps: seq<Delivery>, id: RequestId, produced: string)
    ensures var st := Run(steps);
            var at := Latest(st.history, id);
            && (Deliver(st, id, produced).history != st.history <==> at < 0 || |st.history| - at > 1024)
            && Reply(st, id, produced) ==
               if at >= 0 && |st.history| - at <= 1024 then st.history[at].answer else produced
  {
    EveryRun(steps);
    KnownIffRecent(Run(steps), id);
    hide Run, Inv;
  }

  lemma KnownIffRecent(st: State, id: RequestId)
    requires Inv(st)
    ensures var at := Latest(st.history, id);
            && (id in st.handled <==> at >= 0 && |st.history| - at <= REMEMBERED)
            && (id in st.handled ==> st.handled[id] == st.history[at].answer)
  {
    hide Spaced, AnswersAre;
    var at, order, h := Latest(st.history, id), st.order, st.history;
    var from := |h| - |order|;
    assert id in st.handled <==> id in order by {
      assert AnswersAre(st.handled, order, h);
      InOrder(st.handled, order, h, id);
    }
    if id in order {
      var k :| 0 <= k < |order| && order[k] == id;
      assert h[from + k].id == id;
      assert at >= from + k;
      assert order[at - from] == h[at].id == id;
      AnswerAt(st.handled, order, h, at - from);
    } else {
      assert forall k :: 0 <= k < |order| ==> h[from + k].id == order[k] && order[k] != id;
      assert forall i :: from <= i < |h| ==> h[i].id == order[i - from];
      assert at < from;
    }
  }

  lemma InOrder(handled: map<RequestId, string>, order: seq<RequestId>, h: seq<Execution>, id: RequestId)
    requires |order| <= |h| && AnswersAre(handled, order, h)
    ensures id in handled <==> id in order
  {
  }

  lemma AnswerAt(handled: map<RequestId, string>, order: seq<RequestId>, h: seq<Execution>, k: nat)
    requires k < |order| <= |h| && AnswersAre(handled, order, h)
    ensures order[k] in handled && handled[order[k]] == h[|h| - |order| + k].answer
  {
  }

  // ---- The object ----

  class Executor {
    var handled: map<RequestId, string>
    var handledOrder: seq<RequestId>
    ghost var history: seq<Execution>

    ghost function St(): State
      reads this
    {
      State(handled, handledOrder, history)
    }

    constructor ()
      ensures St() == INIT
    {
      handled, handledOrder, history := map[], [], [];
    }

    /** deliver from its deduplication on: `produced` stands for running the handler. */
    method DeliverRequest(id: RequestId, produced: string) returns (answer: string, executed: bool)
      modifies this
      ensures St() == Deliver(old(St()), id, produced)
      ensures answer == Reply(old(St()), id, produced) && executed == (id !in old(handled))
    {
      if id in handled {
        return handled[id], false;
      }
      history := history + [Execution(id, produced)];
      RememberHandled(id, produced);
      return produced, true;
    }

    method RememberHandled(id: RequestId, answer: string)
      modifies this`handled, this`handledOrder
      ensures St() == Remember(old(St()), id, answer)
    {
      handled := handled[id := answer];
      handledOrder := handledOrder + [id];
      if |handledOrder| > REMEMBERED {
        handled := handled - {handledOrder[0]};
        handledOrder := handledOrder[1..];
      }
    }
  }
}
