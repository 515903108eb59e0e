/** What several models share: small facts about sequences and sets, and the limit of a connection. */
module Common {

  datatype Option<T> = None | Some(value: T)

  /** The items without the one at `i`, as a list edited in place loses it. */
  function Without<T>(items: seq<T>, i: nat): seq<T>
    requires i < |items|
  {
    items[..i] + items[i + 1..]
  }

  ghost predicate Distinct<T>(items: seq<T>) {
    forall i, j :: 0 <= i < j < |items| ==> items[i] != items[j]
  }

  lemma Assoc<T>(a: seq<T>, b: seq<T>, c: seq<T>)
    ensures a + b + c == a + (b + c)
  {
  }

  lemma SubsetSize<T>(a: set<T>, b: set<T>)
    requires a <= b
    ensures |a| <= |b|
  {
    assert b == a + (b - a);
  }

  // ---- Connections ----

  datatype Connection = Connection(maxConcurrent: int, parallelCapacity: int)

  /** The override, else the reported capacity, else one. */
  function Limit(connections: map<string, Connection>, id: string): (limit: int)
    ensures limit >= 1
    ensures id in connections && connections[id].maxConcurrent > 0 ==> limit == connections[id].maxConcurrent
    ensures limit > 1 ==>
              id in connections && limit in {connections[id].maxConcurrent, connections[id].parallelCapacity}
    ensures id in connections && connections[id].maxConcurrent <= 0 < connections[id].parallelCapacity ==>
              limit == connections[id].parallelCapacity
  {
    if id in connections && connections[id].maxConcurrent > 0 then connections[id].maxConcurrent
    else if id in connections && connections[id].parallelCapacity > 0 then connections[id].parallelCapacity
    else 1
  }
}
