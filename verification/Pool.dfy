/** A pool of queues as a value: what find-or-create searches, for the pools of src/mt.c and src/delivery.c. */
module Pools {
  datatype Queue<V> = Queue(id: int, items: seq<V>)

  /** At most one queue has the id. */
  ghost predicate Unique<V>(pool: seq<Queue<V>>, id: int) {
    forall j, k :: 0 <= j < k < |pool| ==> pool[j].id != id || pool[k].id != id
  }

  ghost predicate Distinct<V>(pool: seq<Queue<V>>) {
    forall j, k :: 0 <= j < k < |pool| ==> pool[j].id != pool[k].id
  }

  /** The first queue of the pool with an id, or the length of the pool. */
  function Position<V>(pool: seq<Queue<V>>, id: int): (k: nat)
    ensures k <= |pool|
    ensures k < |pool| ==> pool[k].id == id
    ensures forall j :: 0 <= j < k ==> pool[j].id != id
  {
    if pool == [] || pool[0].id == id then 0 else 1 + Position(pool[1..], id)
  }

  /** What waits for an id. */
  function Contents<V>(pool: seq<Queue<V>>, id: int): seq<V> {
    var k := Position(pool, id);
    if k < |pool| then pool[k].items else []
  }

  /** Changing the first queue of an id changes what waits for that id and for no other. */
  lemma ContentsAfterUpdate<V>(pool: seq<Queue<V>>, k: nat, items: seq<V>, id: int)
    requires k < |pool| && Position(pool, pool[k].id) == k
    ensures Contents(pool[k := pool[k].(items := items)], id) == if id == pool[k].id then items else Contents(pool, id)
    ensures Contents(pool, pool[k].id) == pool[k].items
  {
    var r := pool[k := pool[k].(items := items)];
    assert forall j :: 0 <= j < |pool| ==> r[j].id == pool[j].id;
    assert Position(r, id) == Position(pool, id);
  }

  /** A queue for a new id changes nothing for the others. */
  lemma ContentsAfterAppend<V>(pool: seq<Queue<V>>, q: Queue<V>, id: int)
    requires Position(pool, q.id) == |pool|
    ensures Contents(pool + [q], id) == if id == q.id then q.items else Contents(pool, id)
  {
    var r := pool + [q];
    assert forall j :: 0 <= j < |pool| ==> r[j].id == pool[j].id;
    assert r[|pool|] == q;
    if Position(pool, id) < |pool| {
      assert Position(r, id) == Position(pool, id);
    } else if id == q.id {
      assert Position(r, id) == |pool|;
    }
  }
}
