/**
 src/queue.c over src/list.c: a named queue is an id and a list, and the pool is a list of queues
 searched through the installed comparison.
 */
module Queues {
  import opened Wrappers
  import opened Lists

  class Queue<V(==)> {
    const id: int
    const list: List<V>

    ghost predicate Valid()
      reads list, list.repr
    {
      list.Valid()
    }

    ghost function Contents(): seq<V>
      requires Valid()
      reads list, list.repr
    {
      list.Values()
    }

    constructor (id: int)
      ensures Valid() && fresh(list) && list.repr == {} && Contents() == [] && this.id == id
    {
      this.id := id;
      list := new List<V>();
    }

    method Push(val: V)
      requires Valid()
      modifies list`head, list`tail, list`len, list`nodes, list`repr, list.repr`prev, list.repr`next
      ensures Valid() && Contents() == old(Contents()) + [val] && fresh(list.repr - old(list.repr))
    {
      list.Append(val);
    }

    /** The oldest value, or none. */
    method Pop() returns (r: Option<V>)
      requires Valid()
      modifies list`head, list`tail, list`len, list`nodes, list.repr`prev, list.repr`next
      ensures Valid()
      ensures old(Contents()) == [] ==> r == None && Contents() == []
      ensures old(Contents()) != [] ==> r == Some(old(Contents())[0]) && Contents() == old(Contents())[1..]
    {
      var node := list.Lpop();
      r := if node == null then None else Some(node.val);
    }
  }

  /** Pool searches pass an id where the list holds queues: one pointer type for both. */
  datatype Pointer<V(==)> = Id(id: int) | To(queue: Queue<V>)

  /** `lamb_queue_compare` */
  function Compare<V>(key: Pointer<V>, val: Pointer<V>): bool {
    key.Id? && val.To? && val.queue.id == key.id
  }

  /** A pool holds queues only, no two with one id, and is searched by id. */
  ghost predicate IsPool<V>(pool: List<Pointer<V>>)
    reads pool, pool.repr
  {
    && pool.Valid()
    && pool.match_ == Some((a, b) => Compare(a, b))
    && (forall i :: 0 <= i < |pool.nodes| ==> pool.Values()[i].To?)
    && (forall i, j :: 0 <= i < j < |pool.nodes| ==> pool.Values()[i].queue.id != pool.Values()[j].queue.id)
  }

  ghost predicate Unknown<V>(pool: List<Pointer<V>>, id: int)
    requires IsPool(pool)
    reads pool, pool.repr
  {
    forall i :: 0 <= i < |pool.nodes| ==> pool.Values()[i].queue.id != id
  }

  method Create<V(==)>(pool: List<Pointer<V>>, id: int) returns (queue: Queue<V>)
    requires IsPool(pool) && Unknown(pool, id)
    modifies pool`head, pool`tail, pool`len, pool`nodes, pool`repr, pool.repr`prev, pool.repr`next
    ensures IsPool(pool) && pool.Values() == old(pool.Values()) + [To(queue)]
    ensures fresh(queue) && fresh(queue.list) && queue.Valid() && queue.Contents() == [] && queue.id == id
  {
    queue := new Queue<V>(id);
    pool.Append(To(queue));
  }

  /**
   The start of every client thread: find the queue of the id or append a new one. Run without
   interference it returns the one queue of that id and keeps the ids distinct.
   */
  method FindOrCreate<V(==)>(pool: List<Pointer<V>>, id: int) returns (queue: Queue<V>)
    requires IsPool(pool)
    modifies pool`head, pool`tail, pool`len, pool`nodes, pool`repr, pool.repr`prev, pool.repr`next
    ensures IsPool(pool) && queue.id == id && To(queue) in pool.Values()
    ensures !old(Unknown(pool, id)) ==> pool.Values() == old(pool.Values())
    ensures old(Unknown(pool, id)) ==>
              && pool.Values() == old(pool.Values()) + [To(queue)]
              && fresh(queue) && fresh(queue.list) && queue.Valid() && queue.Contents() == []
  {
    var node := pool.Find(Id(id));
    if node != null {
      ghost var i :| pool.IsFirstMatch(Id(id), i) && pool.nodes[i] == node;
      assert pool.Values()[i] == node.val;
      queue := node.val.queue;
    } else {
      queue := Create(pool, id);
    }
  }

  /** The pool finds each id in at most one place, so an id has one queue. */
  lemma OneQueuePerId<V>(pool: List<Pointer<V>>, a: Queue<V>, b: Queue<V>)
    requires IsPool(pool) && To(a) in pool.Values() && To(b) in pool.Values() && a.id == b.id
    ensures a == b
  {
  }
}
