/**
 The doubly linked list of src/list.c, as heap objects with the same prev/next/head/tail/len
 fields. `nodes` is the abstract value: the nodes in list order. `Valid` is the representation
 invariant, and every operation is specified on `nodes` and `Values()`.
 */
module Lists {
  import opened Wrappers

  class Node<V> {
    var prev: Node?<V>
    var next: Node?<V>
    var val: V

    constructor (val: V)
      ensures prev == null && next == null && this.val == val
    {
      prev, next, this.val := null, null, val;
    }
  }

  /** `free`: nothing is known of the node's fields afterwards. */
  method Release<V>(node: Node<V>)
    modifies node
  {
    node.prev, node.next := null, null;
  }

  datatype Direction = FromHead | FromTail

  /** An iterator holds the node it will hand out next, so the node just handed out may be removed. */
  class Iterator<V> {
    var next: Node?<V>
    const direction: Direction

    constructor (start: Node?<V>, direction: Direction)
      ensures next == start && this.direction == direction
    {
      next, this.direction := start, direction;
    }

    method Next() returns (curr: Node?<V>)
      modifies this
      ensures curr == old(next)
      ensures curr == null ==> next == null
      ensures curr != null ==> next == if direction.FromHead? then curr.next else curr.prev
    {
      curr := next;
      if curr != null {
        next := if direction == FromHead then curr.next else curr.prev;
      }
    }
  }

  /** The callback test if one is installed, pointer equality otherwise. */
  predicate Matches<V(==)>(match_: Option<(V, V) -> bool>, key: V, val: V) {
    if match_.Some? then match_.value(key, val) else key == val
  }

  /** The nodes are distinct, `prev` and `next` are inverse, and both ends are null. */
  ghost predicate Chained<V>(ns: seq<Node<V>>)
    reads ns
  {
    && (forall i, j :: 0 <= i < j < |ns| ==> ns[i] != ns[j])
    && (forall i {:trigger ns[i].prev} :: 0 <= i < |ns| ==> ns[i].prev == Before(ns, i))
    && (forall i {:trigger ns[i].next} :: 0 <= i < |ns| ==> ns[i].next == After(ns, i))
  }

  ghost function Before<V>(ns: seq<Node<V>>, i: int): Node?<V> {
    if 0 < i <= |ns| then ns[i - 1] else null
  }

  ghost function After<V>(ns: seq<Node<V>>, i: int): Node?<V> {
    if -1 <= i < |ns| - 1 then ns[i + 1] else null
  }

  ghost function Without<T>(s: seq<T>, k: nat): seq<T>
    requires k < |s|
  {
    s[..k] + s[k + 1..]
  }

  /** Joining the two neighbours of position `k` leaves a chain without position `k`. */
  lemma UnlinkedChain<V>(ns: seq<Node<V>>, k: nat)
    requires k < |ns|
    requires forall i, j :: 0 <= i < j < |ns| ==> ns[i] != ns[j]
    requires forall i {:trigger ns[i].prev} :: 0 <= i < |ns| && i != k + 1 ==> ns[i].prev == Before(ns, i)
    requires forall i {:trigger ns[i].next} :: 0 <= i < |ns| && i != k - 1 ==> ns[i].next == After(ns, i)
    requires k + 1 < |ns| ==> ns[k + 1].prev == Before(ns, k)
    requires 0 < k ==> ns[k - 1].next == After(ns, k)
    ensures Chained(Without(ns, k))
  {
  }

  /** From position `k` on, nodes still have their values and links. */
  ghost predicate Intact<V>(ns: seq<Node<V>>, values: seq<V>, k: int)
    reads ns
  {
    |values| == |ns| && forall i {:trigger ns[i]} :: 0 <= k <= i < |ns| ==> ns[i].val == values[i] && ns[i].next == After(ns, i)
  }

  ghost predicate NoRepeats<V>(ns: seq<Node<V>>) {
    forall i, j :: 0 <= i < j < |ns| ==> ns[i] != ns[j]
  }

  /** One turn of the walk that releases a list. */
  method ReleaseNext<V>(curr: Node<V>, ghost ns: seq<Node<V>>, ghost values: seq<V>, ghost k: nat)
    returns (val: V, next: Node?<V>)
    requires k < |ns| && ns[k] == curr && Intact(ns, values, k) && NoRepeats(ns) && |values| == |ns|
    modifies curr
    ensures val == values[k] && next == After(ns, k) && Intact(ns, values, k + 1)
  {
    assert ns[k].val == values[k];
    next, val := curr.next, curr.val;
    Release(curr);
  }

  /** The walk. A node keeps none of its fields once released, so its value and its link are read before. */
  method ReleaseAll<V>(head: Node?<V>, len: nat, ghost ns: seq<Node<V>>, ghost all: seq<V>)
    returns (values: seq<V>, ghost released: seq<Node<V>>)
    requires len == |ns| == |all| && head == After(ns, -1) && Intact(ns, all, 0) && NoRepeats(ns)
    modifies ns
    ensures values == all && released == ns
  {
    hide Intact, NoRepeats;
    var left, curr := len, head;
    values, released := [], [];
    ghost var k := 0;
    while left != 0
      invariant k + left == |ns| && curr == After(ns, k - 1)
      invariant Intact(ns, all, k)
      invariant values == all[..k] && released == ns[..k]
    {
      ghost var node := curr;
      var val;
      val, curr := ReleaseNext(curr, ns, all, k);
      assert all[..k + 1] == all[..k] + [val] && ns[..k + 1] == ns[..k] + [node];
      values, released := values + [val], released + [node];
      left, k := left - 1, k + 1;
    }
  }

  class List<V(==)> {
    var head: Node?<V>
    var tail: Node?<V>
    var len: nat
    var match_: Option<(V, V) -> bool>
    ghost var nodes: seq<Node<V>>
    ghost var repr: set<Node<V>>

    ghost predicate Valid()
      reads this, repr
    {
      && (forall i :: 0 <= i < |nodes| ==> nodes[i] in repr)
      && len == |nodes|
      && (nodes == [] ==> head == null && tail == null)
      && (nodes != [] ==> head == nodes[0] && tail == nodes[|nodes| - 1])
      && Chained(nodes)
    }

    ghost function Values(): (vs: seq<V>)
      requires Valid()
      reads this, repr
      ensures |vs| == |nodes|
      ensures forall i :: 0 <= i < |vs| ==> vs[i] == nodes[i].val
    {
      seq(|nodes|, i requires 0 <= i < |nodes| && nodes[i] in repr reads this, repr => nodes[i].val)
    }

    lemma LinkAt(i: nat)
      requires Valid()
      ensures i < |nodes| ==> nodes[i].next == After(nodes, i)
    {
    }

    /** Position `i` holds the first value that matches `key`. */
    ghost predicate IsFirstMatch(key: V, i: int)
      requires Valid()
      reads this, repr
    {
      && 0 <= i < |nodes|
      && Matches(match_, key, Values()[i])
      && (forall j :: 0 <= j < i ==> !Matches(match_, key, Values()[j]))
    }

    constructor ()
      ensures Valid() && nodes == [] && repr == {} && match_ == None
    {
      head, tail, len, match_, nodes, repr := null, null, 0, None, [], {};
    }

    method Rpush(node: Node?<V>) returns (r: Node?<V>)
      requires Valid() && node !in repr
      modifies `head, `tail, `len, `nodes, `repr, repr`prev, repr`next, node
      ensures Valid() && r == node && repr == old(repr) + if node == null then {} else {node}
      ensures node == null ==> nodes == old(nodes) && Values() == old(Values())
      ensures node != null ==> node.val == old(node.val)
      ensures node != null ==> nodes == old(nodes) + [node] && Values() == old(Values()) + [node.val]
    {
      if node == null {
        return null;
      }
      if len != 0 {
        node.prev := tail;
        node.next := null;
        tail.next := node;
        tail := node;
      } else {
        head, tail := node, node;
        node.prev, node.next := null, null;
      }
      len := len + 1;
      nodes, repr := nodes + [node], repr + {node};
      return node;
    }

    /** `Rpush` of a newly allocated node. */
    method Append(val: V)
      requires Valid()
      modifies `head, `tail, `len, `nodes, `repr, repr`prev, repr`next
      ensures Valid() && Values() == old(Values()) + [val]
      ensures fresh(repr - old(repr))
    {
      var node := new Node(val);
      var _ := Rpush(node);
    }

    method Lpush(node: Node?<V>) returns (r: Node?<V>)
      requires Valid() && node !in repr
      modifies `head, `tail, `len, `nodes, `repr, repr`prev, repr`next, node
      ensures Valid() && r == node && repr == old(repr) + if node == null then {} else {node}
      ensures node == null ==> nodes == old(nodes) && Values() == old(Values())
      ensures node != null ==> node.val == old(node.val)
      ensures node != null ==> nodes == [node] + old(nodes) && Values() == [node.val] + old(Values())
    {
      if node == null {
        return null;
      }
      if len != 0 {
        node.next := head;
        node.prev := null;
        head.prev := node;
        head := node;
      } else {
        head, tail := node, node;
        node.prev, node.next := null, null;
      }
      len := len + 1;
      nodes, repr := [node] + nodes, repr + {node};
      return node;
    }

    method Rpop() returns (node: Node?<V>)
      requires Valid()
      modifies `head, `tail, `len, `nodes, repr`prev, repr`next
      ensures Valid()
      ensures old(nodes) == [] ==> node == null && nodes == []
      ensures old(nodes) != [] ==>
                && node == old(nodes)[|old(nodes)| - 1]
                && node.val == old(Values())[|old(nodes)| - 1]
                && node.prev == null && node.next == null
                && nodes == old(nodes)[..|old(nodes)| - 1]
                && Values() == old(Values())[..|old(nodes)| - 1]
    {
      if len == 0 {
        return null;
      }
      node := tail;
      len := len - 1;
      if len != 0 {
        tail := node.prev;
        tail.next := null;
      } else {
        head, tail := null, null;
      }
      node.next, node.prev := null, null;
      nodes := nodes[..|nodes| - 1];
    }

    method Lpop() returns (node: Node?<V>)
      requires Valid()
      modifies `head, `tail, `len, `nodes, repr`prev, repr`next
      ensures Valid()
      ensures old(nodes) == [] ==> node == null && nodes == []
      ensures old(nodes) != [] ==>
                && node == old(nodes)[0]
                && node.val == old(Values())[0]
                && node.prev == null && node.next == null
                && nodes == old(nodes)[1..]
                && Values() == old(Values())[1..]
    {
      if len == 0 {
        return null;
      }
      node := head;
      len := len - 1;
      if len != 0 {
        head := node.next;
        head.prev := null;
      } else {
        head, tail := null, null;
      }
      node.next, node.prev := null, null;
      nodes := nodes[1..];
    }

    /** The node of the first value that matches, or null when none does. */
    method Find(key: V) returns (node: Node?<V>)
      requires Valid()
      ensures node == null ==> forall i :: 0 <= i < |nodes| ==> !Matches(match_, key, Values()[i])
      ensures node != null ==> exists i :: IsFirstMatch(key, i) && nodes[i] == node
    {
      var it := new Iterator(head, FromHead);
      node := it.Next();
      ghost var i := 0;
      while node != null
        invariant Valid() && it.direction == FromHead
        invariant 0 <= i <= |nodes|
        invariant node == if i < |nodes| then nodes[i] else null
        invariant it.next == if i + 1 < |nodes| then nodes[i + 1] else null
        invariant forall j :: 0 <= j < i ==> !Matches(match_, key, Values()[j])
        decreases |nodes| - i
      {
        if match_.Some? {
          if match_.value(key, node.val) {
            return node;
          }
        } else if key == node.val {
          return node;
        }
        node := it.Next();
        i := i + 1;
      }
    }

    /** Element `index` from the head, or element `len + index` when `index` is negative. */
    method At(index: int) returns (node: Node?<V>)
      requires Valid()
      ensures 0 <= index < |nodes| ==> node == nodes[index]
      ensures -|nodes| <= index < 0 ==> node == nodes[|nodes| + index]
      ensures !(-|nodes| <= index < |nodes|) ==> node == null
    {
      var direction, left := FromHead, index;
      if left < 0 {
        direction := FromTail;
        left := -left - 1; // the bitwise complement of a two's complement integer
      }
      if left >= len {
        return null;
      }
      var it := new Iterator(if direction == FromHead then head else tail, direction);
      node := it.Next();
      ghost var i := 0;
      while left != 0
        invariant Valid() && it.direction == direction
        invariant 0 <= left && left + i < |nodes|
        invariant left + i == if index < 0 then -index - 1 else index
        invariant 0 <= i && node == if direction.FromHead? then nodes[i] else nodes[|nodes| - 1 - i]
        invariant it.next == if direction.FromHead?
                    then (if i + 1 < |nodes| then nodes[i + 1] else null)
                    else (if i + 1 < |nodes| then nodes[|nodes| - 2 - i] else null)
        decreases left
      {
        node := it.Next();
        left, i := left - 1, i + 1;
      }
    }

    /** Unlinks exactly the node at position `k`. The node itself is given back to the allocator. */
    method Remove(node: Node<V>, ghost k: nat)
      requires Valid() && k < |nodes| && nodes[k] == node
      modifies `head, `tail, `len, `nodes, repr`prev, repr`next
      ensures Valid()
      ensures nodes == Without(old(nodes), k)
      ensures node.prev == old(node.prev) && node.next == old(node.next)
    {
      ghost var all := nodes;
      assert node.prev == Before(all, k) && node.next == After(all, k);
      if node.prev != null {
        node.prev.next := node.next;
      } else {
        head := node.next;
      }
      if node.next != null {
        node.next.prev := node.prev;
      } else {
        tail := node.prev;
      }
      len := len - 1;
      UnlinkedChain(all, k);
      nodes := Without(all, k);
    }

    /** Releases every node once, in list order, and with it the value it held. */
    method Destroy() returns (values: seq<V>, ghost released: seq<Node<V>>)
      requires Valid()
      modifies repr
      ensures values == old(Values()) && released == old(nodes)
    {
      values, released := ReleaseAll(head, len, nodes, Values());
    }

    /** One turn of the reload loop: remove the node in hand, then ask the iterator for the next one. */
    method DrainTurn(it: Iterator<V>, node: Node<V>) returns (following: Node?<V>)
      requires Valid() && node == Before(nodes, |nodes|)
      requires it.direction == FromTail && it.next == Before(nodes, |nodes| - 1)
      modifies `head, `tail, `len, `nodes, repr`prev, repr`next, it
      ensures Valid() && nodes == old(nodes)[..|old(nodes)| - 1]
      ensures following == Before(nodes, |nodes|)
      ensures it.next == Before(nodes, |nodes| - 1)
    {
      Remove(node, |nodes| - 1);
      following := it.Next();
    }

    /**
     The reload loop: iterate from the tail and remove every node as it is handed out. It stops,
     hands out each node once, last to first, and leaves the empty representation.
     */
    method DrainFromTail() returns (ghost removed: seq<Node<V>>)
      requires Valid()
      modifies `head, `tail, `len, `nodes, repr`prev, repr`next
      ensures Valid() && nodes == [] && head == null && tail == null && len == 0
      ensures |removed| == |old(nodes)|
      ensures forall i :: 0 <= i < |removed| ==> removed[i] == old(nodes)[|removed| - 1 - i]
    {
      var it := new Iterator(tail, FromTail);
      var node := it.Next();
      removed := [];
      ghost var all := nodes;
      while node != null
        invariant fresh(it) && it.direction == FromTail
        invariant Valid() && nodes <= all
        invariant node == Before(nodes, |nodes|)
        invariant it.next == Before(nodes, |nodes| - 1)
        invariant |removed| == |all| - |nodes|
        invariant forall i :: 0 <= i < |removed| ==> removed[i] == all[|all| - 1 - i]
        decreases |nodes|
      {
        removed := removed + [node];
        node := DrainTurn(it, node);
      }
    }
  }
}
