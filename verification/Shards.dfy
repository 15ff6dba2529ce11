/**
 The key stores spread over several Redis nodes by `key % len` (src/cache.c, src/sp.c,
 src/server.c). A node is a map from printed keys to values. Whatever the number of nodes, the
 store as a whole is one flat map.
 */
module Shards {
  import opened Wrappers
  import opened Decimal

  // ----- connecting the nodes

  /** The positions of the attempts that succeeded, in order. */
  function Successes(ok: seq<bool>): (good: seq<nat>)
    ensures |good| <= |ok|
    ensures forall i :: 0 <= i < |good| ==> good[i] < |ok| && ok[good[i]]
  {
    if ok == [] then []
    else
      var rest := Successes(ok[..|ok| - 1]);
      if ok[|ok| - 1] then rest + [|ok| - 1] else rest
  }

  /** As many successes as attempts: every attempt succeeded, and the k-th success is attempt k. */
  lemma {:induction false} AllSucceeded(ok: seq<bool>)
    requires |Successes(ok)| == |ok|
    ensures forall i :: 0 <= i < |ok| ==> ok[i] && Successes(ok)[i] == i
  {
    if ok != [] {
      AllSucceeded(ok[..|ok| - 1]);
    }
  }

  /** One place is skipped, for good, exactly when the very first attempt failed. */
  function Shift(ok: seq<bool>): nat {
    if ok != [] && !ok[0] then 1 else 0
  }

  lemma {:induction false} FirstSuccess(ok: seq<bool>)
    requires ok != [] && ok[0]
    ensures |Successes(ok)| > 0
  {
    if |ok| > 1 {
      FirstSuccess(ok[..|ok| - 1]);
    }
  }

  lemma OneMoreAttempt(ok: seq<bool>, i: nat)
    requires i < |ok|
    ensures Successes(ok[..i + 1]) == Successes(ok[..i]) + if ok[i] then [i] else []
    ensures Shift(ok[..i + 1]) == if i == 0 && !ok[0] then 1 else Shift(ok[..i])
    ensures Shift(ok[..i]) + |Successes(ok[..i])| == 0 <==> i == 0
  {
    assert ok[..i + 1][..i] == ok[..i];
    if i > 0 && ok[0] {
      FirstSuccess(ok[..i]);
    }
  }

  /**
   The successes fill consecutive slots in order, from slot 1 when the first attempt failed, and then
   slot 0 still holds `first`.
   */
  ghost predicate Filled(slots: seq<Option<nat>>, first: Option<nat>, len: nat, ok: seq<bool>) {
    && len == |Successes(ok)|
    && Shift(ok) + len <= |slots|
    && (forall k :: 0 <= k < len ==> slots[Shift(ok) + k] == Some(Successes(ok)[k]))
    && (Shift(ok) == 1 ==> slots[0] == first)
  }

  /** What `Connect` leaves in a table of empty slots. */
  ghost predicate Connected(slots: seq<Option<nat>>, len: nat, ok: seq<bool>) {
    Filled(slots, None, len, ok)
  }

  lemma OneMoreSlot(slots: seq<Option<nat>>, first: Option<nat>, len: nat, ok: seq<bool>, i: nat)
    requires i < |ok| && Filled(slots, first, len, ok[..i]) && Shift(ok[..i]) + len < |slots|
    requires i == 0 ==> slots[0] == first
    ensures Filled(if ok[i] then slots[Shift(ok[..i]) + len := Some(i)] else slots, first,
                   if ok[i] then len + 1 else len, ok[..i + 1])
  {
    OneMoreAttempt(ok, i);
  }

  class Caches {
    var len: nat
    const nodes: array<Option<nat>> // the configured node each slot is connected to

    constructor (slots: nat)
      ensures len == 0 && fresh(nodes) && nodes.Length == slots
      ensures forall k :: 0 <= k < slots ==> nodes[k] == None
    {
      len, nodes := 0, new Option<nat>[slots](_ => None);
    }

    /**
     Attempts the configured hosts in order, up to the first empty one; `ok[i]` says whether the
     attempt on host `i` succeeds. The successes fill consecutive slots, from slot 1 when the
     first attempt failed.
     */
    method Connect(hosts: seq<string>, ok: seq<bool>) returns (ghost attempts: nat)
      requires |hosts| <= |ok|
      modifies `len, nodes
      ensures attempts <= |hosts|
      ensures attempts == |hosts| || hosts[attempts] == "" || Shift(ok[..attempts]) + len == nodes.Length
      ensures Filled(nodes[..], if nodes.Length > 0 then old(nodes[0]) else None, len, ok[..attempts])
      ensures nodes.Length > 0 && old(nodes[0]) == None ==> Connected(nodes[..], len, ok[..attempts])
    {
      len := 0;
      ghost var first := if nodes.Length > 0 then nodes[0] else None;
      var i, j := 0, 0;
      while j < nodes.Length && i < |hosts| && hosts[i] != ""
        invariant i <= |hosts| && j == Shift(ok[..i]) + len && (i == 0 && nodes.Length > 0 ==> nodes[0] == first)
        invariant Filled(nodes[..], first, len, ok[..i])
      {
        OneMoreSlot(nodes[..], first, len, ok, i);
        OneMoreAttempt(ok, i);
        if ok[i] {
          nodes[j] := Some(i);
          len := len + 1;
        } else if j > 0 {
          j := j - 1;
        }
        i, j := i + 1, j + 1;
      }
      attempts := i;
    }
  }

  /**
   Indexing by `key % len` reaches a connected slot for every key exactly when the first attempt
   succeeded, or nothing connected and no key is looked up.
   */
  lemma EveryIndexIsConnected(slots: seq<Option<nat>>, len: nat, ok: seq<bool>)
    requires Connected(slots, len, ok)
    ensures (forall key: nat :: len > 0 ==> slots[key % len].Some?) <==> len == 0 || ok[0]
  {
    if len > 0 {
      if ok[0] {
        forall key: nat ensures slots[key % len].Some? {
          var k := key % len;
          assert 0 <= k < len && slots[Shift(ok) + k] == Some(Successes(ok)[k]);
        }
      } else {
        assert slots[0 % len] == None;
      }
    }
  }

  /** The callers' check: with 7 hosts and `len == 7`, slot k is the connection to host k. */
  lemma FullTableIsInOrder(slots: seq<Option<nat>>, len: nat, ok: seq<bool>)
    requires Connected(slots, len, ok) && |ok| <= 7 && len == 7
    ensures forall key: nat :: slots[key % len] == Some(key % len)
  {
    AllSucceeded(ok);
    forall key: nat ensures slots[key % len] == Some(key % len) {
      assert slots[Shift(ok) + key % len] == Some(Successes(ok)[key % len]);
    }
  }

  // ----- the store

  datatype Op<K, V> = Set(key: K, value: V) | Get(key: K) | Del(key: K)

  /** The flat map after the first `n` operations. */
  ghost function After<K, V>(m: map<K, V>, ops: seq<Op<K, V>>, n: nat): map<K, V>
    requires n <= |ops|
  {
    if n == 0 then m
    else
      AfterOp(After(m, ops, n - 1), ops[n - 1])
  }

  ghost function AfterOp<K, V>(m: map<K, V>, op: Op<K, V>): map<K, V> {
    match op
    case Set(k, v) => m[k := v]
    case Get(_) => m
    case Del(k) => m - {k}
  }

  ghost function Lookup<K, V>(m: map<K, V>, k: K): Option<V> {
    if k in m then Some(m[k]) else None
  }

  /** A read at position `i` answers what the flat map holds at that point. */
  ghost predicate IsAnswer<K, V>(m: map<K, V>, ops: seq<Op<K, V>>, i: nat, answer: Option<V>)
    requires i < |ops|
  {
    ops[i].Get? ==> answer == Lookup(After(m, ops, i), ops[i].key)
  }

  predicate Writes<K(==), V>(op: Op<K, V>, k: K) {
    !op.Get? && op.key == k
  }

  /** What is in the flat map is the last set or delete of that key. */
  lemma {:induction false} LastWriteWins<K, V>(m: map<K, V>, ops: seq<Op<K, V>>, n: nat, w: nat, k: K)
    requires w < n <= |ops| && Writes(ops[w], k)
    requires forall j :: w < j < n ==> !Writes(ops[j], k)
    ensures Lookup(After(m, ops, n), k) == if ops[w].Set? then Some(ops[w].value) else None
  {
    if w < n - 1 {
      LastWriteWins(m, ops, n - 1, w, k);
    }
  }

  lemma {:induction false} UnwrittenStays<K, V>(m: map<K, V>, ops: seq<Op<K, V>>, n: nat, k: K)
    requires n <= |ops| && forall j :: 0 <= j < n ==> !Writes(ops[j], k)
    ensures Lookup(After(m, ops, n), k) == Lookup(m, k)
  {
    if n > 0 {
      UnwrittenStays(m, ops, n - 1, k);
    }
  }

  class ShardedStore<K(==, !new), V> {
    var nodes: seq<map<string, V>>
    const print_: K -> string
    const hash: K -> nat
    ghost var flat: map<K, V>

    function NodeOf(k: K): nat
      requires nodes != []
      reads `nodes
    {
      hash(k) % |nodes|
    }

    ghost predicate Valid()
      reads this
    {
      && nodes != []
      && (forall j, k :: print_(j) == print_(k) ==> j == k)
      && (forall k :: k in flat ==> print_(k) in nodes[NodeOf(k)] && nodes[NodeOf(k)][print_(k)] == flat[k])
      && (forall k :: k !in flat ==> print_(k) !in nodes[NodeOf(k)])
    }

    constructor (n: nat, print_: K -> string, hash: K -> nat)
      requires n > 0 && forall j, k :: print_(j) == print_(k) ==> j == k
      ensures Valid() && flat == map[] && this.print_ == print_ && this.hash == hash && |nodes| == n
    {
      this.print_, this.hash := print_, hash;
      nodes := seq(n, _ => map[]);
      flat := map[];
    }

    method Set(k: K, v: V)
      requires Valid()
      modifies this
      ensures Valid() && flat == old(flat)[k := v]
    {
      var i := NodeOf(k);
      nodes := nodes[i := nodes[i][print_(k) := v]];
      flat := flat[k := v];
    }

    method Del(k: K)
      requires Valid()
      modifies this
      ensures Valid() && flat == old(flat) - {k}
    {
      var i := NodeOf(k);
      nodes := nodes[i := nodes[i] - {print_(k)}];
      flat := flat - {k};
    }

    method Get(k: K) returns (r: Option<V>)
      requires Valid()
      ensures r == Lookup(flat, k)
    {
      var i := NodeOf(k);
      r := if print_(k) in nodes[i] then Some(nodes[i][print_(k)]) else None;
    }

    method Do(op: Op<K, V>) returns (answer: Option<V>)
      requires Valid()
      modifies this
      ensures Valid() && flat == AfterOp(old(flat), op)
      ensures op.Get? ==> answer == Lookup(old(flat), op.key)
    {
      answer := None;
      match op
      case Set(k, v) => Set(k, v);
      case Get(k) => answer := Get(k);
      case Del(k) => Del(k);
    }

    /** Any sequence of operations: every answer is the one the flat map would give at that point. */
    method Run(ops: seq<Op<K, V>>) returns (answers: seq<Option<V>>)
      requires Valid()
      modifies this
      ensures Valid() && flat == After(old(flat), ops, |ops|) && |answers| == |ops|
      ensures forall i :: 0 <= i < |ops| ==> IsAnswer(old(flat), ops, i, answers[i])
    {
      answers := [];
      for i := 0 to |ops|
        invariant Valid() && flat == After(old(flat), ops, i) && |answers| == i
        invariant forall j :: 0 <= j < i ==> IsAnswer(old(flat), ops, j, answers[j])
      {
        var answer := Do(ops[i]);
        answers := answers + [answer];
      }
    }
  }

  // ----- the two stores

  /** The correlation entry that an acknowledged submit leaves under its gateway id. */
  datatype Entry = Entry(id: nat, account: int, company: int, spcode: string)

  /** The submit cache: keyed and sharded by the gateway id. */
  method NewSubmitCache(nodes: nat) returns (s: ShardedStore<nat, Entry>)
    requires nodes > 0
    ensures s.Valid() && s.flat == map[] && |s.nodes| == nodes && fresh(s)
  {
    forall j, k | Dec(j) == Dec(k) ensures j == k { DecInjective(j, k); }
    s := new ShardedStore<nat, Entry>(nodes, (k: nat) => Dec(k), (k: nat) => k);
  }

  /** The unsubscribe store of src/server.c: keyed by account and phone, sharded by the phone alone. */
  class Unsubscribes {
    const store: ShardedStore<(int, nat), ()>

    ghost predicate Valid()
      reads this, store
    {
      store.Valid()
    }

    constructor (nodes: nat)
      requires nodes > 0
      ensures Valid() && fresh(store) && store.flat == map[]
    {
      forall j, k | PairKey(j) == PairKey(k) ensures j == k { PairKeyInjective(j, k); }
      store := new ShardedStore<(int, nat), ()>(nodes, k => PairKey(k), (k: (int, nat)) => k.1);
    }

    /** One turn of the unsubscribe thread; a number that does not parse (0) is dropped. */
    method Write(aid: int, phone: nat)
      requires Valid()
      modifies store
      ensures Valid()
      ensures store.flat.Keys == old(store.flat.Keys) + if phone > 0 then {(aid, phone)} else {}
    {
      if phone > 0 {
        store.Set((aid, phone), ());
      }
    }

    /** Sees exactly the pairs written: never another account, another phone or the number 0. */
    method Check(aid: int, phone: nat) returns (r: bool)
      requires Valid()
      ensures r <==> phone > 0 && (aid, phone) in store.flat
    {
      if phone > 0 {
        var v := store.Get((aid, phone));
        return v.Some?;
      }
      return false;
    }

    /** After any writes, the check answers yes for exactly the positive numbers among them. */
    method WriteAll(requests: seq<(int, nat)>)
      requires Valid()
      modifies store
      ensures Valid()
      ensures forall k :: k in store.flat <==> k in old(store.flat) || (k in requests && k.1 > 0)
    {
      for i := 0 to |requests|
        invariant Valid()
        invariant forall k :: k in store.flat <==> k in old(store.flat) || (k in requests[..i] && k.1 > 0)
      {
        Write(requests[i].0, requests[i].1);
        assert (requests[i].0, requests[i].1) == requests[i];
        assert requests[..i + 1] == requests[..i] + [requests[i]];
      }
      assert requests[..|requests|] == requests;
    }
  }
}
