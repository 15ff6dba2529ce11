/**
 src/delivery.c: the table that routes upstream messages to accounts, its reload (drain from the
 tail, then refill), and the routing of one message by the first matching row. The regular
 expression test is a parameter.
 */
module Delivery {
  import opened Wrappers
  import opened Lists
  import opened Pools

  datatype Row = Row(id: int, rexp: string, target: int)
  datatype Deliver = Deliver(id: nat, account: int, phone: string, spcode: string, msgfmt: int, content: string)

  const REXP_SIZE := 127
  const SPCODE_SIZE := 20

  function Take(s: string, n: nat): string {
    if |s| <= n then s else s[..n]
  }

  /** The row as stored: the expression is copied into a fixed buffer. */
  function Load(row: Row): Row {
    row.(rexp := Take(row.rexp, REXP_SIZE))
  }

  /** What a query leaves in an empty table: nothing when it fails, every row in order otherwise. */
  function Fetched(db: Option<seq<Row>>): seq<Row> {
    match db
    case None => []
    case Some(rows) => seq(|rows|, i requires 0 <= i < |rows| => Load(rows[i]))
  }

  ghost predicate IsFirstMatch(rows: seq<Row>, matches: (string, string) -> bool, spcode: string, i: int) {
    && 0 <= i < |rows|
    && matches(rows[i].rexp, spcode)
    && (forall j :: 0 <= j < i ==> !matches(rows[j].rexp, spcode))
  }

  ghost predicate NoMatch(rows: seq<Row>, matches: (string, string) -> bool, spcode: string) {
    forall j :: 0 <= j < |rows| ==> !matches(rows[j].rexp, spcode)
  }

  /** `account` is the target of the first matching row, or 0 when there is none. */
  ghost predicate Routes(rows: seq<Row>, matches: (string, string) -> bool, spcode: string, account: int) {
    || (exists i :: IsFirstMatch(rows, matches, spcode, i) && account == rows[i].target)
    || (NoMatch(rows, matches, spcode) && account == 0)
  }

  /** The first row decides: no other account can be the answer. */
  lemma RoutesIsFunctional(rows: seq<Row>, matches: (string, string) -> bool, spcode: string, a: int, b: int)
    requires Routes(rows, matches, spcode, a) && Routes(rows, matches, spcode, b)
    ensures a == b
  {
  }

  /**
   The text that the expression is tried on: as many characters as the service code arrived with,
   from the field that keeps the first 20 of them. A longer code reads on into `after`, whatever
   lies behind the field.
   */
  function Subject(spcode: string, after: string): string
    requires |spcode| <= SPCODE_SIZE + |after|
  {
    if |spcode| <= SPCODE_SIZE then spcode else Take(spcode, SPCODE_SIZE) + after[..|spcode| - SPCODE_SIZE]
  }

  /** The first 127 characters of an expression. */
  function Kept(rexp: string): string {
    if |rexp| <= 127 then rexp else rexp[..127]
  }

  /** Row `i` of a query is the first one that matches. */
  ghost predicate DecidedBy(rows: seq<Row>, matches: (string, string) -> bool, spcode: string, i: int) {
    0 <= i < |rows| && matches(Kept(rows[i].rexp), spcode) && forall j :: 0 <= j < i ==> !matches(Kept(rows[j].rexp), spcode)
  }

  /** After a reload the first row of the query whose expression, as far as it is kept, matches gives its own target. */
  lemma TheQueryDecides(rows: seq<Row>, matches: (string, string) -> bool, spcode: string, account: int)
    ensures |Fetched(Some(rows))| == |rows|
    ensures forall i :: 0 <= i < |rows| ==> Fetched(Some(rows))[i].id == rows[i].id && Fetched(Some(rows))[i].target == rows[i].target
    ensures Routes(Fetched(Some(rows)), matches, spcode, account) <==>
            || (exists i :: DecidedBy(rows, matches, spcode, i) && account == rows[i].target)
            || (account == 0 && forall j :: 0 <= j < |rows| ==> !matches(Kept(rows[j].rexp), spcode))
  {
    var table := Fetched(Some(rows));
    assert forall j :: 0 <= j < |rows| ==> table[j].rexp == Kept(rows[j].rexp) && table[j].target == rows[j].target;
    assert forall i :: IsFirstMatch(table, matches, spcode, i) <==> DecidedBy(rows, matches, spcode, i);
    assert NoMatch(table, matches, spcode) <==> forall j :: 0 <= j < |rows| ==> !matches(Kept(rows[j].rexp), spcode);
    hide IsFirstMatch, DecidedBy, NoMatch;
  }

  class Server {
    const routes: List<Row>
    var pool: seq<Queue<Deliver>>
    var storage: seq<Deliver>

    constructor ()
      ensures fresh(routes) && routes.Valid() && routes.nodes == [] && pool == [] && storage == []
    {
      routes := new List<Row>();
      pool, storage := [], [];
    }

    /** Appends every fetched row; a failed or empty query reports an error and appends nothing. */
    method Fetch(db: Option<seq<Row>>) returns (err: int)
      requires routes.Valid()
      modifies routes`head, routes`tail, routes`len, routes`nodes, routes`repr, routes.repr`prev, routes.repr`next
      ensures routes.Valid() && routes.Values() == old(routes.Values()) + Fetched(db)
      ensures err == if db.None? || db.value == [] then -1 else 0
    {
      if db.None? || |db.value| < 1 {
        return -1;
      }
      var rows := db.value;
      for i := 0 to |rows|
        invariant routes.Valid()
        invariant fresh(routes.repr - old(routes.repr))
        invariant routes.Values() == old(routes.Values()) + Fetched(db)[..i]
      {
        routes.Append(Load(rows[i]));
      }
      return 0;
    }

    /**
     The reload: every old row is removed, then the table is fetched again. When the query fails
     the table is left empty and every later message goes to storage.
     */
    method Reload(db: Option<seq<Row>>) returns (err: int)
      requires routes.Valid()
      modifies routes`head, routes`tail, routes`len, routes`nodes, routes`repr, routes.repr`prev, routes.repr`next
      ensures routes.Valid() && routes.Values() == Fetched(db)
      ensures err == if db.None? || db.value == [] then -1 else 0
    {
      var _ := routes.DrainFromTail();
      err := Fetch(db);
    }

    /** The scan of the table from its head. */
    method RouteOf(matches: (string, string) -> bool, spcode: string) returns (account: int)
      requires routes.Valid()
      ensures Routes(routes.Values(), matches, spcode, account)
    {
      hide Chained;
      account := 0;
      var it := new Iterator(routes.head, FromHead);
      routes.LinkAt(0);
      var node := it.Next();
      ghost var i := 0;
      while node != null
        invariant routes.Valid() && it.direction == FromHead && 0 <= i <= |routes.nodes| && account == 0
        invariant node == After(routes.nodes, i - 1) && it.next == After(routes.nodes, i)
        invariant forall j :: 0 <= j < i ==> !matches(routes.Values()[j].rexp, spcode)
        decreases |routes.nodes| - i
      {
        if matches(node.val.rexp, spcode) {
          account := node.val.target;
          assert IsFirstMatch(routes.Values(), matches, spcode, i);
          return;
        }
        routes.LinkAt(i + 1);
        node := it.Next();
        i := i + 1;
      }
    }

    /** Appends to the queue of `account`, creating the queue when the account has none yet. */
    method Enqueue(account: int, d: Deliver)
      requires Distinct(pool)
      modifies `pool
      ensures Distinct(pool)
      ensures Contents(pool, account) == Contents(old(pool), account) + [d]
      ensures forall other :: other != account ==> Contents(pool, other) == Contents(old(pool), other)
    {
      var k := 0;
      while k < |pool| && pool[k].id != account
        invariant k <= |pool| && forall j :: 0 <= j < k ==> pool[j].id != account
      {
        k := k + 1;
      }
      assert Position(pool, account) == k;
      if k < |pool| {
        forall other { ContentsAfterUpdate(pool, k, pool[k].items + [d], other); }
        pool := pool[k := pool[k].(items := pool[k].items + [d])];
      } else {
        forall other { ContentsAfterAppend(pool, Queue(account, [d]), other); }
        pool := pool + [Queue(account, [d])];
      }
    }

    /**
     One upstream message. Its first matching row decides: a positive target queues it for that
     account and touches no other queue; otherwise it is stored, unowned.
     */
    method Push(matches: (string, string) -> bool, msg: Deliver, after: string) returns (account: int)
      requires |msg.spcode| <= SPCODE_SIZE + |after|
      requires routes.Valid() && Distinct(pool)
      modifies `pool, `storage
      ensures Distinct(pool)
      ensures Routes(routes.Values(), matches, Subject(msg.spcode, after), account)
      ensures account <= 0 ==> pool == old(pool) && storage == old(storage) + [Stored(msg)]
      ensures account > 0 ==> storage == old(storage)
      ensures account > 0 ==> Contents(pool, account) == Contents(old(pool), account) + [Stored(msg)]
      ensures account > 0 ==> forall other :: other != account ==> Contents(pool, other) == Contents(old(pool), other)
    {
      var d := Stored(msg);
      account := RouteOf(matches, Subject(msg.spcode, after));
      if account > 0 {
        Enqueue(account, d);
      } else {
        storage := storage + [d];
      }
    }
  }

  /** The copy is of the same message: its id, its text, and as much of the phone and of the service code as their fields keep. */
  lemma StoredIsTheMessage(msg: Deliver)
    ensures Stored(msg).id == msg.id && Stored(msg).account == 0
    ensures Stored(msg).msgfmt == msg.msgfmt && Stored(msg).content == msg.content
    ensures Stored(msg).phone <= msg.phone && |Stored(msg).phone| == if |msg.phone| < 11 then |msg.phone| else 11
    ensures Stored(msg).spcode <= msg.spcode && |Stored(msg).spcode| == if |msg.spcode| < 20 then |msg.spcode| else 20
  {
  }

  /** The internal copy: account 0, bounded strings. */
  function Stored(msg: Deliver): Deliver {
    msg.(account := 0, phone := Take(msg.phone, 11), spcode := Take(msg.spcode, SPCODE_SIZE))
  }
}
