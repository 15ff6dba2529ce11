/**
 The frequency limiter of src/server.c: one Redis counter per (account, phone), created by its
 first increment and expiring a fixed time after it is armed. Time is a real number of seconds.
 */
module Frequency {
  import opened Wrappers

  const LIMIT := 3
  const LIFETIME := 60.0

  type Key = (int, nat)

  /** A counter; it has no deadline between its creation and the EXPIRE command. */
  datatype Counter = Counter(count: nat, deadline: Option<real>)

  /** One check: when the increment runs, and when a following EXPIRE would run. */
  datatype Check = Check(aid: int, phone: nat, at: real, armed: real) {
    function Key(): Key { (aid, phone) }
  }

  /** Redis keeps a key up to its deadline, the deadline included. */
  predicate Alive(m: map<Key, Counter>, k: Key, now: real) {
    k in m && (m[k].deadline.Some? ==> now <= m[k].deadline.value)
  }

  function Incremented(m: map<Key, Counter>, k: Key, now: real): map<Key, Counter> {
    if Alive(m, k, now) then m[k := m[k].(count := m[k].count + 1)] else m[k := Counter(1, None)]
  }

  /** The store after one check, and whether the message is held back. */
  function Checked(m: map<Key, Counter>, c: Check): map<Key, Counter> {
    if c.phone == 0 then m
    else
      var n := Incremented(m, c.Key(), c.at);
      if n[c.Key()].count == 1 then n[c.Key() := Counter(1, Some(c.armed + LIFETIME))] else n
  }

  predicate Limited(m: map<Key, Counter>, c: Check) {
    c.phone > 0 && Incremented(m, c.Key(), c.at)[c.Key()].count > LIMIT
  }

  class Store {
    var counters: map<Key, Counter>

    constructor ()
      ensures counters == map[]
    {
      counters := map[];
    }

    /** `lamb_check_frequency`, with every command answered. A number that does not parse is let through. */
    method CheckFrequency(c: Check) returns (r: bool)
      modifies this
      ensures r == Limited(old(counters), c) && counters == Checked(old(counters), c)
    {
      if c.phone == 0 {
        return false;
      }
      counters := Incremented(counters, c.Key(), c.at);
      var reply := counters[c.Key()].count;
      if reply == 1 {
        counters := counters[c.Key() := counters[c.Key()].(deadline := Some(c.armed + LIFETIME))];
      } else if reply > LIMIT {
        return true;
      }
      return false;
    }

    /** A whole run: the verdicts are the ones the run's own history determines. */
    method CheckAll(run: seq<Check>) returns (limited: seq<bool>)
      modifies this
      requires counters == map[]
      ensures |limited| == |run| && counters == After(run, |run|)
      ensures forall i :: 0 <= i < |run| ==> limited[i] == !Passes(run, i)
    {
      limited := [];
      for i := 0 to |run|
        invariant |limited| == i && counters == After(run, i)
        invariant forall j :: 0 <= j < i ==> limited[j] == !Passes(run, j)
      {
        var r := CheckFrequency(run[i]);
        limited := limited + [r];
      }
    }
  }

  // ----- runs

  function After(run: seq<Check>, n: nat): map<Key, Counter>
    requires n <= |run|
  {
    if n == 0 then map[] else Checked(After(run, n - 1), run[n - 1])
  }

  predicate Passes(run: seq<Check>, i: nat)
    requires i < |run|
  {
    !Limited(After(run, i), run[i])
  }

  /** Checks of one key come one after the other, each finished before the next starts. */
  ghost predicate Timed(run: seq<Check>) {
    && (forall i :: 0 <= i < |run| ==> run[i].at <= run[i].armed)
    && (forall i, j :: 0 <= i < j < |run| && run[i].Key() == run[j].Key() ==> run[i].armed <= run[j].at)
  }

  /** How many messages to `k` pass between `a` and `b`, both included, in the first `n` checks. */
  function PassedWithin(run: seq<Check>, k: Key, a: real, b: real, n: nat): nat
    requires n <= |run|
  {
    if n == 0 then 0
    else
      var c := run[n - 1];
      PassedWithin(run, k, a, b, n - 1) +
      if c.aid == k.0 && c.phone == k.1 && Passes(run, n - 1) && a <= c.at <= b then 1 else 0
  }

  /** How many messages to `k` passed since its present counter was created. */
  function PassedInLifetime(run: seq<Check>, k: Key, n: nat): nat
    requires n <= |run|
  {
    if n == 0 then 0
    else
      var c := run[n - 1];
      if c.Key() != k then PassedInLifetime(run, k, n - 1)
      else (if Alive(After(run, n - 1), k, c.at) then PassedInLifetime(run, k, n - 1) else 0)
           + if Passes(run, n - 1) then 1 else 0
  }

  /** In one lifetime of a counter exactly the first three checks pass. */
  lemma {:induction false} ThreePerLifetime(run: seq<Check>, k: Key, n: nat)
    requires n <= |run| && k.1 > 0
    ensures var m := After(run, n);
            PassedInLifetime(run, k, n) == if k !in m then 0 else if m[k].count <= 3 then m[k].count else 3
  {
    if n > 0 {
      ThreePerLifetime(run, k, n - 1);
    }
  }

  /** When the present counter of `k` was created. */
  ghost function Created(run: seq<Check>, k: Key, n: nat): real
    requires n <= |run|
  {
    if n == 0 then 0.0
    else if run[n - 1].Key() == k && !Alive(After(run, n - 1), k, run[n - 1].at) then run[n - 1].at
    else Created(run, k, n - 1)
  }

  ghost function LastSeen(run: seq<Check>, k: Key, n: nat): (r: Option<real>)
    requires n <= |run|
    ensures r.Some? ==> exists i :: 0 <= i < n && run[i].Key() == k && run[i].at == r.value
  {
    if n == 0 then None
    else if run[n - 1].Key() == k then Some(run[n - 1].at)
    else LastSeen(run, k, n - 1)
  }

  /**
   What holds after every prefix. While the window began before `a`, its first pass is outside the
   interval; once one begins inside, it and the last one before it are the only two that can count.
   */
  ghost predicate Bounded(run: seq<Check>, k: Key, a: real, n: nat)
    requires n <= |run|
  {
    var m, passed, last := After(run, n), PassedWithin(run, k, a, a + 60.0, n), LastSeen(run, k, n);
    if k !in m then passed == 0
    else
      var s, c := Created(run, k, n), if m[k].count <= 3 then m[k].count else 3;
      && m[k].count > 0
      && m[k].deadline.Some? && m[k].deadline.value >= s + 60.0
      && last.Some? && s <= last.value && (passed > 0 ==> a <= last.value)
      && (s < a ==> passed <= c - 1)
      && (a <= s ==> passed <= 5 && (passed <= 2 + c || s > a + 60.0))
  }

  lemma {:induction false} AlwaysBounded(run: seq<Check>, k: Key, a: real, n: nat)
    requires n <= |run| && Timed(run) && k.1 > 0
    ensures Bounded(run, k, a, n)
  {
    if n > 0 {
      AlwaysBounded(run, k, a, n - 1);
    }
  }

  /**
   In any interval of 60 seconds at most 5 messages of one account to one number pass: the two
   windows that can meet in it never both contribute their first pass.
   */
  lemma AtMostFivePerMinute(run: seq<Check>, k: Key, a: real)
    requires Timed(run) && k.1 > 0
    ensures PassedWithin(run, k, a, a + 60.0, |run|) <= 5
  {
    AlwaysBounded(run, k, a, |run|);
  }

  /** The checks of one account and number. */
  function OfKey(run: seq<Check>, k: Key): seq<Check> {
    if run == [] then []
    else
      var front, last := OfKey(run[..|run| - 1], k), run[|run| - 1];
      if last.aid == k.0 && last.phone == k.1 then front + [last] else front
  }

  lemma {:induction false} AfterPrefix(run: seq<Check>, n: nat, m: nat)
    requires n <= m <= |run|
    ensures After(run[..m], n) == After(run, n)
  {
    if n > 0 {
      AfterPrefix(run, n - 1, m);
    }
  }

  lemma AfterOneMore(run: seq<Check>, c: Check)
    ensures After(run + [c], |run| + 1) == Checked(After(run, |run|), c)
  {
    AfterPrefix(run + [c], |run|, |run|);
    assert (run + [c])[..|run|] == run;
  }

  /** The counter of one key, and so the verdict on its next check. */
  ghost predicate SameFor(k: Key, a: map<Key, Counter>, b: map<Key, Counter>) {
    && (k in a <==> k in b) && (k in a ==> a[k] == b[k])
    && forall c: Check :: c.aid == k.0 && c.phone == k.1 ==> (Limited(a, c) <==> Limited(b, c))
  }

  lemma OwnCheckCounts(k: Key, a: map<Key, Counter>, b: map<Key, Counter>, c: Check)
    requires SameFor(k, a, b)
    ensures if c.aid == k.0 && c.phone == k.1 then SameFor(k, Checked(a, c), Checked(b, c)) else SameFor(k, Checked(a, c), b)
  {
  }

  /** Nobody is limited by what others send or by what he sends to others: those checks could be left out. */
  lemma {:induction false} OnlyOwnChecksCount(run: seq<Check>, k: Key)
    ensures SameFor(k, After(run, |run|), After(OfKey(run, k), |OfKey(run, k)|))
  {
    hide SameFor, Checked;
    if run == [] {
      assert SameFor(k, map[], map[]) by { NothingDiffers(k); }
    } else {
      var front, last := run[..|run| - 1], run[|run| - 1];
      OnlyOwnChecksCount(front, k);
      AfterOneMore(front, last);
      AfterOneMore(OfKey(front, k), last);
      assert run == front + [last];
      OwnCheckCounts(k, After(front, |front|), After(OfKey(front, k), |OfKey(front, k)|), last);
    }
  }

  lemma NothingDiffers(k: Key)
    ensures SameFor(k, map[], map[])
  {
  }

  function Instant(k: Key, t: real): Check { Check(k.0, k.1, t, t) }

  /** Five is reached. */
  lemma FiveIsReached(k: Key) returns (run: seq<Check>, a: real)
    requires k.1 > 0
    ensures Timed(run) && PassedWithin(run, k, a, a + 60.0, |run|) == 5
  {
    run := [Instant(k, 0.0), Instant(k, 59.0), Instant(k, 59.5), Instant(k, 61.0), Instant(k, 62.0), Instant(k, 63.0)];
    a := 59.0;
    assert After(run, 1) == map[k := Counter(1, Some(60.0))];
    assert After(run, 2) == map[k := Counter(2, Some(60.0))];
    assert After(run, 3) == map[k := Counter(3, Some(60.0))];
    assert After(run, 4) == map[k := Counter(1, Some(121.0))];
    assert After(run, 5) == map[k := Counter(2, Some(121.0))];
    assert PassedWithin(run, k, a, a + 60.0, 1) == 0;
    assert PassedWithin(run, k, a, a + 60.0, 3) == 2;
    assert PassedWithin(run, k, a, a + 60.0, 5) == 4;
  }

  /** The number 0 stands for text that is no number: it is never held back and never counted. */
  lemma UnparsedIsNeverLimited(m: map<Key, Counter>, c: Check)
    ensures c.phone == 0 <==> Checked(m, c) == m && forall n: map<Key, Counter> :: !Limited(n, c)
  {
    if c.phone > 0 {
      var n := map[c.Key() := Counter(LIMIT, None)];
      assert Limited(n, c);
    }
  }
}
