/**
 The bound on gateway queues in module Protocol cannot be improved: for every number of threads and of
 test pushes it is reached, with as many servers as threads, and also by one server that is reloaded
 while it sends.
 */
module QueueBound {
  import opened ProtocolRecords
  import opened ProtocolRuns
  import opened ProtocolSteps
  import opened Routing
  import opened Wrappers

  ghost predicate Holds(s: State, started: nat, n: nat) {
    && Reachable(s) && s.started == started
    && 7 in s.queues && |s.queues[7]| == n && Tests(Only(s.log, 7)) == 0
  }

  lemma LandedHolds(s: State, t: State, i: nat, started: nat, n: nat)
    requires Holds(s, started, n) && Reachable(t) && t == Landed(s, i).(servers := t.servers)
    ensures Holds(t, started, n + 1)
  {
    LogOfLast(s.log, Appended(7, Item(Account(i), M)));
    TestsOfLast(Only(s.log, 7), Item(Account(i), M));
  }

  ghost predicate Ready(sv: Server) {
    Is(sv, Head, Idle) && sv.retired == []
  }

  /** Past the capacity test of queue 7, before the append. */
  ghost predicate Armed(sv: Server) {
    Is(sv, Waiting(M), Pushing(M, 7, []))
  }

  lemma {:induction false} Fill(k: nat, n: nat) returns (s: State)
    requires k > 0 && n < CAPACITY
    ensures Holds(s, k, n) && |s.servers| == k && forall i :: 0 <= i < k ==> Ready(s.servers[i])
  {
    if n == 0 {
      s := Setup(k);
    } else {
      var r := Fill(k, n - 1);
      var a := PullAndSend(r, 0);
      var b := Scan(a, 0);
      var c := Land(b, 0);
      LandedHolds(b, c, 0, k, n - 1);
      s := Settle(c, 0);
    }
  }

  // ----- one thread for each server

  /** The first `j` threads have all passed the test while the queue still had room. */
  lemma {:induction false} ArmAll(k: nat, j: nat) returns (s: State)
    requires k > 0 && j <= k
    ensures Holds(s, k, CAPACITY - 1) && |s.servers| == k
    ensures forall i :: 0 <= i < j ==> Armed(s.servers[i])
    ensures forall i :: j <= i < k ==> Ready(s.servers[i])
  {
    if j == 0 {
      s := Fill(k, CAPACITY - 1);
    } else {
      var r := ArmAll(k, j - 1);
      var a := PullAndSend(r, j - 1);
      s := Scan(a, j - 1);
    }
  }

  lemma {:induction false} LandAll(k: nat, j: nat) returns (s: State)
    requires k > 0 && j <= k
    ensures Holds(s, k, CAPACITY - 1 + j) && |s.servers| == k
    ensures forall i :: j <= i < k ==> Armed(s.servers[i])
  {
    if j == 0 {
      s := ArmAll(k, k);
    } else {
      var r := LandAll(k, j - 1);
      s := Land(r, j - 1);
      LandedHolds(r, s, j - 1, k, CAPACITY - 1 + j - 1);
    }
  }

  // ----- one server

  ghost predicate ArmedOld(o: OldThread) {
    o == OldThread(Pushing(M, 7, []), CHANNELS)
  }

  lemma ReloadArmed(s: State) returns (t: State)
    requires Reachable(s) && |s.servers| == 1 && Armed(s.servers[0])
    ensures Reachable(t) && |t.servers| == 1 && t == s.(servers := t.servers, started := s.started + 1)
    ensures Is(t.servers[0], Sending(M), Idle)
    ensures t.servers[0].retired == s.servers[0].retired + [OldThread(Pushing(M, 7, []), CHANNELS)]
  {
    Extend(s, Reload(0, CONFIG, CHANNELS));
    t := Next(s, Reload(0, CONFIG, CHANNELS));
  }

  /** One server, reloaded whenever its thread is past the test, has `k` threads there. */
  lemma {:induction false} ArmByReload(k: nat) returns (s: State)
    requires k > 0
    ensures Holds(s, k, CAPACITY - 1) && |s.servers| == 1 && Armed(s.servers[0])
    ensures |s.servers[0].retired| == k - 1 && forall j :: 0 <= j < k - 1 ==> ArmedOld(s.servers[0].retired[j])
  {
    if k == 1 {
      var r := Fill(1, CAPACITY - 1);
      var a := PullAndSend(r, 0);
      s := Scan(a, 0);
    } else {
      var r := ArmByReload(k - 1);
      var a := ReloadArmed(r);
      var b := Resend(a, 0);
      s := Scan(b, 0);
    }
  }

  lemma LandOld(s: State, k: nat) returns (t: State)
    requires Reachable(s) && |s.servers| == 1 && k < |s.servers[0].retired| && ArmedOld(s.servers[0].retired[k]) && 7 in s.queues
    ensures Reachable(t) && |t.servers| == 1 && t == Landed(s, 0).(servers := t.servers)
    ensures |t.servers[0].retired| == |s.servers[0].retired|
    ensures forall j :: 0 <= j < |s.servers[0].retired| && j != k ==> t.servers[0].retired[j] == s.servers[0].retired[j]
    ensures Armed(s.servers[0]) ==> Armed(t.servers[0])
  {
    Extend(s, OldAppend(0, k));
    t := Next(s, OldAppend(0, k));
  }

  lemma {:induction false} LandAllOld(k: nat, j: nat) returns (s: State)
    requires j < k
    ensures Holds(s, k, CAPACITY - 1 + j) && |s.servers| == 1 && Armed(s.servers[0])
    ensures |s.servers[0].retired| == k - 1 && forall i :: j <= i < k - 1 ==> ArmedOld(s.servers[0].retired[i])
  {
    if j == 0 {
      s := ArmByReload(k);
    } else {
      var r := LandAllOld(k, j - 1);
      s := LandOld(r, j - 1);
      LandedHolds(r, s, 0, k, CAPACITY - 1 + j - 1);
    }
  }

  // ----- test pushes on top

  lemma {:induction false} TestAll(s: State, started: nat, n: nat, tests: nat) returns (t: State)
    requires Holds(s, started, n)
    ensures Reachable(t) && t.started == started && t.servers == s.servers
    ensures 7 in t.queues && |t.queues[7]| == n + tests && Tests(Only(t.log, 7)) == tests
  {
    if tests == 0 {
      t := s;
    } else {
      var r := TestAll(s, started, n, tests - 1);
      Extend(r, Test(7, M));
      t := Next(r, Test(7, M));
      LogOfLast(r.log, Appended(7, Item(Tester, KeptTest(M))));
      TestsOfLast(Only(r.log, 7), Item(Tester, KeptTest(M)));
    }
  }

  lemma CountedInSteps(states: seq<State>, steps: seq<Step>)
    requires Run(states, steps)
    ensures states[|steps|].started == Starts(steps) && Tests(Only(states[|steps|].log, 7)) == TestsTo(steps, 7)
  {
    hide Run;
    RunLength(states, steps);
    assert steps[..|steps|] == steps;
    ServersFollowTheSteps(states, steps, |steps|, 0);
    TestsFollowTheSteps(states, steps, |steps|, 7);
  }

  /** With any number of threads and of test pushes, some run fills a queue to exactly 127 plus both. */
  lemma BoundIsReached(k: nat, tests: nat) returns (states: seq<State>, steps: seq<Step>)
    requires k > 0
    ensures Run(states, steps)
    ensures var s := states[|steps|];
            && Starts(steps) == k && TestsTo(steps, 7) == tests
            && 7 in s.queues && |s.queues[7]| == 127 + k + tests
  {
    var r := LandAll(k, k);
    var s := TestAll(r, k, 127 + k, tests);
    states, steps :| Run(states, steps) && states[|steps|] == s;
    CountedInSteps(states, steps);
  }

  /** ... and so does some run of one server, whose reloads start the threads. */
  lemma OneServerReachesTheBound(k: nat, tests: nat) returns (states: seq<State>, steps: seq<Step>)
    requires k > 0
    ensures Run(states, steps)
    ensures var s := states[|steps|];
            && |s.servers| == 1 && Starts(steps) == k && TestsTo(steps, 7) == tests
            && 7 in s.queues && |s.queues[7]| == 127 + k + tests
  {
    var q := LandAllOld(k, k - 1);
    var r := Land(q, 0);
    LandedHolds(q, r, 0, k, CAPACITY - 1 + k - 1);
    var s := TestAll(r, k, 127 + k, tests);
    states, steps :| Run(states, steps) && states[|steps|] == s;
    CountedInSteps(states, steps);
  }
}
