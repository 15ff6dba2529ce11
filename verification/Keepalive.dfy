/**
 The keepalive of src/sp.c: each round sends an active test under a new sequence number, raises the
 shared counter and reconnects when it reaches `retry`; the receiver thread clears the counter when a
 response carries the number of the present round. The two threads interleave at every step, so a
 response may arrive before its own round is counted.

 `reconnects` counts how often the connection was replaced. Which rounds were answered is read off the
 steps of a run.
 */
module Keepalive {
  datatype Pc = Head | Counting | Checking

  datatype State = State(pc: Pc, retry: int, count: nat, seqId: nat, reconnects: nat)

  datatype Step = Begin(seqId: nat) | Count | Check | Respond(seqId: nat)

  predicate Initial(s: State) {
    s.pc == Head && s.count == 0 && s.reconnects == 0
  }

  predicate Enabled(s: State, step: Step) {
    match step
    case Begin(_) => s.pc == Head
    case Count => s.pc == Counting
    case Check => s.pc == Checking
    case Respond(_) => true
  }

  function Next(s: State, step: Step): State
    requires Enabled(s, step)
  {
    match step
    case Begin(n) => s.(pc := Counting, seqId := n)
    case Count => s.(pc := Checking, count := s.count + 1)
    case Check => if s.count >= s.retry then s.(pc := Head, count := 0, reconnects := s.reconnects + 1) else s.(pc := Head)
    case Respond(n) => if n == s.seqId then s.(count := 0) else s
  }

  predicate Run(states: seq<State>, steps: seq<Step>) {
    && |states| == |steps| + 1
    && Initial(states[0])
    && forall i :: 0 <= i < |steps| ==> Enabled(states[i], steps[i]) && states[i + 1] == Next(states[i], steps[i])
  }

  // ----- what the steps say

  /** How many rounds began. */
  function Begins(steps: seq<Step>): nat {
    if steps == [] then 0 else Begins(steps[..|steps| - 1]) + if steps[|steps| - 1].Begin? then 1 else 0
  }

  /** Round `k` began with step `b`, and step `r` is a response with its number, before any other round began. */
  predicate Answers(steps: seq<Step>, k: nat, b: nat, r: nat) {
    && b < r < |steps|
    && steps[b].Begin? && Begins(steps[..b]) == k
    && steps[r] == Respond(steps[b].seqId) && Begins(steps[..r]) == k + 1
  }

  ghost predicate Answered(steps: seq<Step>, k: nat) {
    exists b: nat, r: nat :: Answers(steps, k, b, r)
  }

  ghost function Rounds(steps: seq<Step>): seq<bool> {
    seq(Begins(steps), k requires 0 <= k => Answered(steps, k))
  }

  /** The rounds begun since the connection was replaced last, or since the start. */
  function Since(states: seq<State>, steps: seq<Step>, n: nat): nat
    requires n <= |steps| < |states|
  {
    if n == 0 || states[n].reconnects != states[n - 1].reconnects then 0
    else Since(states, steps, n - 1) + if steps[n - 1].Begin? then 1 else 0
  }

  lemma AnswersStay(steps: seq<Step>, step: Step, k: nat)
    ensures Answered(steps, k) ==> Answered(steps + [step], k)
  {
    if b: nat, r: nat :| Answers(steps, k, b, r) {
      assert (steps + [step])[..b] == steps[..b] && (steps + [step])[..r] == steps[..r];
      assert Answers(steps + [step], k, b, r);
    }
  }

  /** A new answer is the last step, to the round in progress. */
  lemma NewAnswer(steps: seq<Step>, step: Step, k: nat)
    requires Answered(steps + [step], k) && !Answered(steps, k)
    ensures step.Respond? && k + 1 == Begins(steps)
    ensures exists b: nat :: b < |steps| && steps[b] == Begin(step.seqId) && Begins(steps[..b]) == k
  {
    var t := steps + [step];
    var b: nat, r: nat :| Answers(t, k, b, r);
    assert t[..b] == steps[..b] && t[..r] == steps[..r];
    assert r < |steps| ==> Answers(steps, k, b, r);
    assert t[..|steps|] == steps && steps[b] == Begin(step.seqId);
  }

  /** `b` is the step that began the round in progress. */
  predicate BeganLast(steps: seq<Step>, b: nat) {
    b < |steps| && steps[b].Begin? && Begins(steps[..b]) + 1 == Begins(steps)
  }

  lemma {:induction false} OneBeganLast(steps: seq<Step>, a: nat, b: nat)
    requires BeganLast(steps, a) && BeganLast(steps, b)
    ensures a == b
  {
    var front := steps[..|steps| - 1];
    assert a < |front| ==> front[..a] == steps[..a];
    assert b < |front| ==> front[..b] == steps[..b];
    BeginsGrow(steps, a);
    BeginsGrow(steps, b);
    if a < |front| && b < |front| {
      OneBeganLast(front, a, b);
    }
  }

  lemma {:induction false} BeginsGrow(steps: seq<Step>, b: nat)
    requires b < |steps| && steps[b].Begin?
    ensures Begins(steps[..b]) + 1 <= Begins(steps)
    ensures b < |steps| - 1 ==> Begins(steps[..b]) + 1 <= Begins(steps[..|steps| - 1])
  {
    var front := steps[..|steps| - 1];
    if b < |front| {
      assert front[..b] == steps[..b];
      BeginsGrow(front, b);
    }
  }

  lemma BeginsOfLast(steps: seq<Step>, step: Step)
    ensures Begins(steps + [step]) == Begins(steps) + if step.Begin? then 1 else 0
  {
    assert (steps + [step])[..|steps|] == steps;
  }

  /** No round is answered before it began. */
  lemma LaterRoundsAreOpen(steps: seq<Step>, k: nat)
    requires Begins(steps) <= k
    ensures !Answered(steps, k)
  {
    if b: nat, r: nat :| Answers(steps, k, b, r) {
      BeginsGrow(steps, b);
    }
  }

  /** What one step does to the rounds; `last` began the round in progress. */
  lemma RoundsOfStep(steps: seq<Step>, step: Step, last: nat)
    requires Begins(steps) > 0 ==> BeganLast(steps, last)
    ensures var rounds := Rounds(steps);
            Rounds(steps + [step]) ==
            if step.Begin? then rounds + [false]
            else if step.Respond? && rounds != [] && steps[last].seqId == step.seqId then rounds[|rounds| - 1 := true]
            else rounds
  {
    hide Answered, Begins;
    var t, rounds := steps + [step], Rounds(steps);
    BeginsOfLast(steps, step);
    if step.Begin? {
      LaterRoundsAreOpen(steps, Begins(steps));
    }
    forall k: nat | k < Begins(t)
      ensures Rounds(t)[k] <==> Answered(steps, k) || (step.Respond? && k + 1 == Begins(steps) && steps[last].seqId == step.seqId)
    {
      AnswerOfStep(steps, step, last, k);
    }
    assert step.Begin? ==> Rounds(t) == rounds + [false];
  }

  lemma AnswerOfStep(steps: seq<Step>, step: Step, last: nat, k: nat)
    requires Begins(steps) > 0 ==> BeganLast(steps, last)
    ensures Answered(steps + [step], k) <==>
            Answered(steps, k) || (step.Respond? && k + 1 == Begins(steps) && steps[last].seqId == step.seqId)
  {
    var t := steps + [step];
    AnswersStay(steps, step, k);
    if Answered(t, k) && !Answered(steps, k) {
      NewAnswer(steps, step, k);
      var b: nat :| b < |steps| && steps[b] == Begin(step.seqId) && Begins(steps[..b]) == k;
      OneBeganLast(steps, last, b);
    }
    if step.Respond? && k + 1 == Begins(steps) && steps[last].seqId == step.seqId {
      assert t[..last] == steps[..last] && t[..|steps|] == steps;
      assert Answers(t, k, last, |steps|);
    }
  }

  // ----- the counter

  /** How many of the latest rounds, the present one included, have had no response. */
  function Silent(rounds: seq<bool>): (n: nat)
    ensures n <= |rounds|
    ensures forall k :: |rounds| - n <= k < |rounds| ==> !rounds[k]
    ensures n < |rounds| ==> rounds[|rounds| - n - 1]
  {
    if rounds == [] || rounds[|rounds| - 1] then 0 else 1 + Silent(rounds[..|rounds| - 1])
  }

  function Min(a: int, b: int): int {
    if a <= b then a else b
  }

  /** The counter is the number of silent rounds, give or take the round in progress and reconnects. */
  predicate Inv(s: State, rounds: seq<bool>, since: nat) {
    var silent, n := Silent(rounds), |rounds|;
    && since <= n
    && (s.pc == Counting ==> n > 0 && s.count <= silent && s.count < n && s.count + 1 >= Min(silent, since))
    && (s.pc != Counting ==> s.count <= silent + 1 && s.count <= n && s.count >= Min(silent, since))
    && (s.pc == Head && s.retry >= 1 ==> s.count < s.retry)
  }

  /** The shared number is that of the round in progress. */
  predicate Numbered(s: State, steps: seq<Step>, last: nat) {
    Begins(steps) > 0 ==> BeganLast(steps, last) && steps[last].seqId == s.seqId
  }

  lemma InvStays(s: State, step: Step, rounds: seq<bool>, since: nat)
    requires Inv(s, rounds, since) && Enabled(s, step)
    ensures var t := Next(s, step);
            && t.retry == s.retry
            && Inv(t, if step.Begin? then rounds + [false]
                      else if step.Respond? && rounds != [] && s.seqId == step.seqId then rounds[|rounds| - 1 := true]
                      else rounds,
                   if t.reconnects != s.reconnects then 0 else since + if step.Begin? then 1 else 0)
  {
    if step.Begin? {
      assert (rounds + [false])[..|rounds|] == rounds;
    }
  }

  lemma NumberStays(s: State, step: Step, steps: seq<Step>, last: nat)
    requires Numbered(s, steps, last) && Enabled(s, step)
    ensures Numbered(Next(s, step), steps + [step], if step.Begin? then |steps| else last)
  {
    BeginsOfLast(steps, step);
    assert (steps + [step])[..|steps|] == steps;
    assert last < |steps| ==> (steps + [step])[..last] == steps[..last];
  }

  lemma {:induction false} EveryStateIsGood(states: seq<State>, steps: seq<Step>, n: nat) returns (last: nat)
    requires Run(states, steps) && n < |states|
    ensures Numbered(states[n], steps[..n], last)
    ensures Inv(states[n], Rounds(steps[..n]), Since(states, steps, n))
    ensures states[n].retry == states[0].retry
  {
    hide Next, Enabled, Inv, Numbered, Rounds;
    if n == 0 {
      last := 0;
      assert Rounds(steps[..0]) == [] && Numbered(states[0], steps[..0], 0) by { NothingYet(states[0]); }
      assert Inv(states[0], [], 0) by { InitialIsGood(states[0]); }
    } else {
      var s, step, before := states[n - 1], steps[n - 1], steps[..n - 1];
      last := EveryStateIsGood(states, steps, n - 1);
      assert steps[..n] == before + [step];
      RoundsAreCounted(s, step, before, last, Since(states, steps, n - 1));
      NumberStays(s, step, before, last);
      last := if step.Begin? then |before| else last;
    }
  }

  lemma NothingYet(s: State)
    ensures Rounds([]) == [] && Numbered(s, [], 0)
  {
  }

  lemma InitialIsGood(s: State)
    requires Initial(s)
    ensures Inv(s, [], 0)
  {
  }

  lemma RoundsAreCounted(s: State, step: Step, steps: seq<Step>, last: nat, since: nat)
    requires Numbered(s, steps, last) && Inv(s, Rounds(steps), since) && Enabled(s, step)
    ensures var t := Next(s, step);
            && t.retry == s.retry
            && Inv(t, Rounds(steps + [step]), if t.reconnects != s.reconnects then 0 else since + if step.Begin? then 1 else 0)
  {
    hide Inv, Next, Enabled, Answered;
    RoundsOfStep(steps, step, last);
    InvStays(s, step, Rounds(steps), since);
  }

  /** No round among the latest `n` had a response. */
  ghost predicate LatestUnanswered(steps: seq<Step>, n: int) {
    forall k: nat :: Begins(steps) - n <= k < Begins(steps) ==> !Answered(steps, k)
  }

  lemma UnansweredAreSilent(steps: seq<Step>, n: nat)
    requires n <= Begins(steps) && LatestUnanswered(steps, n)
    ensures Silent(Rounds(steps)) >= n
  {
    hide Answered;
    var rounds := Rounds(steps);
    assert Silent(rounds) < |rounds| ==> rounds[|rounds| - Silent(rounds) - 1];
  }

  lemma SilentAreUnanswered(steps: seq<Step>, n: int)
    requires n <= Silent(Rounds(steps))
    ensures LatestUnanswered(steps, n)
  {
    hide Answered;
    forall k: nat | Begins(steps) - n <= k < Begins(steps) ensures !Answered(steps, k) {
      assert !Rounds(steps)[k];
    }
  }

  // ----- the main results

  /** The counter is below `retry` at every loop head. */
  lemma CountIsBelowRetryAtHead(states: seq<State>, steps: seq<Step>, n: nat)
    requires Run(states, steps) && n < |states| && states[n].pc == Head && states[n].retry >= 1
    ensures states[n].count < states[n].retry
  {
    hide Run;
    var _ := EveryStateIsGood(states, steps, n);
  }

  /** The connection is replaced only after `retry` rounds of which the last `retry - 1` had no response. */
  lemma ReconnectMeansSilence(states: seq<State>, steps: seq<Step>, n: nat)
    requires Run(states, steps) && n < |steps| && states[n + 1].reconnects != states[n].reconnects
    ensures Begins(steps[..n]) >= states[0].retry && LatestUnanswered(steps[..n], states[0].retry - 1)
  {
    var _ := EveryStateIsGood(states, steps, n);
    assert steps[n].Check? && states[n].count >= states[0].retry;
    hide Run, Answered, LatestUnanswered;
    SilentAreUnanswered(steps[..n], states[0].retry - 1);
  }

  /** Conversely, `retry` rounds in a row without a response never end without a reconnect among them. */
  lemma SilenceMeansReconnect(states: seq<State>, steps: seq<Step>, n: nat)
    requires Run(states, steps) && n < |states| && states[n].pc == Head
    requires 1 <= states[0].retry <= Begins(steps[..n]) && LatestUnanswered(steps[..n], states[0].retry)
    ensures Since(states, steps, n) < states[0].retry
  {
    assert n <= |steps|;
    hide Run, Answered, LatestUnanswered;
    var _ := EveryStateIsGood(states, steps, n);
    UnansweredAreSilent(steps[..n], states[0].retry);
  }

  /**
   So a live connection is kept: nothing is ever reconnected while, at each step, some round among the
   latest `retry - 1` has been answered.
   */
  lemma {:induction false} AnsweredMeansNoReconnect(states: seq<State>, steps: seq<Step>, n: nat)
    requires Run(states, steps) && n < |states|
    requires forall m :: 0 <= m < n && Begins(steps[..m]) >= states[0].retry ==> !LatestUnanswered(steps[..m], states[0].retry - 1)
    ensures states[n].reconnects == 0
  {
    hide Next, Enabled, LatestUnanswered;
    if n > 0 {
      AnsweredMeansNoReconnect(states, steps, n - 1);
      if states[n].reconnects != states[n - 1].reconnects {
        ReconnectMeansSilence(states, steps, n - 1);
        assert false;
      }
    }
  }
}
