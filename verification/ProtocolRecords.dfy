/**
 What a run of module ProtocolSteps did, read off its steps alone: the messages a server pulled and
 what the probes said of them, the reports that failed, the bills due, the configurations, the test
 pushes and the money paid in. The histories and the other fields of every state agree with it.
 */
module ProtocolRecords {
  import opened ProtocolSteps
  import opened Routing
  import opened Wrappers
  import S = Server

  // ----- what the steps say

  /** One turn for each message that server `i` pulled: the message, and what the probes said when it passed the filters. */
  function TurnsBy(steps: seq<Step>, i: nat): seq<Turn> {
    if steps == [] then []
    else
      var before, last := TurnsBy(steps[..|steps| - 1], i), steps[|steps| - 1];
      if !last.Local? || last.i != i then before
      else if last.act.Pull? then before + [Turn(last.act.m, None)]
      else if last.act.Filter? && last.act.at.None? && before != [] then
        before[..|before| - 1] + [Turn(before[|before| - 1].pulled, Some(last.act.probes))]
      else before
  }

  /** Reports with a status other than 1 that server `i` received. */
  function FailedReports(steps: seq<Step>, i: nat): nat {
    if steps == [] then 0
    else
      var last := steps[|steps| - 1];
      FailedReports(steps[..|steps| - 1], i) + if last.Local? && last.i == i && last.act.Report? && last.act.status != 1 then 1 else 0
  }

  datatype Settings = Settings(config: Config, channels: seq<Channel>)

  /** What every server was given when it started, or at its last reload. */
  function Setups(steps: seq<Step>): seq<Settings> {
    if steps == [] then []
    else
      var before, last := Setups(steps[..|steps| - 1]), steps[|steps| - 1];
      if last.Join? then before + [Settings(last.config, last.channels)]
      else if last.Reload? && last.i < |before| then before[last.i := Settings(last.config, last.channels)]
      else before
  }

  /** The bills that server `i` owes its company of the moment: -1 when it bills a message, +1 for a failed report. */
  function BillsBy(steps: seq<Step>, i: nat): seq<Bill> {
    if steps == [] then []
    else
      var front, last := steps[..|steps| - 1], steps[|steps| - 1];
      var before := BillsBy(front, i);
      if !last.Local? || last.i != i || i >= |Setups(front)| then before
      else if last.act.PushBill? then before + [Bill(Setups(front)[i].config.company, -1)]
      else if last.act.Report? && last.act.status != 1 then before + [Bill(Setups(front)[i].config.company, 1)]
      else before
  }

  /** What server `i` was configured with each time it stored a message. */
  function StoresBy(steps: seq<Step>, i: nat): seq<Config> {
    if steps == [] then []
    else
      var front, last := steps[..|steps| - 1], steps[|steps| - 1];
      var before := StoresBy(front, i);
      if last.Local? && last.i == i && last.act.Store? && i < |Setups(front)| then before + [Setups(front)[i].config] else before
  }

  /** Push threads started: one for each server, and one for each reload. */
  function Starts(steps: seq<Step>): nat {
    if steps == [] then 0
    else Starts(steps[..|steps| - 1]) + if steps[|steps| - 1].Join? || steps[|steps| - 1].Reload? then 1 else 0
  }

  function TestsTo(steps: seq<Step>, q: int): nat {
    if steps == [] then 0
    else TestsTo(steps[..|steps| - 1], q) + if steps[|steps| - 1].Test? && steps[|steps| - 1].q == q then 1 else 0
  }

  function Recharged(steps: seq<Step>, c: int): int {
    if steps == [] then 0
    else
      Recharged(steps[..|steps| - 1], c) +
      if steps[|steps| - 1].Recharge? && steps[|steps| - 1].company == c then steps[|steps| - 1].amount else 0
  }

  /** The bill that a step handles, and whether it is applied. */
  function BillOf(s: State, step: Step): Option<Bill> {
    if step.ApplyBill? && step.i < |s.servers| then s.servers[step.i].inHand else None
  }

  /** The bills to company `c` that were applied, or that were dropped. */
  function Handled(states: seq<State>, steps: seq<Step>, n: nat, c: int, ok: bool): int
    requires n <= |steps| <= |states|
  {
    if n == 0 then 0
    else
      var b := BillOf(states[n - 1], steps[n - 1]);
      Handled(states, steps, n - 1, c, ok) +
      if b.Some? && steps[n - 1].ok == ok && b.value.company == c then b.value.money else 0
  }

  /** The bills of server `i` that were handled, in order. */
  function HandledFor(states: seq<State>, steps: seq<Step>, n: nat, i: nat): seq<Bill>
    requires n <= |steps| <= |states|
  {
    if n == 0 then []
    else
      var b := BillOf(states[n - 1], steps[n - 1]);
      HandledFor(states, steps, n - 1, i) + if b.Some? && steps[n - 1].i == i then [b.value] else []
  }

  lemma StepsOfLast(steps: seq<Step>, step: Step, i: nat)
    ensures var t := steps + [step];
            && TurnsBy(t, i) == TurnsAfter(TurnsBy(steps, i), step, i)
            && FailedReports(t, i) == FailedReports(steps, i) +
                 (if step.Local? && step.i == i && step.act.Report? && step.act.status != 1 then 1 else 0)
            && Starts(t) == Starts(steps) + if step.Join? || step.Reload? then 1 else 0
  {
    assert (steps + [step])[..|steps|] == steps;
  }

  function TurnsAfter(before: seq<Turn>, step: Step, i: nat): seq<Turn> {
    if !step.Local? || step.i != i then before
    else if step.act.Pull? then before + [Turn(step.act.m, None)]
    else if step.act.Filter? && step.act.at.None? then Passing(before, step.act.probes)
    else before
  }

  lemma BillsOfLast(steps: seq<Step>, step: Step, i: nat)
    ensures var t := steps + [step];
            && Setups(t) == (if step.Join? then Setups(steps) + [Settings(step.config, step.channels)]
                             else if step.Reload? && step.i < |Setups(steps)|
                             then Setups(steps)[step.i := Settings(step.config, step.channels)] else Setups(steps))
            && BillsBy(t, i) == BillsBy(steps, i) +
                 if !step.Local? || step.i != i || i >= |Setups(steps)| then []
                 else if step.act.PushBill? then [Bill(Setups(steps)[i].config.company, -1)]
                 else if step.act.Report? && step.act.status != 1 then [Bill(Setups(steps)[i].config.company, 1)]
                 else []
    ensures StoresBy(steps + [step], i) == StoresBy(steps, i) +
              if step.Local? && step.i == i && step.act.Store? && i < |Setups(steps)| then [Setups(steps)[i].config] else []
  {
    assert (steps + [step])[..|steps|] == steps;
  }

  // ----- the steps of one server

  predicate OfServer(step: Step, i: nat) {
    (step.Local? || step.Append? || step.OldAppend? || step.ApplyBill? || step.Reload?) && step.i == i
  }

  lemma OtherServersStay(s: State, step: Step, i: nat)
    requires Enabled(s, step) && i < |s.servers|
    requires !OfServer(step, i)
    ensures i < |Next(s, step).servers| && Next(s, step).servers[i] == s.servers[i]
  {
    hide Acted, CanAct, Reconnected;
  }

  /** The server after a step of its own. */
  ghost function Own(s: State, step: Step, i: nat): Server
    requires Enabled(s, step) && OfServer(step, i)
  {
    var sv := s.servers[i];
    match step
    case Local(_, act) => Acted(sv, s.queues, act)
    case Append(_) => Pushed(sv)
    case OldAppend(_, k) => OldAppended(sv, k)
    case ApplyBill(_, _) => sv.(inHand := None)
    case Reload(_, config, channels) => Reconnected(sv, channels).(config := config)
    case _ => sv
  }

  lemma OwnIsNext(s: State, step: Step, i: nat)
    requires Enabled(s, step) && OfServer(step, i)
    ensures i < |s.servers| == |Next(s, step).servers| && Next(s, step).servers[i] == Own(s, step, i)
  {
    hide Acted, CanAct, Reconnected, Pushed, OldAppended;
  }

  // ----- the fields agree with the steps

  /** The bill in the billing thread's hands and the ones queued behind it. */
  function Rest(sv: Server): seq<Bill> {
    (if sv.inHand.Some? then [sv.inHand.value] else []) + sv.billing
  }

  ghost predicate ServerRecorded(sv: Server, steps: seq<Step>, i: nat) {
    && i < |Setups(steps)| && Setups(steps)[i] == Settings(sv.config, sv.channels)
    && sv.turns == TurnsBy(steps, i)
    && sv.refunds == FailedReports(steps, i)
    && sv.issued == BillsBy(steps, i)
    && OwnedBy(sv.storage, StoresBy(steps, i))
  }

  /** Each stored copy is under the account and the company of its moment. */
  ghost predicate OwnedBy(storage: seq<Submit>, configs: seq<Config>) {
    && |storage| == |configs|
    && forall k :: 0 <= k < |storage| ==> storage[k].account == configs[k].account && storage[k].company == configs[k].company
  }

  ghost predicate Recorded(s: State, steps: seq<Step>, i: nat) {
    && |s.servers| == |Setups(steps)|
    && s.started == Starts(steps)
    && (if i < |s.servers| then ServerRecorded(s.servers[i], steps, i)
        else TurnsBy(steps, i) == [] && FailedReports(steps, i) == 0 && BillsBy(steps, i) == [] && StoresBy(steps, i) == [])
  }

  lemma ActedIsRecorded(sv: Server, queues: map<int, seq<Item>>, act: Act, steps: seq<Step>, i: nat)
    requires CanAct(sv, act) && ServerRecorded(sv, steps, i)
    ensures ServerRecorded(Acted(sv, queues, act), steps + [Local(i, act)], i)
  {
    hide Moved, CanMove, TurnsBy, FailedReports, BillsBy, StoresBy, Setups;
    StepsOfLast(steps, Local(i, act), i);
    BillsOfLast(steps, Local(i, act), i);
  }

  lemma OwnIsRecorded(s: State, step: Step, steps: seq<Step>, i: nat)
    requires Enabled(s, step) && OfServer(step, i) && ServerRecorded(s.servers[i], steps, i)
    ensures ServerRecorded(Own(s, step, i), steps + [step], i)
  {
    hide TurnsBy, FailedReports, BillsBy, StoresBy, Setups, Acted, CanAct;
    if step.Local? {
      ActedIsRecorded(s.servers[i], s.queues, step.act, steps, i);
    } else {
      StepsOfLast(steps, step, i);
      BillsOfLast(steps, step, i);
    }
  }

  lemma OthersAreRecorded(sv: Server, step: Step, steps: seq<Step>, i: nat)
    requires !OfServer(step, i) && ServerRecorded(sv, steps, i)
    ensures ServerRecorded(sv, steps + [step], i)
  {
    hide TurnsBy, FailedReports, BillsBy, StoresBy, Setups;
    StepsOfLast(steps, step, i);
    BillsOfLast(steps, step, i);
  }

  lemma NextCounts(s: State, step: Step)
    requires Enabled(s, step)
    ensures Next(s, step).started == s.started + if step.Join? || step.Reload? then 1 else 0
    ensures |Next(s, step).servers| == |s.servers| + if step.Join? then 1 else 0
    ensures step.Join? ==> Next(s, step).servers[|s.servers|] == Fresh(step.config, step.channels)
  {
    hide Acted, CanAct, Reconnected;
  }

  lemma FreshIsRecorded(config: Config, channels: seq<Channel>, steps: seq<Step>, i: nat)
    requires i == |Setups(steps)| && TurnsBy(steps, i) == [] && FailedReports(steps, i) == 0
    requires BillsBy(steps, i) == [] && StoresBy(steps, i) == []
    ensures ServerRecorded(Fresh(config, channels), steps + [Join(config, channels)], i)
  {
    hide TurnsBy, FailedReports, BillsBy, StoresBy, Setups;
    StepsOfLast(steps, Join(config, channels), i);
    BillsOfLast(steps, Join(config, channels), i);
  }

  lemma AbsentIsRecorded(s: State, step: Step, steps: seq<Step>, i: nat)
    requires Enabled(s, step) && Recorded(s, steps, i) && |s.servers| <= i
    ensures Recorded(Next(s, step), steps + [step], i)
  {
    hide TurnsBy, FailedReports, BillsBy, StoresBy, Setups, Next, Enabled, ServerRecorded, Fresh;
    NextCounts(s, step);
    StepsOfLast(steps, step, i);
    BillsOfLast(steps, step, i);
    EnabledIsPresent(s, step);
    if step.Join? && i == |s.servers| {
      FreshIsRecorded(step.config, step.channels, steps, i);
    }
  }

  lemma EnabledIsPresent(s: State, step: Step)
    requires Enabled(s, step)
    ensures step.Local? || step.Reload? ==> step.i < |s.servers|
  {
    hide CanAct;
  }

  lemma NextIsRecorded(s: State, step: Step, steps: seq<Step>, i: nat)
    requires Enabled(s, step) && Recorded(s, steps, i)
    ensures Recorded(Next(s, step), steps + [step], i)
  {
    hide TurnsBy, FailedReports, BillsBy, StoresBy, Setups, Next, Enabled, ServerRecorded, Own;
    if |s.servers| <= i {
      AbsentIsRecorded(s, step, steps, i);
    } else {
      NextCounts(s, step);
      StepsOfLast(steps, step, i);
      BillsOfLast(steps, step, i);
      if OfServer(step, i) {
        OwnIsRecorded(s, step, steps, i);
        OwnIsNext(s, step, i);
      } else {
        OthersAreRecorded(s.servers[i], step, steps, i);
        OtherServersStay(s, step, i);
      }
    }
  }

  lemma {:induction false} EveryServerIsRecorded(states: seq<State>, steps: seq<Step>, n: nat, i: nat)
    requires Run(states, steps) && n < |states|
    ensures Recorded(states[n], steps[..n], i)
  {
    hide Next, Enabled;
    if n > 0 {
      hide Recorded;
      EveryServerIsRecorded(states, steps, n - 1, i);
      NextIsRecorded(states[n - 1], steps[n - 1], steps[..n - 1], i);
      assert steps[..n] == steps[..n - 1] + [steps[n - 1]];
    }
  }

  // ----- the main results

  /**
   In every run, of every server: its configuration and channels are those of its start or its last
   reload, its turns are the messages it was given, what it issued are the bills due, and the threads started
   are as many as starts and reloads.
   */
  lemma ServersFollowTheSteps(states: seq<State>, steps: seq<Step>, n: nat, i: nat)
    requires Run(states, steps) && n < |states|
    ensures |states[n].servers| == |Setups(steps[..n])| && states[n].started == Starts(steps[..n])
    ensures i < |states[n].servers| ==>
              var sv := states[n].servers[i];
              && Setups(steps[..n])[i] == Settings(sv.config, sv.channels)
              && sv.turns == TurnsBy(steps[..n], i)
              && sv.refunds == FailedReports(steps[..n], i)
              && sv.issued == BillsBy(steps[..n], i)
              && OwnedBy(sv.storage, StoresBy(steps[..n], i))
  {
    hide Run;
    assert n <= |steps| by { RunLength(states, steps); }
    EveryServerIsRecorded(states, steps, n, i);
  }

  lemma RunLength(states: seq<State>, steps: seq<Step>)
    requires Run(states, steps)
    ensures |states| == |steps| + 1
  {
  }

  /** Most acts touch no bill. */
  lemma ActedBills(sv: Server, queues: map<int, seq<Item>>, act: Act)
    requires CanAct(sv, act) && !act.PushBill? && !act.Report? && !act.TakeBill?
    ensures var t := Acted(sv, queues, act); t.issued == sv.issued && t.billing == sv.billing && t.inHand == sv.inHand
  {
    hide Moved, CanMove;
  }

  lemma ActedRest(sv: Server, queues: map<int, seq<Item>>, act: Act)
    requires CanAct(sv, act)
    ensures sv.issued <= Acted(sv, queues, act).issued
    ensures Rest(Acted(sv, queues, act)) == Rest(sv) + Acted(sv, queues, act).issued[|sv.issued|..]
  {
    if act.TakeBill? {
      assert sv.billing == [sv.billing[0]] + sv.billing[1..];
    } else if !act.PushBill? && !act.Report? {
      ActedBills(sv, queues, act);
      hide Acted, CanAct;
    }
  }

  lemma OwnRest(s: State, step: Step, i: nat)
    requires Enabled(s, step) && OfServer(step, i)
    ensures var sv, own, b := s.servers[i], Own(s, step, i), BillOf(s, step);
            && sv.issued <= own.issued
            && (if b.Some? then [b.value] else []) + Rest(own) == Rest(sv) + own.issued[|sv.issued|..]
  {
    hide Acted, CanAct;
    if step.Local? {
      ActedRest(s.servers[i], s.queues, step.act);
    }
  }

  lemma HandledInStep(s: State, step: Step, i: nat, done: seq<Bill>)
    requires Enabled(s, step) && i < |s.servers| && done + Rest(s.servers[i]) == s.servers[i].issued
    ensures i < |Next(s, step).servers|
    ensures var t, b := Next(s, step).servers[i], BillOf(s, step);
            (done + if b.Some? && step.i == i then [b.value] else []) + Rest(t) == t.issued
  {
    hide Next, Enabled, Own, Rest;
    if OfServer(step, i) {
      OwnRest(s, step, i);
      OwnIsNext(s, step, i);
      HandledOneMore(done, BillOf(s, step), Rest(s.servers[i]), Rest(Own(s, step, i)), s.servers[i].issued, Own(s, step, i).issued);
    } else {
      OtherServersStay(s, step, i);
    }
  }

  lemma {:induction false} HandledIsIssued(states: seq<State>, steps: seq<Step>, n: nat, i: nat)
    requires Run(states, steps) && n < |states| && i < |states[n].servers|
    ensures HandledFor(states, steps, n, i) + Rest(states[n].servers[i]) == states[n].servers[i].issued
  {
    assert n > 0;
    hide Next, Enabled, Rest, BillOf;
    var s, step := states[n - 1], steps[n - 1];
    NextCounts(s, step);
    if i < |s.servers| {
      HandledIsIssued(states, steps, n - 1, i);
      HandledInStep(s, step, i, HandledFor(states, steps, n - 1, i));
    } else {
      NothingHandledYet(states, steps, n, i);
      NothingToBill(step.config, step.channels);
    }
  }

  /** In every run the bills of a server are applied or dropped one by one, in the order in which they were issued. */
  lemma BillsAreHandledInOrder(states: seq<State>, steps: seq<Step>, n: nat, i: nat)
    requires Run(states, steps) && n < |states| && i < |states[n].servers|
    ensures HandledFor(states, steps, n, i) + Rest(states[n].servers[i]) == BillsBy(steps[..n], i)
  {
    RunLength(states, steps);
    hide Run, Rest, HandledFor;
    HandledIsIssued(states, steps, n, i);
    ServersFollowTheSteps(states, steps, n, i);
  }

  lemma NothingToBill(config: Config, channels: seq<Channel>)
    ensures Rest(Fresh(config, channels)) == [] && Fresh(config, channels).issued == []
  {
  }

  lemma {:induction false} NothingHandledYet(states: seq<State>, steps: seq<Step>, n: nat, i: nat)
    requires Run(states, steps) && 0 < n < |states| && |states[n - 1].servers| <= i
    ensures HandledFor(states, steps, n, i) == []
  {
    hide Next, Enabled;
    NextCounts(states[n - 1], steps[n - 1]);
    if n > 1 {
      NextCounts(states[n - 2], steps[n - 2]);
      NothingHandledYet(states, steps, n - 1, i);
    }
  }

  lemma HandledOneMore(done: seq<Bill>, b: Option<Bill>, rest: seq<Bill>, next: seq<Bill>, issued: seq<Bill>, later: seq<Bill>)
    requires done + rest == issued <= later
    requires (if b.Some? then [b.value] else []) + next == rest + later[|issued|..]
    ensures (done + if b.Some? then [b.value] else []) + next == later
  {
    assert later == issued + later[|issued|..];
    assert (done + if b.Some? then [b.value] else []) + next == done + ((if b.Some? then [b.value] else []) + next);
  }

  /** What one step does to the balances. */
  lemma MoneyStep(s: State, step: Step, c: int)
    requires Enabled(s, step)
    ensures var t, b := Next(s, step), BillOf(s, step);
            var paid := if step.Recharge? && step.company == c then step.amount else 0;
            var bill := if b.Some? && b.value.company == c then b.value.money else 0;
            && At(t.funded, c) == At(s.funded, c) + paid
            && At(t.balance, c) == At(s.balance, c) + paid + (if step.ApplyBill? && step.ok then bill else 0)
            && At(t.dropped, c) == At(s.dropped, c) + if step.ApplyBill? && !step.ok then bill else 0
  {
    hide Acted, CanAct, Reconnected;
  }

  /**
   In every run: the balance of a company is what it had and what was paid in, plus the bills applied to it;
   exactly the bills whose update failed are dropped.
   */
  lemma {:induction false} BalancesFollowTheSteps(states: seq<State>, steps: seq<Step>, n: nat, c: int)
    requires Run(states, steps) && n < |states|
    ensures At(states[n].balance, c) == At(states[0].balance, c) + Recharged(steps[..n], c) + Handled(states, steps, n, c, true)
    ensures At(states[n].dropped, c) == Handled(states, steps, n, c, false)
    ensures At(states[n].funded, c) == At(states[0].balance, c) + Recharged(steps[..n], c)
  {
    hide Next, Enabled, At;
    if n == 0 {
      assert At(states[0].dropped, c) == 0 by { NothingAt(c); }
    } else {
      BalancesFollowTheSteps(states, steps, n - 1, c);
      MoneyStep(states[n - 1], steps[n - 1], c);
      assert steps[..n][..n - 1] == steps[..n - 1];
    }
  }

  lemma NothingAt(c: int)
    ensures At(map[], c) == 0
  {
  }

  lemma TestStep(s: State, step: Step, q: int)
    requires Enabled(s, step)
    ensures Tests(Only(Next(s, step).log, q)) == Tests(Only(s.log, q)) + if step.Test? && step.q == q then 1 else 0
  {
    hide Acted, CanAct, Reconnected;
    if step.Append? {
      var l := s.servers[step.i].link;
      LogOfLast(s.log, Appended(l.q, Item(Account(step.i), l.m)));
      TestsOfLast(Only(s.log, q), Item(Account(step.i), l.m));
    } else if step.OldAppend? {
      var l := s.servers[step.i].retired[step.k].link;
      LogOfLast(s.log, Appended(l.q, Item(Account(step.i), l.m)));
      TestsOfLast(Only(s.log, q), Item(Account(step.i), l.m));
    } else if step.Test? {
      LogOfLast(s.log, Appended(step.q, Item(Tester, KeptTest(step.m))));
      TestsOfLast(Only(s.log, q), Item(Tester, KeptTest(step.m)));
    }
  }

  /** The test pushes in the history of a queue are those among the steps. */
  lemma {:induction false} TestsFollowTheSteps(states: seq<State>, steps: seq<Step>, n: nat, q: int)
    requires Run(states, steps) && n < |states|
    ensures Tests(Only(states[n].log, q)) == TestsTo(steps[..n], q)
  {
    hide Next, Enabled, Tests, Only;
    if n == 0 {
      assert Tests(Only([], q)) == 0 by { NoTests(q); }
    } else {
      TestsFollowTheSteps(states, steps, n - 1, q);
      TestStep(states[n - 1], steps[n - 1], q);
      assert steps[..n][..n - 1] == steps[..n - 1];
    }
  }

  lemma NoTests(q: int)
    ensures Tests(Only([], q)) == 0
  {
  }
}
