/**
 Delivery to a client in src/ismg.c: the deliver thread pulls a packet, sends it, and waits for the
 acknowledgement that the receiving thread recognises; on a timeout it sends again. The two threads
 interleave freely; testing an acknowledgement and signalling is one step. A wait ends by a signal
 or by a timeout.

 `events` is the history of the run, and `hollow` counts what an unknown command adds to `rep` and
 `timeo`: no step of the source reads them.
 */
module StopAndWait {
  import opened Wrappers

  /** What the queue server hands out; `Unknown` is any other command. */
  datatype Packet = Report(id: nat, status: int) | Deliver(id: nat) | Unknown

  datatype Pc =
    | Head
    | Ready(p: Packet, seqId: nat)
    | Unguarded(p: Packet, seqId: nat) // sent, not yet waiting: a signal now is lost
    | Waiting(p: Packet, seqId: nat)
    | Finishing(p: Packet, seqId: nat)

  datatype Event =
    | Pulled(p: Packet, seqId: nat)
    | Attempted(p: Packet, seqId: nat)
    | Acked(seqId: nat, msgId: nat, result: int)

  datatype Confirmed = Confirmed(seqId: nat, msgId: nat)

  datatype State = State(pc: Pc, confirmed: Confirmed, ack: nat, rep: nat, timeo: nat, err: nat,
                         events: seq<Event>, hollow: nat)

  datatype Step =
    | Pull(p: Packet, seqId: nat)
    | Send(ok: bool)
    | Wait
    | GetAck(seqId: nat, msgId: nat, result: int)
    | TimeOut
    | Finish

  ghost predicate Initial(s: State) {
    s.pc == Head && s.rep == 0 && s.timeo == 0 && s.events == [] && s.hollow == 0
  }

  /** Sequence numbers are fresh. */
  ghost predicate Enabled(s: State, step: Step) {
    match step
    case Pull(p, n) => s.pc.Head? && forall k :: 0 <= k < |s.events| && s.events[k].Pulled? ==> s.events[k].seqId != n
    case Send(_) => s.pc.Ready?
    case Wait => s.pc.Unguarded?
    case GetAck(_, _, _) => true
    case TimeOut => s.pc.Waiting?
    case Finish => s.pc.Finishing?
  }

  predicate Recognised(s: State, n: nat, id: nat, result: int) {
    s.confirmed == Confirmed(n, id) && result == 0
  }

  ghost function Next(s: State, step: Step): State
    requires Enabled(s, step)
  {
    match step
    case Pull(p, n) =>
      var t := s.(events := s.events + [Pulled(p, n)]);
      if p.Unknown? then t.(pc := Unguarded(p, n))
      else t.(pc := Ready(p, n), confirmed := Confirmed(n, p.id))
    case Send(ok) =>
      s.(pc := Unguarded(s.pc.p, s.pc.seqId), err := if ok then s.err else s.err + 1,
         events := s.events + [Attempted(s.pc.p, s.pc.seqId)])
    case Wait => s.(pc := Waiting(s.pc.p, s.pc.seqId))
    case GetAck(n, id, result) =>
      var t := s.(ack := s.ack + 1, events := s.events + [Acked(n, id, result)]);
      if Recognised(s, n, id, result) && s.pc.Waiting? then t.(pc := Finishing(s.pc.p, s.pc.seqId)) else t
    case TimeOut =>
      var t := s.(timeo := s.timeo + 1);
      if s.pc.p.Unknown? then t.(pc := Finishing(s.pc.p, s.pc.seqId), hollow := s.hollow + 1)
      else t.(pc := Ready(s.pc.p, s.pc.seqId))
    case Finish =>
      s.(pc := Head, rep := s.rep + 1, hollow := if s.pc.p.Unknown? then s.hollow + 1 else s.hollow)
  }

  ghost predicate Run(states: seq<State>, steps: seq<Step>) {
    && |states| == |steps| + 1
    && Initial(states[0])
    && forall i :: 0 <= i < |steps| ==> Enabled(states[i], steps[i]) && states[i + 1] == Next(states[i], steps[i])
  }

  // ----- reading the history

  /** The last packet pulled. */
  function Current(events: seq<Event>): Option<Event> {
    if events == [] then None
    else if events[|events| - 1].Pulled? then Some(events[|events| - 1])
    else Current(events[..|events| - 1])
  }

  /** Position `a` attempts the packet pulled at `j`, and position `i` acknowledges it later. */
  ghost predicate Settles(events: seq<Event>, j: nat, a: nat, i: nat)
    requires j < |events| && events[j].Pulled? && !events[j].p.Unknown?
  {
    && j < a < i < |events|
    && events[a] == Attempted(events[j].p, events[j].seqId)
    && events[i] == Acked(events[j].seqId, events[j].p.id, 0)
  }

  ghost predicate Settled(events: seq<Event>, j: nat)
    requires j < |events| && events[j].Pulled? && !events[j].p.Unknown?
  {
    exists a, i :: Settles(events, j, a, i)
  }

  /** Everything pulled before the last pull is settled; an attempt is always of the last packet pulled. */
  ghost predicate Disciplined(events: seq<Event>, last: int) {
    && -1 <= last < |events|
    && (forall j :: 0 <= j < last && events[j].Pulled? && !events[j].p.Unknown? ==> Settled(events, j))
    && (last >= 0 ==> events[last].Pulled?)
    && (forall j :: last < j < |events| ==> !events[j].Pulled?)
    && (forall j, k :: 0 <= j < k < |events| && events[j].Pulled? && events[k].Pulled? ==> events[j].seqId != events[k].seqId)
    && (forall a :: 0 <= a < |events| && events[a].Attempted? ==>
          Current(events[..a]) == Some(Pulled(events[a].p, events[a].seqId)))
  }

  ghost predicate AttemptedSince(events: seq<Event>, last: int) {
    0 <= last < |events| && events[last].Pulled? &&
    exists a :: last < a < |events| && events[a] == Attempted(events[last].p, events[last].seqId)
  }

  /** How the program counter and the history agree. */
  ghost predicate Inv(s: State, last: int) {
    && Disciplined(s.events, last)
    && (if s.pc.Head? then
          last >= 0 && !s.events[last].p.Unknown? ==> Settled(s.events, last)
        else
          && last >= 0 && s.events[last] == Pulled(s.pc.p, s.pc.seqId)
          && (!s.pc.p.Unknown? ==>
                && s.confirmed == Confirmed(s.pc.seqId, s.pc.p.id)
                && (!s.pc.Ready? ==> AttemptedSince(s.events, last))
                && (s.pc.Finishing? ==> Settled(s.events, last)))
          && (s.pc.Ready? ==> !s.pc.p.Unknown?))
  }

  lemma {:induction false} CurrentIsLast(events: seq<Event>, last: nat)
    requires last < |events| && events[last].Pulled? && forall j :: last < j < |events| ==> !events[j].Pulled?
    ensures Current(events) == Some(events[last])
  {
    if last < |events| - 1 {
      CurrentIsLast(events[..|events| - 1], last);
    }
  }

  lemma SettledStays(events: seq<Event>, e: Event, j: nat)
    requires j < |events| && events[j].Pulled? && !events[j].p.Unknown? && Settled(events, j)
    ensures Settled(events + [e], j)
  {
    var a, i :| Settles(events, j, a, i);
    assert Settles(events + [e], j, a, i);
  }

  /** An event that is no pull, and matches the current packet if it is an attempt. */
  lemma DisciplineStays(events: seq<Event>, e: Event, last: int)
    requires Disciplined(events, last) && !e.Pulled?
    requires e.Attempted? ==> last >= 0 && events[last] == Pulled(e.p, e.seqId)
    ensures Disciplined(events + [e], last)
  {
    var t := events + [e];
    forall j | 0 <= j < last && t[j].Pulled? && !t[j].p.Unknown? ensures Settled(t, j) {
      SettledStays(events, e, j);
    }
    forall a | 0 <= a < |t| && t[a].Attempted? ensures Current(t[..a]) == Some(Pulled(t[a].p, t[a].seqId)) {
      if a < |events| {
        assert t[..a] == events[..a];
      } else {
        assert t[..a] == events;
        CurrentIsLast(events, last);
      }
    }
  }

  lemma PullKeepsDiscipline(events: seq<Event>, p: Packet, n: nat, last: int)
    requires Disciplined(events, last)
    requires last >= 0 && !events[last].p.Unknown? ==> Settled(events, last)
    requires forall k :: 0 <= k < |events| && events[k].Pulled? ==> events[k].seqId != n
    ensures Disciplined(events + [Pulled(p, n)], |events|)
  {
    var t := events + [Pulled(p, n)];
    forall j | 0 <= j < |events| && t[j].Pulled? && !t[j].p.Unknown? ensures Settled(t, j) {
      assert j <= last;
      SettledStays(events, Pulled(p, n), j);
    }
    forall a | 0 <= a < |t| && t[a].Attempted? ensures Current(t[..a]) == Some(Pulled(t[a].p, t[a].seqId)) {
      assert t[..a] == events[..a];
    }
  }

  /** The position of the last pull after a step. */
  ghost function LastAfter(s: State, step: Step, last: int): int {
    if step.Pull? then |s.events| else last
  }

  lemma InvStays(s: State, step: Step, last: int)
    requires Inv(s, last) && Enabled(s, step)
    ensures Inv(Next(s, step), LastAfter(s, step, last))
  {
    var t := Next(s, step);
    match step
    case Pull(p, n) =>
      PullKeepsDiscipline(s.events, p, n, last);
    case Send(_) =>
      DisciplineStays(s.events, Attempted(s.pc.p, s.pc.seqId), last);
      assert t.events[|s.events|] == Attempted(s.pc.p, s.pc.seqId);
    case GetAck(n, id, result) =>
      var e := Acked(n, id, result);
      DisciplineStays(s.events, e, last);
      if last >= 0 && !s.events[last].p.Unknown? {
        if Settled(s.events, last) {
          SettledStays(s.events, e, last);
        }
        if AttemptedSince(s.events, last) {
          var a :| last < a < |s.events| && s.events[a] == Attempted(s.events[last].p, s.events[last].seqId);
          assert t.events[a] == s.events[a];
          if t.pc.Finishing? && s.pc.Waiting? {
            assert Settles(t.events, last, a, |s.events|);
          }
        }
      }
    case _ =>
  }

  // ----- counting

  function Attempts(events: seq<Event>): nat {
    if events == [] then 0
    else Attempts(events[..|events| - 1]) + if events[|events| - 1].Attempted? then 1 else 0
  }

  /** An attempt whose outcome is not yet counted. */
  predicate Outstanding(pc: Pc) {
    (pc.Unguarded? || pc.Waiting? || pc.Finishing?) && !pc.p.Unknown?
  }

  function Unknowns(events: seq<Event>): nat {
    if events == [] then 0
    else Unknowns(events[..|events| - 1]) + if events[|events| - 1].Pulled? && events[|events| - 1].p.Unknown? then 1 else 0
  }

  /** An unknown command adds one or two to `rep + timeo`: it is still to add `most`, and at least `least`. */
  ghost predicate Counted(s: State) {
    var unknown := !s.pc.Head? && s.pc.p.Unknown?;
    var least, most := if unknown then 1 else 0, if !unknown then 0 else if s.pc.Finishing? then 1 else 2;
    && Attempts(s.events) + s.hollow == s.rep + s.timeo + (if Outstanding(s.pc) then 1 else 0)
    && Unknowns(s.events) <= s.hollow + least && s.hollow + most <= 2 * Unknowns(s.events)
  }

  lemma CountsOfLast(events: seq<Event>, e: Event)
    ensures Attempts(events + [e]) == Attempts(events) + if e.Attempted? then 1 else 0
    ensures Unknowns(events + [e]) == Unknowns(events) + if e.Pulled? && e.p.Unknown? then 1 else 0
  {
  }

  lemma PullKeepsCount(s: State, p: Packet, n: nat)
    requires Counted(s) && Enabled(s, Pull(p, n))
    ensures Counted(Next(s, Pull(p, n)))
  {
    CountsOfLast(s.events, Pulled(p, n));
  }

  lemma SendKeepsCount(s: State, ok: bool, last: int)
    requires Inv(s, last) && Counted(s) && Enabled(s, Send(ok))
    ensures Counted(Next(s, Send(ok)))
  {
    CountsOfLast(s.events, Attempted(s.pc.p, s.pc.seqId));
  }

  lemma AckStep(s: State, n: nat, id: nat, result: int)
    ensures var t := Next(s, GetAck(n, id, result));
            && t.events == s.events + [Acked(n, id, result)] && t.hollow == s.hollow && t.rep == s.rep && t.timeo == s.timeo
            && Outstanding(t.pc) == Outstanding(s.pc)
            && (t.pc == s.pc || (s.pc.Waiting? && t.pc == Finishing(s.pc.p, s.pc.seqId)))
  {
  }

  lemma AckKeepsCount(s: State, n: nat, id: nat, result: int)
    requires Counted(s)
    ensures Counted(Next(s, GetAck(n, id, result)))
  {
    hide Next;
    AckStep(s, n, id, result);
    CountsOfLast(s.events, Acked(n, id, result));
  }

  lemma WaitKeepsCount(s: State)
    requires Counted(s) && Enabled(s, Wait)
    ensures Counted(Next(s, Wait))
  {
  }

  lemma TimeOutKeepsCount(s: State)
    requires Counted(s) && Enabled(s, TimeOut)
    ensures Counted(Next(s, TimeOut))
  {
  }

  lemma FinishKeepsCount(s: State)
    requires Counted(s) && Enabled(s, Finish)
    ensures Counted(Next(s, Finish))
  {
  }

  lemma CountStays(s: State, step: Step, last: int)
    requires Inv(s, last) && Counted(s) && Enabled(s, step)
    ensures Counted(Next(s, step))
  {
    hide Next, Counted;
    match step
    case Pull(p, n) => PullKeepsCount(s, p, n);
    case Send(ok) => SendKeepsCount(s, ok, last);
    case Wait => WaitKeepsCount(s);
    case GetAck(n, id, result) => AckKeepsCount(s, n, id, result);
    case TimeOut => TimeOutKeepsCount(s);
    case Finish => FinishKeepsCount(s);
  }

  lemma {:induction false} EveryStateIsGood(states: seq<State>, steps: seq<Step>, n: nat) returns (last: int)
    requires Run(states, steps) && n < |states|
    ensures Inv(states[n], last) && Counted(states[n])
  {
    if n == 0 {
      last := -1;
    } else {
      last := EveryStateIsGood(states, steps, n - 1);
      hide Next, Inv, Counted;
      InvStays(states[n - 1], steps[n - 1], last);
      CountStays(states[n - 1], steps[n - 1], last);
      last := LastAfter(states[n - 1], steps[n - 1], last);
    }
  }

  // ----- reading the steps

  /** The last pull among the steps. */
  function LastPull(steps: seq<Step>): Option<Step> {
    if steps == [] then None
    else if steps[|steps| - 1].Pull? then Some(steps[|steps| - 1])
    else LastPull(steps[..|steps| - 1])
  }

  /** The history that the steps leave: an attempt is of the last pull. */
  function EventsOf(steps: seq<Step>): seq<Event> {
    if steps == [] then []
    else
      var front := steps[..|steps| - 1];
      match steps[|steps| - 1]
      case Pull(p, n) => EventsOf(front) + [Pulled(p, n)]
      case Send(_) =>
        (match LastPull(front)
         case Some(Pull(p, n)) => EventsOf(front) + [Attempted(p, n)]
         case _ => EventsOf(front))
      case GetAck(n, id, result) => EventsOf(front) + [Acked(n, id, result)]
      case _ => EventsOf(front)
  }

  function Count(steps: seq<Step>, f: Step -> bool): nat {
    if steps == [] then 0 else Count(steps[..|steps| - 1], f) + if f(steps[|steps| - 1]) then 1 else 0
  }

  predicate IsSend(step: Step) { step.Send? }

  predicate IsFailedSend(step: Step) { step == Send(false) }

  predicate IsTimeOut(step: Step) { step.TimeOut? }

  predicate IsFinish(step: Step) { step.Finish? }

  predicate IsAck(step: Step) { step.GetAck? }

  /** The state and its history follow from the steps. */
  ghost predicate Follows(s: State, steps: seq<Step>) {
    && s.events == EventsOf(steps)
    && (!s.pc.Head? ==> LastPull(steps) == Some(Pull(s.pc.p, s.pc.seqId)))
  }

  lemma NextFollows(s: State, steps: seq<Step>, step: Step)
    requires Follows(s, steps) && Enabled(s, step)
    ensures Follows(Next(s, step), steps + [step])
  {
    assert (steps + [step])[..|steps|] == steps;
  }

  lemma {:induction false} EveryStateFollows(states: seq<State>, steps: seq<Step>, n: nat)
    requires Run(states, steps) && n < |states|
    ensures Follows(states[n], steps[..n])
  {
    hide Next, Enabled;
    if n > 0 {
      EveryStateFollows(states, steps, n - 1);
      NextFollows(states[n - 1], steps[..n - 1], steps[n - 1]);
      assert steps[..n] == steps[..n - 1] + [steps[n - 1]];
    }
  }

  lemma CountOfLast(steps: seq<Step>, step: Step, f: Step -> bool)
    ensures Count(steps + [step], f) == Count(steps, f) + if f(step) then 1 else 0
  {
    assert (steps + [step])[..|steps|] == steps;
  }

  // ----- the main results

  /**
   In every run the history is the one that the steps leave, and the counters count the steps:
   acknowledgements, failed sends, timeouts and packets done with.
   */
  lemma {:induction false} CountersCountSteps(states: seq<State>, steps: seq<Step>, n: nat)
    requires Run(states, steps) && n < |states|
    ensures states[n].events == EventsOf(steps[..n])
    ensures states[n].ack == states[0].ack + Count(steps[..n], IsAck)
    ensures states[n].err == states[0].err + Count(steps[..n], IsFailedSend)
    ensures states[n].timeo == Count(steps[..n], IsTimeOut)
    ensures states[n].rep == Count(steps[..n], IsFinish)
  {
    hide Next, Enabled, Follows;
    assert states[n].events == EventsOf(steps[..n]) by { EveryStateFollows(states, steps, n); FollowsMeans(states[n], steps[..n]); }
    if n > 0 {
      CountersCountSteps(states, steps, n - 1);
      CountersOfStep(states[n - 1], steps[n - 1]);
      assert steps[..n][..n - 1] == steps[..n - 1];
    }
  }

  lemma FollowsMeans(s: State, steps: seq<Step>)
    requires Follows(s, steps)
    ensures s.events == EventsOf(steps)
  {
  }

  lemma CountersOfStep(s: State, step: Step)
    requires Enabled(s, step)
    ensures var t := Next(s, step);
            && t.ack == s.ack + (if IsAck(step) then 1 else 0) && t.err == s.err + (if IsFailedSend(step) then 1 else 0)
            && t.timeo == s.timeo + (if IsTimeOut(step) then 1 else 0) && t.rep == s.rep + (if IsFinish(step) then 1 else 0)
  {
  }

  /** It will not be sent again under this number. */
  ghost predicate SentForGood(s: State, seqId: nat) {
    && (exists k :: 0 <= k < |s.events| && s.events[k].Pulled? && s.events[k].seqId == seqId)
    && (s.pc.Head? || s.pc.Finishing? || s.pc.seqId != seqId)
  }

  lemma NextKeepsForGood(s: State, step: Step, seqId: nat)
    requires SentForGood(s, seqId) && Enabled(s, step)
    ensures SentForGood(Next(s, step), seqId)
    ensures forall j :: |s.events| <= j < |Next(s, step).events| && Next(s, step).events[j].Attempted? ==>
              Next(s, step).events[j].seqId != seqId
  {
    var k :| 0 <= k < |s.events| && s.events[k].Pulled? && s.events[k].seqId == seqId;
    assert Next(s, step).events[k] == s.events[k];
  }

  lemma {:induction false} ForGood(states: seq<State>, steps: seq<Step>, k: nat, m: nat, seqId: nat)
    requires Run(states, steps) && k <= m < |states| && SentForGood(states[k], seqId)
    ensures SentForGood(states[m], seqId) && states[k].events <= states[m].events
    ensures forall j :: |states[k].events| <= j < |states[m].events| && states[m].events[j].Attempted? ==>
              states[m].events[j].seqId != seqId
  {
    hide Next, Enabled, SentForGood;
    if k < m {
      ForGood(states, steps, k, m - 1, seqId);
      NextKeepsForGood(states[m - 1], steps[m - 1], seqId);
      EventsGrow(states[m - 1], steps[m - 1]);
    }
  }

  /**
   In every run: an acknowledgement that arrives while the thread waits for a report or a delivery ends
   the wait exactly when it has the sequence number, the message id and result 0. Any other changes nothing
   of the wait.
   */
  lemma OnlyItsAckEndsAWait(states: seq<State>, steps: seq<Step>, k: nat)
    requires Run(states, steps) && k < |steps| && steps[k].GetAck?
    requires states[k].pc.Waiting? && !states[k].pc.p.Unknown?
    ensures var Waiting(p, n) := states[k].pc;
            && LastPull(steps[..k]) == Some(Pull(p, n))
            && states[k + 1].pc == if steps[k] == GetAck(n, p.id, 0) then Finishing(p, n) else Waiting(p, n)
  {
    var _ := EveryStateIsGood(states, steps, k);
    EveryStateFollows(states, steps, k);
  }

  /** At any other moment an acknowledgement does nothing to the thread. */
  lemma EarlyAcksDoNothing(states: seq<State>, steps: seq<Step>, k: nat)
    requires Run(states, steps) && k < |steps| && steps[k].GetAck? && !states[k].pc.Waiting?
    ensures states[k + 1].pc == states[k].pc && states[k + 1].confirmed == states[k].confirmed
  {
  }

  /** ... and when it ends the wait it ends the sending: that packet is never attempted again. */
  lemma TheAckEndsTheSending(states: seq<State>, steps: seq<Step>, k: nat, m: nat)
    requires Run(states, steps) && k < m < |states| && states[k].pc.Waiting? && !states[k].pc.p.Unknown?
    requires steps[k] == GetAck(states[k].pc.seqId, states[k].pc.p.id, 0)
    ensures states[k].events <= states[m].events
    ensures forall j :: |states[k].events| <= j < |states[m].events| ==>
              states[m].events[j] != Attempted(states[k].pc.p, states[k].pc.seqId)
  {
    var last := EveryStateIsGood(states, steps, k);
    OnlyItsAckEndsAWait(states, steps, k);
    assert states[k + 1].events == states[k].events + [Acked(states[k].pc.seqId, states[k].pc.p.id, 0)];
    assert states[k + 1].events[last] == states[k].events[last];
    assert SentForGood(states[k + 1], states[k].pc.seqId);
    hide Next, Enabled, Inv, Counted, SentForGood;
    ForGood(states, steps, k + 1, m, states[k].pc.seqId);
    assert states[m].events[|states[k].events|].Acked?;
  }

  lemma {:induction false} StaysFinished(states: seq<State>, steps: seq<Step>, k: nat, m: nat)
    requires Run(states, steps) && k <= m < |states| && (states[k].pc.Finishing? || states[k].pc.Head?)
    requires forall j :: k <= j < m ==> !steps[j].Pull?
    ensures states[m].pc.Finishing? || states[m].pc.Head?
  {
    if k < m {
      StaysFinished(states, steps, k, m - 1);
    }
  }

  /** Until the next pull the thread neither sends nor times out: it only finishes. */
  lemma AfterTheAckItFinishes(states: seq<State>, steps: seq<Step>, k: nat, m: nat)
    requires Run(states, steps) && k < m < |steps| && states[k].pc.Waiting? && !states[k].pc.p.Unknown?
    requires steps[k] == GetAck(states[k].pc.seqId, states[k].pc.p.id, 0)
    requires forall j :: k < j <= m ==> !steps[j].Pull?
    ensures steps[m].GetAck? || steps[m].Finish?
  {
    OnlyItsAckEndsAWait(states, steps, k);
    StaysFinished(states, steps, k + 1, m);
  }

  /** How far the sends of a known packet are ahead of its timeouts. */
  ghost predicate SendsAhead(pc: Pc, steps: seq<Step>) {
    && Count(steps, IsSend) == Count(steps, IsTimeOut) + (if pc.Ready? then 0 else 1)
    && (!pc.Head? ==> !pc.p.Unknown?)
  }

  lemma NextKeepsAhead(s: State, steps: seq<Step>, step: Step)
    requires SendsAhead(s.pc, steps) && Enabled(s, step) && !step.Pull?
    ensures SendsAhead(Next(s, step).pc, steps + [step])
  {
    CountOfLast(steps, step, IsSend);
    CountOfLast(steps, step, IsTimeOut);
  }

  lemma PullIsAhead(s: State, step: Step)
    requires Enabled(s, step) && step.Pull? && !step.p.Unknown?
    ensures SendsAhead(Next(s, step).pc, [step])
  {
  }

  lemma {:induction false} SendsFollowTimeouts(states: seq<State>, steps: seq<Step>, j: nat, m: nat)
    requires Run(states, steps) && j < m < |states| && steps[j].Pull? && !steps[j].p.Unknown?
    requires forall i :: j < i < m ==> !steps[i].Pull?
    ensures SendsAhead(states[m].pc, steps[j..m])
  {
    hide Next, Enabled, SendsAhead;
    if j + 1 < m {
      SendsFollowTimeouts(states, steps, j, m - 1);
      NextKeepsAhead(states[m - 1], steps[j..m - 1], steps[m - 1]);
      assert steps[j..m] == steps[j..m - 1] + [steps[m - 1]];
    } else {
      PullIsAhead(states[j], steps[j]);
      assert steps[j..m] == [steps[j]];
    }
  }

  /**
   In every run: from the pull of a report or a delivery to the loop head before the next pull it is sent
   once, and once more for each timeout.
   */
  lemma OneAttemptAndOneForEachTimeout(states: seq<State>, steps: seq<Step>, j: nat, m: nat)
    requires Run(states, steps) && j < m < |states| && steps[j].Pull? && !steps[j].p.Unknown?
    requires states[m].pc.Head? && forall i :: j < i < m ==> !steps[i].Pull?
    ensures Count(steps[j..m], IsSend) == 1 + Count(steps[j..m], IsTimeOut)
  {
    SendsFollowTimeouts(states, steps, j, m);
  }

  /** A run in which a report is sent once, acknowledged, and done with. */
  lemma OneAttemptSuffices() returns (states: seq<State>, steps: seq<Step>)
    ensures Run(states, steps) && |steps| == 5 && states[5].pc.Head? && states[5].rep == 1 && states[5].timeo == 0
    ensures states[5].events == [Pulled(Report(9, 1), 4), Attempted(Report(9, 1), 4), Acked(4, 9, 0)]
  {
    var p := Report(9, 1);
    var s0 := State(Head, Confirmed(0, 0), 0, 0, 0, 0, [], 0);
    var s1 := s0.(pc := Ready(p, 4), confirmed := Confirmed(4, 9), events := [Pulled(p, 4)]);
    var s2 := s1.(pc := Unguarded(p, 4), events := [Pulled(p, 4), Attempted(p, 4)]);
    var s3 := s2.(pc := Waiting(p, 4));
    var s4 := s3.(pc := Finishing(p, 4), ack := 1, events := [Pulled(p, 4), Attempted(p, 4), Acked(4, 9, 0)]);
    var s5 := s4.(pc := Head, rep := 1);
    states, steps := [s0, s1, s2, s3, s4, s5], [Pull(p, 4), Send(true), Wait, GetAck(4, 9, 0), Finish];
    assert Next(s0, Pull(p, 4)) == s1 && Next(s1, Send(true)) == s2 && Next(s2, Wait) == s3;
    assert Next(s3, GetAck(4, 9, 0)) == s4 && Next(s4, Finish) == s5;
  }

  /** When the thread is ready to pull, every packet pulled has been sent and then acknowledged. */
  lemma LoopHeadMeansSettled(states: seq<State>, steps: seq<Step>, n: nat, j: nat)
    requires Run(states, steps) && n < |states| && states[n].pc.Head? && j < |states[n].events|
    requires states[n].events[j].Pulled? && !states[n].events[j].p.Unknown?
    ensures exists a, i :: Settles(states[n].events, j, a, i)
  {
    var last := EveryStateIsGood(states, steps, n);
    assert Settled(states[n].events, j);
  }

  /**
   Stop and wait: before any later packet is pulled, a packet has been sent and then acknowledged
   with its own sequence number, its own message id and result 0.
   */
  lemma {:induction false} NextPullFollowsTheAck(states: seq<State>, steps: seq<Step>, n: nat, j: nat, k: nat)
    requires Run(states, steps) && n < |states| && j < k < |states[n].events|
    requires states[n].events[j].Pulled? && states[n].events[k].Pulled? && !states[n].events[j].p.Unknown?
    ensures exists a: nat, i: nat :: Settles(states[n].events, j, a, i) && i < k
  {
    assert n > 0;
    var s, t := states[n - 1], states[n];
    EventsGrow(s, steps[n - 1]);
    if k < |s.events| {
      NextPullFollowsTheAck(states, steps, n - 1, j, k);
    } else {
      LoopHeadMeansSettled(states, steps, n - 1, j);
    }
    var a: nat, i: nat :| Settles(s.events, j, a, i) && i < k;
    assert Settles(t.events, j, a, i);
  }

  lemma EventsGrow(s: State, step: Step)
    requires Enabled(s, step)
    ensures s.events <= Next(s, step).events
    ensures forall k :: |s.events| <= k < |Next(s, step).events| && Next(s, step).events[k].Pulled? ==> s.pc.Head? && k == |s.events|
  {
  }

  /** Packets go out in the order of the pulls, every time under the sequence number of their pull, which no other pull has. */
  lemma AttemptsFollowPulls(states: seq<State>, steps: seq<Step>, n: nat)
    requires Run(states, steps) && n < |states|
    ensures var events := states[n].events;
            && (forall a :: 0 <= a < |events| && events[a].Attempted? ==>
                  Current(events[..a]) == Some(Pulled(events[a].p, events[a].seqId)))
            && (forall j, k :: 0 <= j < k < |events| && events[j].Pulled? && events[k].Pulled? ==>
                  events[j].seqId != events[k].seqId)
  {
    var _ := EveryStateIsGood(states, steps, n);
  }

  /**
   At the loop head the attempts equal `rep` plus `timeo` exactly when every packet pulled was a
   report or a delivery: an unknown command waits and is counted, once or twice, without being sent.
   */
  lemma AttemptsAreRepliesAndTimeouts(states: seq<State>, steps: seq<Step>, n: nat)
    requires Run(states, steps) && n < |states| && states[n].pc.Head?
    ensures var s := states[n];
            && Attempts(s.events) + Unknowns(s.events) <= s.rep + s.timeo <= Attempts(s.events) + 2 * Unknowns(s.events)
            && (Attempts(s.events) == s.rep + s.timeo <==> Unknowns(s.events) == 0)
  {
    var _ := EveryStateIsGood(states, steps, n);
  }

  /** A run that pulls an unknown command: two counts, no attempt. */
  lemma AnUnknownCommandIsCounted() returns (states: seq<State>, steps: seq<Step>)
    ensures Run(states, steps) && |states| == 5 && states[4].pc.Head?
    ensures Unknowns(states[4].events) == 1 && Attempts(states[4].events) == 0 && states[4].rep + states[4].timeo == 2
  {
    var s0 := State(Head, Confirmed(0, 0), 0, 0, 0, 0, [], 0);
    var s1 := s0.(pc := Unguarded(Unknown, 1), events := [Pulled(Unknown, 1)]);
    var s2 := s1.(pc := Waiting(Unknown, 1));
    var s3 := s2.(pc := Finishing(Unknown, 1), timeo := 1, hollow := 1);
    var s4 := s3.(pc := Head, rep := 1, hollow := 2);
    states, steps := [s0, s1, s2, s3, s4], [Pull(Unknown, 1), Wait, TimeOut, Finish];
    assert Next(s0, Pull(Unknown, 1)) == s1 && Next(s1, Wait) == s2 && Next(s2, TimeOut) == s3 && Next(s3, Finish) == s4;
  }
}
