/**
 src/sp.c: how the sender thread, the receiver thread and the work thread match a submitted message,
 the gateway's acknowledgement of it and the later status report, through the shared `confirmed`
 record and the submit cache (module Shards; here its flat map). Writing `confirmed` and sending is
 one step, and so is handling an acknowledgement.

 Sequence numbers and the gateway's own ids are fresh when they are handed out. Internal message ids are
 not: a message may be submitted again, or dropped after it was submitted.
 `numbers` and `acked` are what the two sides have handed out; `forwarded` is a history. What a run did
 with a message is read off its steps.
 */
module Correlation {
  import opened Wrappers
  import opened Shards

  datatype Message = Message(id: nat, account: int, company: int, spcode: string)

  datatype Confirmed = Confirmed(entry: Entry, seqId: nat)

  datatype Ticket = Ticket(gatewayId: nat, status: int)

  datatype Forwarded = Forwarded(gatewayId: nat, entry: Entry, status: int)

  datatype State = State(
    confirmed: Confirmed, waiting: bool, store: map<nat, Entry>, storage: seq<Ticket>,
    numbers: set<nat>, acked: map<nat, nat>, forwarded: seq<Forwarded>)

  datatype Step =
    | Submit(m: Message, seqId: nat, sent: bool)
    | Drop(m: Message)                               // the text could not be converted
    | TimeOut
    | Accept(seqId: nat, gatewayId: nat)             // at the gateway
    | GetAck(seqId: nat, gatewayId: nat, result: int, wakes: bool)
    | GetReport(t: Ticket)
    | Work

  const SPCODE_SIZE := 20

  /** The identity of a message as it is written into `confirmed`: the service code fills its field at most. */
  function EntryOf(m: Message): Entry {
    Entry(m.id, m.account, m.company, if |m.spcode| <= SPCODE_SIZE then m.spcode else m.spcode[..SPCODE_SIZE])
  }

  ghost predicate Initial(s: State) {
    !s.waiting && s.store == map[] && s.storage == [] && s.numbers == {} && s.acked == map[] && s.forwarded == []
  }

  ghost predicate Enabled(s: State, step: Step) {
    match step
    case Submit(_, n, _) => !s.waiting && n !in s.numbers
    case Drop(_) => !s.waiting
    case TimeOut => s.waiting
    case Accept(n, g) => n in s.numbers && g !in s.acked
    case GetAck(n, g, result, _) => result == 0 ==> g in s.acked && s.acked[g] == n
    case GetReport(_) => true
    case Work => s.storage != []
  }

  predicate Known(e: Entry) {
    e.id > 0 && e.account > 0 && e.company > 0
  }

  function Next(s: State, step: Step): State
    requires Enabled(s, step)
  {
    match step
    case Submit(m, n, sent) => s.(confirmed := Confirmed(EntryOf(m), n), waiting := sent, numbers := s.numbers + {n})
    case Drop(m) => s.(confirmed := s.confirmed.(entry := EntryOf(m)))
    case TimeOut => s.(waiting := false)
    case Accept(n, g) => s.(acked := s.acked[g := n])
    case GetAck(n, g, result, wakes) =>
      if s.confirmed.seqId != n || result != 0 then s
      else s.(store := s.store[g := s.confirmed.entry], waiting := s.waiting && !wakes)
    case GetReport(t) => s.(storage := s.storage + [t])
    case Work =>
      var t, r := s.storage[0], s.(storage := s.storage[1..]);
      if t.gatewayId in s.store && Known(s.store[t.gatewayId]) then
        var e := s.store[t.gatewayId];
        r.(store := s.store - {e.id}, forwarded := s.forwarded + [Forwarded(t.gatewayId, e, t.status)])
      else r
  }

  ghost predicate Run(states: seq<State>, steps: seq<Step>) {
    && |states| == |steps| + 1
    && Initial(states[0])
    && forall i :: 0 <= i < |steps| ==> Enabled(states[i], steps[i]) && states[i + 1] == Next(states[i], steps[i])
  }

  // ----- what the steps say

  /** The message that was submitted under sequence number `n`. */
  function SubmittedUnder(steps: seq<Step>, n: nat): Option<Message> {
    if steps == [] then None
    else
      var last := steps[|steps| - 1];
      if last.Submit? && last.seqId == n then Some(last.m) else SubmittedUnder(steps[..|steps| - 1], n)
  }

  /** The sequence number of the submit that the gateway gave id `g`. */
  function AcceptedAs(steps: seq<Step>, g: nat): Option<nat> {
    if steps == [] then None
    else
      var last := steps[|steps| - 1];
      if last.Accept? && last.gatewayId == g then Some(last.seqId) else AcceptedAs(steps[..|steps| - 1], g)
  }

  /** The sequence number of the last submit. */
  function LastNumber(steps: seq<Step>): Option<nat> {
    if steps == [] then None
    else if steps[|steps| - 1].Submit? then Some(steps[|steps| - 1].seqId)
    else LastNumber(steps[..|steps| - 1])
  }

  /** The message submitted or dropped last. */
  function LastNamed(steps: seq<Step>): Option<Message> {
    if steps == [] then None
    else if steps[|steps| - 1].Submit? || steps[|steps| - 1].Drop? then Some(steps[|steps| - 1].m)
    else LastNamed(steps[..|steps| - 1])
  }

  /** The reports received, and how many of them were taken up. */
  function Tickets(steps: seq<Step>): seq<Ticket> {
    if steps == [] then []
    else Tickets(steps[..|steps| - 1]) + if steps[|steps| - 1].GetReport? then [steps[|steps| - 1].t] else []
  }

  function Works(steps: seq<Step>): nat {
    if steps == [] then 0 else Works(steps[..|steps| - 1]) + if steps[|steps| - 1].Work? then 1 else 0
  }

  lemma StepsOfLast(steps: seq<Step>, step: Step)
    ensures var t := steps + [step];
            && (forall n :: SubmittedUnder(t, n) == if step.Submit? && step.seqId == n then Some(step.m) else SubmittedUnder(steps, n))
            && (forall g :: AcceptedAs(t, g) == if step.Accept? && step.gatewayId == g then Some(step.seqId) else AcceptedAs(steps, g))
            && LastNumber(t) == (if step.Submit? then Some(step.seqId) else LastNumber(steps))
            && LastNamed(t) == (if step.Submit? || step.Drop? then Some(step.m) else LastNamed(steps))
  {
    assert (steps + [step])[..|steps|] == steps;
  }

  /** The entry holds the id, the account and the company of the message, and the first 20 characters of its service code. */
  predicate Describes(e: Entry, m: Message) {
    && e.id == m.id && e.account == m.account && e.company == m.company
    && e.spcode <= m.spcode && |e.spcode| == if |m.spcode| < 20 then |m.spcode| else 20
  }

  /** No entry tells the two messages apart. */
  predicate Alike(a: Message, b: Message) {
    && a.id == b.id && a.account == b.account && a.company == b.company
    && (a.spcode == b.spcode || (|a.spcode| >= 20 && |b.spcode| >= 20 && a.spcode[..20] == b.spcode[..20]))
  }

  lemma AlikeMeansSameEntry(e: Entry, a: Message, b: Message)
    requires Describes(e, a)
    ensures Describes(e, b) <==> Alike(a, b)
  {
    assert e.spcode == a.spcode[..|e.spcode|];
    assert Describes(e, b) ==> e.spcode == b.spcode[..|e.spcode|];
  }

  /** The entry names the message whose submit the gateway acknowledged with id `g`. */
  predicate IsRight(steps: seq<Step>, g: nat, e: Entry) {
    && AcceptedAs(steps, g).Some?
    && SubmittedUnder(steps, AcceptedAs(steps, g).value).Some?
    && Describes(e, SubmittedUnder(steps, AcceptedAs(steps, g).value).value)
  }

  /** Since the last submit a message was dropped, and the one dropped last is not like the one submitted. */
  predicate Mixed(steps: seq<Step>) {
    && LastNumber(steps).Some? && LastNamed(steps).Some?
    && SubmittedUnder(steps, LastNumber(steps).value).Some?
    && !Alike(SubmittedUnder(steps, LastNumber(steps).value).value, LastNamed(steps).value)
  }

  /** Step `j` is an acknowledgement of the last submit under gateway id `g`, and is cached. */
  predicate Caches(steps: seq<Step>, j: nat, g: nat)
    requires j < |steps|
  {
    && steps[j].GetAck? && steps[j].gatewayId == g && steps[j].result == 0
    && LastNumber(steps[..j]) == Some(steps[j].seqId)
  }

  /** The last acknowledgement of `g` that was cached came when the messages were mixed. */
  predicate Tainted(steps: seq<Step>, n: nat, g: nat)
    requires n <= |steps|
  {
    n > 0 && if Caches(steps, n - 1, g) then Mixed(steps[..n - 1]) else Tainted(steps, n - 1, g)
  }

  predicate Taints(steps: seq<Step>, j: nat, g: nat)
    requires j < |steps|
  {
    Caches(steps, j, g) && Mixed(steps[..j])
  }

  /** Some acknowledgement of `g` was. */
  ghost predicate EverTainted(steps: seq<Step>, n: nat, g: nat)
    requires n <= |steps|
  {
    exists j :: 0 <= j < n && Taints(steps, j, g)
  }

  lemma {:induction false} TaintedMeansEver(steps: seq<Step>, n: nat, g: nat)
    requires n <= |steps| && Tainted(steps, n, g)
    ensures EverTainted(steps, n, g)
  {
    if Caches(steps, n - 1, g) {
      assert Taints(steps, n - 1, g);
    } else {
      TaintedMeansEver(steps, n - 1, g);
    }
  }

  // ----- true of every state, with or without drops

  ghost predicate Inv(s: State, steps: seq<Step>) {
    && (forall n :: n in s.numbers <==> SubmittedUnder(steps, n).Some?)
    && (forall g :: g in s.acked <==> AcceptedAs(steps, g).Some?)
    && (forall g :: g in s.acked ==> AcceptedAs(steps, g) == Some(s.acked[g]) && s.acked[g] in s.numbers)
    && (LastNumber(steps).Some? ==> LastNumber(steps) == Some(s.confirmed.seqId) && s.confirmed.seqId in s.numbers)
    && (LastNumber(steps).Some? ==> LastNamed(steps).Some?)
    && (LastNamed(steps).Some? ==> Describes(s.confirmed.entry, LastNamed(steps).value))
    && (LastNumber(steps).None? ==> s.numbers == {})
    && (forall g :: g in s.store ==> g in s.acked)
  }

  lemma EntryOfDescribes(m: Message)
    ensures Describes(EntryOf(m), m)
  {
  }

  lemma InvStays(s: State, step: Step, steps: seq<Step>)
    requires Inv(s, steps) && Enabled(s, step)
    ensures Inv(Next(s, step), steps + [step])
  {
    hide SubmittedUnder, AcceptedAs, LastNumber, LastNamed, Describes;
    StepsOfLast(steps, step);
    if step.Submit? || step.Drop? {
      EntryOfDescribes(step.m);
    }
  }

  lemma {:induction false} EveryStateIsGood(states: seq<State>, steps: seq<Step>, n: nat)
    requires Run(states, steps) && n < |states|
    ensures Inv(states[n], steps[..n])
  {
    hide Next, Enabled;
    if n > 0 {
      EveryStateIsGood(states, steps, n - 1);
      InvStays(states[n - 1], steps[n - 1], steps[..n - 1]);
      assert steps[..n] == steps[..n - 1] + [steps[n - 1]];
    }
  }

  // ----- entries

  /** The entry of `g` is right exactly when it is not tainted. */
  ghost predicate EntryInv(s: State, steps: seq<Step>, g: nat, tainted: bool) {
    g in s.store ==> (IsRight(steps, g, s.store[g]) <==> !tainted)
  }

  /** No step takes back an acknowledgement or a submit. */
  lemma RightStays(s: State, step: Step, steps: seq<Step>, g: nat, e: Entry)
    requires Inv(s, steps) && Enabled(s, step) && g in s.acked
    ensures IsRight(steps + [step], g, e) <==> IsRight(steps, g, e)
  {
    hide SubmittedUnder, AcceptedAs, LastNumber, LastNamed, Describes;
    StepsOfLast(steps, step);
  }

  /** The acknowledgement of the last submit caches what was named last. */
  lemma AckIsRightUnlessMixed(s: State, steps: seq<Step>, g: nat)
    requires Inv(s, steps) && g in s.acked && s.acked[g] == s.confirmed.seqId
    ensures LastNumber(steps) == Some(s.acked[g])
    ensures IsRight(steps, g, s.confirmed.entry) <==> !Mixed(steps)
  {
    hide SubmittedUnder, AcceptedAs, LastNumber, LastNamed, Describes, Alike;
    AlikeMeansSameEntry(s.confirmed.entry, LastNamed(steps).value, SubmittedUnder(steps, s.acked[g]).value);
    AlikeIsSymmetric(LastNamed(steps).value, SubmittedUnder(steps, s.acked[g]).value);
  }

  lemma AlikeIsSymmetric(a: Message, b: Message)
    ensures Alike(a, b) == Alike(b, a)
  {
  }

  lemma StoreStep(s: State, step: Step, g: nat)
    requires Enabled(s, step) && g in Next(s, step).store
    ensures if step.GetAck? && step.gatewayId == g && step.result == 0 && s.confirmed.seqId == step.seqId
            then Next(s, step).store[g] == s.confirmed.entry && g in s.acked && s.acked[g] == step.seqId
            else g in s.store && Next(s, step).store[g] == s.store[g]
  {
  }

  lemma NextKeepsEntry(s: State, step: Step, steps: seq<Step>, g: nat, tainted: bool)
    requires Inv(s, steps) && EntryInv(s, steps, g, tainted) && Enabled(s, step)
    ensures var t := steps + [step];
            EntryInv(Next(s, step), t, g, if Caches(t, |steps|, g) then Mixed(steps) else tainted)
  {
    var t := steps + [step];
    assert t[..|steps|] == steps;
    if g in Next(s, step).store {
      StoreStep(s, step, g);
      assert g in s.acked;
      hide Next, IsRight, Mixed, SubmittedUnder, AcceptedAs, LastNamed, Describes;
      RightStays(s, step, steps, g, Next(s, step).store[g]);
      if step.GetAck? && step.gatewayId == g && step.result == 0 && s.confirmed.seqId == step.seqId {
        AckIsRightUnlessMixed(s, steps, g);
      } else if Caches(t, |steps|, g) {
        assert false;
      }
    }
  }

  lemma {:induction false} CachesOfPrefix(steps: seq<Step>, k: nat, n: nat, g: nat)
    requires n <= k <= |steps|
    ensures Tainted(steps[..k], n, g) == Tainted(steps, n, g)
    ensures n < k ==> Caches(steps[..k], n, g) == Caches(steps, n, g)
  {
    assert steps[..k][..n] == steps[..n];
    if n > 0 {
      CachesOfPrefix(steps, k, n - 1, g);
      assert steps[..k][..n - 1] == steps[..n - 1];
    }
  }

  lemma {:induction false} AlwaysEntry(states: seq<State>, steps: seq<Step>, n: nat, g: nat)
    requires Run(states, steps) && n < |states|
    ensures EntryInv(states[n], steps[..n], g, Tainted(steps, n, g))
  {
    hide Next, Enabled, Inv, Caches, IsRight, Mixed;
    if n > 0 {
      AlwaysEntry(states, steps, n - 1, g);
      EveryStateIsGood(states, steps, n - 1);
      NextKeepsEntry(states[n - 1], steps[n - 1], steps[..n - 1], g, Tainted(steps, n - 1, g));
      assert steps[..n] == steps[..n - 1] + [steps[n - 1]];
      CachesOfPrefix(steps, n, n - 1, g);
    }
  }

  // ----- the main results

  /**
   In every run, drops, timeouts, repeated submits and repeated acknowledgements included: an entry names
   the message whose submit got the gateway id, by its id, account, company and service code, exactly when
   the acknowledgement it was last cached by did not come after a drop of another message. A drop harms no
   other entry.
   */
  lemma EntryIsRightUnlessTainted(states: seq<State>, steps: seq<Step>, n: nat, g: nat)
    requires Run(states, steps) && n < |states| && g in states[n].store
    ensures IsRight(steps[..n], g, states[n].store[g]) <==> !Tainted(steps, n, g)
  {
    hide Run, IsRight, Tainted;
    assert n <= |steps| by { assert |states| == |steps| + 1 by { RunLength(states, steps); } }
    AlwaysEntry(states, steps, n, g);
  }

  lemma RunLength(states: seq<State>, steps: seq<Step>)
    requires Run(states, steps)
    ensures |states| == |steps| + 1
  {
  }

  lemma WorkStep(s: State, step: Step)
    requires Enabled(s, step)
    ensures var t := Next(s, step);
            if step.Work? && s.storage[0].gatewayId in s.store &&
               var e := s.store[s.storage[0].gatewayId]; e.id > 0 && e.account > 0 && e.company > 0
            then t.forwarded == s.forwarded + [Forwarded(s.storage[0].gatewayId, s.store[s.storage[0].gatewayId], s.storage[0].status)]
            else t.forwarded == s.forwarded
  {
  }

  /** ... and so is the report that is forwarded from it. */
  lemma ReportIsRightUnlessTainted(states: seq<State>, steps: seq<Step>, n: nat)
    requires Run(states, steps) && n < |steps| && states[n + 1].forwarded != states[n].forwarded
    ensures |states[n + 1].forwarded| == |states[n].forwarded| + 1
    ensures states[n].forwarded == states[n + 1].forwarded[..|states[n].forwarded|]
    ensures var f := states[n + 1].forwarded[|states[n].forwarded|];
            IsRight(steps[..n], f.gatewayId, f.entry) <==> !Tainted(steps, n, f.gatewayId)
  {
    hide Next, Enabled, IsRight, Tainted;
    WorkStep(states[n], steps[n]);
    var f := states[n + 1].forwarded[|states[n].forwarded|];
    EntryIsRightUnlessTainted(states, steps, n, f.gatewayId);
  }

  /** The report names its message, unless an acknowledgement of its own gateway id was tainted. */
  ghost predicate ReportIsSound(f: Forwarded, steps: seq<Step>, n: nat)
    requires n <= |steps|
  {
    IsRight(steps[..n], f.gatewayId, f.entry) || EverTainted(steps, n, f.gatewayId)
  }

  ghost predicate ReportsAreSound(forwarded: seq<Forwarded>, steps: seq<Step>, n: nat)
    requires n <= |steps|
  {
    forall k :: 0 <= k < |forwarded| ==> ReportIsSound(forwarded[k], steps, n)
  }

  lemma SoundStays(states: seq<State>, steps: seq<Step>, n: nat, f: Forwarded)
    requires Run(states, steps) && n < |steps| && ReportIsSound(f, steps, n) && f.gatewayId in states[n].acked
    ensures ReportIsSound(f, steps, n + 1)
  {
    hide Next, Enabled, IsRight, Taints;
    EveryStateIsGood(states, steps, n);
    RightStays(states[n], steps[n], steps[..n], f.gatewayId, f.entry);
    assert steps[..n + 1] == steps[..n] + [steps[n]];
  }

  lemma NewReportIsSound(states: seq<State>, steps: seq<Step>, n: nat, g: nat, status: int)
    requires Run(states, steps) && n < |states| && g in states[n].store
    ensures ReportIsSound(Forwarded(g, states[n].store[g], status), steps, n)
  {
    hide Run, IsRight, Tainted, EverTainted;
    RunLength(states, steps);
    EntryIsRightUnlessTainted(states, steps, n, g);
    if Tainted(steps, n, g) {
      TaintedMeansEver(steps, n, g);
    }
  }

  lemma {:induction false} ForwardedIsAcked(states: seq<State>, steps: seq<Step>, n: nat)
    requires Run(states, steps) && n < |states|
    ensures forall k :: 0 <= k < |states[n].forwarded| ==> states[n].forwarded[k].gatewayId in states[n].acked
  {
    hide Next, Enabled;
    if n > 0 {
      ForwardedIsAcked(states, steps, n - 1);
      EveryStateIsGood(states, steps, n - 1);
      WorkStep(states[n - 1], steps[n - 1]);
      AckedStays(states[n - 1], steps[n - 1]);
    }
  }

  lemma AckedStays(s: State, step: Step)
    requires Enabled(s, step)
    ensures forall g :: g in s.acked ==> g in Next(s, step).acked
  {
  }

  /**
   So in every run each report ever forwarded names its message, unless an acknowledgement of its own
   gateway id was cached after a drop of another message.
   */
  lemma {:induction false} ReportsNameTheirMessage(states: seq<State>, steps: seq<Step>, n: nat)
    requires Run(states, steps) && n < |states|
    ensures ReportsAreSound(states[n].forwarded, steps, n)
  {
    hide Next, Enabled, ReportIsSound;
    if n > 0 {
      ReportsNameTheirMessage(states, steps, n - 1);
      ForwardedIsAcked(states, steps, n - 1);
      EveryStateIsGood(states, steps, n - 1);
      WorkStep(states[n - 1], steps[n - 1]);
      forall k | 0 <= k < |states[n].forwarded| ensures ReportIsSound(states[n].forwarded[k], steps, n) {
        var f := states[n].forwarded[k];
        if k < |states[n - 1].forwarded| {
          assert f == states[n - 1].forwarded[k];
        } else {
          NewReportIsSound(states, steps, n - 1, f.gatewayId, f.status);
        }
        SoundStays(states, steps, n - 1, f);
      }
    }
  }

  /** Every entry and every report names its message. */
  ghost predicate AllRight(s: State, steps: seq<Step>) {
    && (forall g :: g in s.store ==> IsRight(steps, g, s.store[g]))
    && (forall k :: 0 <= k < |s.forwarded| ==> IsRight(steps, s.forwarded[k].gatewayId, s.forwarded[k].entry))
  }

  /**
   For whole runs: every entry and every report is right at every moment exactly when no acknowledgement
   is ever cached after a drop of another message.
   */
  lemma AllRightUnlessTainted(states: seq<State>, steps: seq<Step>, n: nat)
    requires Run(states, steps) && n < |states|
    ensures (forall m :: 0 <= m <= n ==> AllRight(states[m], steps[..m])) <==> forall g :: !EverTainted(steps, n, g)
  {
    RunLength(states, steps);
    hide Run, IsRight, Taints, AllRight;
    if forall g :: !EverTainted(steps, n, g) {
      forall m | 0 <= m <= n ensures AllRight(states[m], steps[..m]) {
        forall g ensures !EverTainted(steps, m, g) {
          assert !EverTainted(steps, n, g);
        }
        UntaintedIsRight(states, steps, m);
      }
    } else {
      var g :| EverTainted(steps, n, g);
      var j :| 0 <= j < n && Taints(steps, j, g);
      TaintedIsWrong(states, steps, j, g);
    }
  }

  lemma UntaintedIsRight(states: seq<State>, steps: seq<Step>, m: nat)
    requires Run(states, steps) && m < |states| && m <= |steps| && forall g :: !EverTainted(steps, m, g)
    ensures AllRight(states[m], steps[..m])
  {
    hide Run, IsRight, Tainted, EverTainted;
    forall g | g in states[m].store ensures IsRight(steps[..m], g, states[m].store[g]) {
      EntryIsRightUnlessTainted(states, steps, m, g);
      if Tainted(steps, m, g) {
        TaintedMeansEver(steps, m, g);
      }
    }
    ReportsNameTheirMessage(states, steps, m);
  }

  lemma TaintedIsWrong(states: seq<State>, steps: seq<Step>, j: nat, g: nat)
    requires Run(states, steps) && j < |steps| && Taints(steps, j, g)
    ensures !AllRight(states[j + 1], steps[..j + 1])
  {
    hide IsRight, Mixed;
    EveryStateIsGood(states, steps, j);
    assert g in states[j + 1].store;
    assert Tainted(steps, j + 1, g);
    EntryIsRightUnlessTainted(states, steps, j + 1, g);
  }

  ghost predicate NoDrops(steps: seq<Step>) {
    forall i :: 0 <= i < |steps| ==> !steps[i].Drop?
  }

  lemma {:induction false} NothingIsMixedWithoutDrops(steps: seq<Step>)
    requires NoDrops(steps)
    ensures !Mixed(steps)
    ensures LastNumber(steps).Some? && LastNamed(steps).Some? ==>
              SubmittedUnder(steps, LastNumber(steps).value) == LastNamed(steps)
  {
    if steps != [] {
      NothingIsMixedWithoutDrops(steps[..|steps| - 1]);
    }
  }

  /** When every text converts, every entry and every report names its message. */
  lemma WithoutDropsAllIsRight(states: seq<State>, steps: seq<Step>, n: nat)
    requires Run(states, steps) && NoDrops(steps) && n < |states|
    ensures AllRight(states[n], steps[..n])
  {
    RunLength(states, steps);
    hide Run, Mixed, AllRight;
    forall j | 0 <= j < n ensures !Mixed(steps[..j]) {
      NothingIsMixedWithoutDrops(steps[..j]);
    }
    UntaintedIsRight(states, steps, n);
  }

  /**
   In every run: an acknowledgement is cached exactly when it is of the last submit and has result 0, and
   then under the right message exactly when the last drop since that submit, if there was one, was of a
   message like it. Any other acknowledgement changes nothing.
   */
  lemma AckIsRightUnlessDropped(states: seq<State>, steps: seq<Step>, n: nat)
    requires Run(states, steps) && n < |steps| && steps[n].GetAck?
    ensures var g := steps[n].gatewayId;
            if Caches(steps, n, g)
            then && states[n + 1].store.Keys == states[n].store.Keys + {g}
                 && (forall k :: k in states[n].store && k != g ==> states[n + 1].store[k] == states[n].store[k])
                 && (IsRight(steps[..n], g, states[n + 1].store[g]) <==> !Mixed(steps[..n]))
            else states[n + 1] == states[n]
  {
    hide SubmittedUnder, AcceptedAs, LastNamed, Describes, Mixed, IsRight;
    EveryStateIsGood(states, steps, n);
    if Caches(steps, n, steps[n].gatewayId) {
      AckIsRightUnlessMixed(states[n], steps[..n], steps[n].gatewayId);
    }
  }

  /** The wait for an acknowledgement: a submit that went out is followed by a timeout or its acknowledgement before the next message is touched. */
  lemma NextMessageFollowsTheWait(states: seq<State>, steps: seq<Step>, i: nat, k: nat)
    requires Run(states, steps) && i < k < |steps| && steps[i].Submit? && steps[i].sent
    requires steps[k].Submit? || steps[k].Drop?
    requires forall j :: i < j < k ==> !steps[j].Submit? && !steps[j].Drop?
    ensures exists j :: i < j < k && EndsWait(steps[j], steps[i].seqId)
  {
    if forall j :: i < j < k ==> !EndsWait(steps[j], steps[i].seqId) {
      WaitsOn(states, steps, i, k);
    }
  }

  predicate EndsWait(step: Step, n: nat) {
    step.TimeOut? || (step.GetAck? && step.seqId == n && step.result == 0 && step.wakes)
  }

  lemma {:induction false} WaitsOn(states: seq<State>, steps: seq<Step>, i: nat, k: nat)
    requires Run(states, steps) && i < k < |states| && steps[i].Submit? && steps[i].sent
    requires forall j :: i < j < k ==> !steps[j].Submit? && !steps[j].Drop? && !EndsWait(steps[j], steps[i].seqId)
    ensures states[k].waiting && states[k].confirmed.seqId == steps[i].seqId
  {
    if i + 1 < k {
      WaitsOn(states, steps, i, k - 1);
    }
  }

  // ----- reports

  /** The reports wait in the order they came. */
  lemma {:induction false} ReportsWaitInOrder(states: seq<State>, steps: seq<Step>, n: nat)
    requires Run(states, steps) && n < |states|
    ensures Works(steps[..n]) <= |Tickets(steps[..n])|
    ensures states[n].storage == Tickets(steps[..n])[Works(steps[..n])..]
  {
    hide Next, Enabled;
    if n > 0 {
      ReportsWaitInOrder(states, steps, n - 1);
      StorageStep(states[n - 1], steps[n - 1]);
      assert steps[..n][..n - 1] == steps[..n - 1];
    }
  }

  lemma StorageStep(s: State, step: Step)
    requires Enabled(s, step)
    ensures step.Work? ==> s.storage != []
    ensures Next(s, step).storage ==
            if step.GetReport? then s.storage + [step.t] else if step.Work? then s.storage[1..] else s.storage
  {
  }

  /** No message has this id. */
  ghost predicate NeverAnId(steps: seq<Step>, g: nat) {
    forall j :: 0 <= j < |steps| && (steps[j].Submit? || steps[j].Drop?) ==> steps[j].m.id != g
  }

  /** No entry, cached or about to be, has internal id `g`. */
  ghost predicate Clear(s: State, g: nat, named: bool) {
    && (forall k :: k in s.store ==> s.store[k].id != g)
    && (named ==> s.confirmed.entry.id != g)
  }

  lemma ClearStays(s: State, step: Step, g: nat, steps: seq<Step>)
    requires Inv(s, steps) && Clear(s, g, LastNamed(steps).Some?) && Enabled(s, step)
    requires step.Submit? || step.Drop? ==> step.m.id != g
    ensures Clear(Next(s, step), g, LastNamed(steps + [step]).Some?)
  {
    hide SubmittedUnder, AcceptedAs, LastNumber, LastNamed, Describes;
    StepsOfLast(steps, step);
  }

  lemma {:induction false} AlwaysClear(states: seq<State>, steps: seq<Step>, n: nat, g: nat)
    requires Run(states, steps) && n < |states| && NeverAnId(steps[..n], g)
    ensures Clear(states[n], g, LastNamed(steps[..n]).Some?)
  {
    hide Next, Enabled, Inv;
    if n > 0 {
      assert steps[..n - 1] == steps[..n][..n - 1] && steps[n - 1] == steps[..n][n - 1];
      AlwaysClear(states, steps, n - 1, g);
      EveryStateIsGood(states, steps, n - 1);
      ClearStays(states[n - 1], steps[n - 1], g, steps[..n - 1]);
      assert steps[..n] == steps[..n - 1] + [steps[n - 1]];
    }
  }

  lemma StoredStays(s: State, step: Step, g: nat)
    requires Enabled(s, step) && g in s.store && forall k :: k in s.store ==> s.store[k].id != g
    ensures g in Next(s, step).store
  {
  }

  lemma {:induction false} CachedStaysCached(states: seq<State>, steps: seq<Step>, i: nat, n: nat, g: nat)
    requires Run(states, steps) && i <= n < |states| && g in states[i].store && NeverAnId(steps[..n], g)
    ensures g in states[n].store
  {
    hide Next, Enabled;
    if i < n {
      assert steps[..n - 1] == steps[..n][..n - 1];
      CachedStaysCached(states, steps, i, n - 1, g);
      AlwaysClear(states, steps, n - 1, g);
      StoredStays(states[n - 1], steps[n - 1], g);
    }
  }

  /**
   Completeness, in every run: once an acknowledgement is cached, every later report for it is forwarded
   from its entry if that holds an id, an account and a company, provided that no message has the gateway's
   id for its internal id. The report is the first not yet taken up, and it is forwarded under its message
   exactly when the entry is not tainted.
   */
  lemma ReportsOfCachedAreForwarded(states: seq<State>, steps: seq<Step>, i: nat, n: nat)
    requires Run(states, steps) && i <= n < |steps| && steps[n].Work?
    requires Works(steps[..n]) < |Tickets(steps[..n])|
    requires var g := Tickets(steps[..n])[Works(steps[..n])].gatewayId; g in states[i].store && NeverAnId(steps[..n], g)
    ensures var s, t := states[n], Tickets(steps[..n])[Works(steps[..n])];
            && t.gatewayId in s.store && (IsRight(steps[..n], t.gatewayId, s.store[t.gatewayId]) <==> !Tainted(steps, n, t.gatewayId))
            && var e := s.store[t.gatewayId];
               states[n + 1].forwarded == s.forwarded + if e.id > 0 && e.account > 0 && e.company > 0
                                                        then [Forwarded(t.gatewayId, e, t.status)] else []
  {
    hide Next, Enabled, IsRight, Tainted, NeverAnId;
    var g := Tickets(steps[..n])[Works(steps[..n])].gatewayId;
    ReportsWaitInOrder(states, steps, n);
    CachedStaysCached(states, steps, i, n, g);
    EntryIsRightUnlessTainted(states, steps, n, g);
    WorkStep(states[n], steps[n]);
  }

  /** The step resolves a report of the message with internal id `g`, and so deletes the entry of gateway id `g`. */
  ghost predicate Deletes(s: State, step: Step, g: nat) {
    && step.Work? && s.storage != []
    && var k := s.storage[0].gatewayId;
       k in s.store && s.store[k].id == g && g > 0 && s.store[k].account > 0 && s.store[k].company > 0
  }

  lemma EntryStep(s: State, step: Step, g: nat)
    requires Enabled(s, step) && (step.GetAck? ==> step.gatewayId != g)
    ensures g in Next(s, step).store <==> g in s.store && !Deletes(s, step, g)
    ensures g in Next(s, step).store ==> Next(s, step).store[g] == s.store[g]
  {
  }

  /** In every run an entry that is not written again stays, unchanged, exactly as long as no such step runs. */
  lemma {:induction false} EntryStaysUnlessDeleted(states: seq<State>, steps: seq<Step>, i: nat, n: nat, g: nat)
    requires Run(states, steps) && i <= n < |states| && g in states[i].store
    requires forall j :: i <= j < n && steps[j].GetAck? ==> steps[j].gatewayId != g
    ensures g in states[n].store <==> forall j :: i <= j < n ==> !Deletes(states[j], steps[j], g)
    ensures g in states[n].store ==> states[n].store[g] == states[i].store[g]
  {
    hide Next, Enabled, Deletes;
    if i < n {
      EntryStaysUnlessDeleted(states, steps, i, n - 1, g);
      EntryStep(states[n - 1], steps[n - 1], g);
    }
  }

  // ----- what a drop and a delete can do

  ghost predicate Reaches(steps: seq<Step>, s: State) {
    exists states :: Run(states, steps) && states[|steps|] == s
  }

  lemma Extend(steps: seq<Step>, s: State, step: Step) returns (longer: seq<Step>)
    requires Reaches(steps, s) && Enabled(s, step)
    ensures longer == steps + [step] && Reaches(longer, Next(s, step))
  {
    var states :| Run(states, steps) && states[|steps|] == s;
    longer := steps + [step];
    assert Run(states + [Next(s, step)], longer);
  }

  const NOTHING := State(Confirmed(Entry(0, 0, 0, ""), 0), false, map[], [], {}, map[], [])

  lemma Start()
    ensures Reaches([], NOTHING)
  {
    assert Run([NOTHING], []);
  }

  const ONE := Message(1, 12, 3, "1069")
  const TWO := Message(2, 9, 8, "1066")

  /**
   A drop between a submit that timed out and its late acknowledgement does mix two messages up: the
   report for message 1 is forwarded under the name of message 2.
   */
  lemma ADropCanMisdirectAReport() returns (steps: seq<Step>, s: State)
    ensures Reaches(steps, s) && s.forwarded == [Forwarded(7, Entry(2, 9, 8, "1066"), 1)]
    ensures AcceptedAs(steps, 7) == Some(5) && SubmittedUnder(steps, 5) == Some(Message(1, 12, 3, "1069"))
  {
    steps := [Submit(ONE, 5, true), TimeOut, Drop(TWO), Accept(5, 7), GetAck(5, 7, 0, false), GetReport(Ticket(7, 1)), Work];
    Start();
    var s0, e := NOTHING, Entry(2, 9, 8, "1066");
    var a := Extend([], s0, steps[0]);
    var s1 := s0.(confirmed := Confirmed(Entry(1, 12, 3, "1069"), 5), waiting := true, numbers := {5});
    assert Next(s0, steps[0]) == s1;
    var b := Extend(a, s1, steps[1]);
    var s2 := s1.(waiting := false);
    var c := Extend(b, s2, steps[2]);
    var s3 := s2.(confirmed := Confirmed(e, 5));
    assert Next(s2, steps[2]) == s3;
    s := LateAckMisdirects(c, s3, e);
    assert steps == c + [steps[3], steps[4], steps[5], steps[6]];
    SaidInSteps(a, b, c, steps);
  }

  lemma SaidInSteps(a: seq<Step>, b: seq<Step>, c: seq<Step>, steps: seq<Step>)
    requires a == [] + [Submit(ONE, 5, true)] && b == a + [TimeOut] && c == b + [Drop(TWO)]
    requires steps == c + [Accept(5, 7), GetAck(5, 7, 0, false), GetReport(Ticket(7, 1)), Work]
    ensures AcceptedAs(steps, 7) == Some(5) && SubmittedUnder(steps, 5) == Some(ONE)
  {
    hide SubmittedUnder, AcceptedAs;
    StepsOfLast([], Submit(ONE, 5, true));
    StepsOfLast(a, TimeOut);
    StepsOfLast(b, Drop(TWO));
    StepsOfLast(c, Accept(5, 7));
    var d := c + [Accept(5, 7)];
    StepsOfLast(d, GetAck(5, 7, 0, false));
    StepsOfLast(d + [GetAck(5, 7, 0, false)], GetReport(Ticket(7, 1)));
    StepsOfLast(d + [GetAck(5, 7, 0, false)] + [GetReport(Ticket(7, 1))], Work);
    assert steps == d + [GetAck(5, 7, 0, false)] + [GetReport(Ticket(7, 1))] + [Work];
  }

  lemma LateAckMisdirects(steps: seq<Step>, s3: State, e: Entry) returns (s: State)
    requires Reaches(steps, s3) && s3 == NOTHING.(confirmed := Confirmed(e, 5), numbers := {5})
    requires e.id > 0 && e.account > 0 && e.company > 0
    ensures Reaches(steps + [Accept(5, 7), GetAck(5, 7, 0, false), GetReport(Ticket(7, 1)), Work], s)
    ensures s.forwarded == [Forwarded(7, e, 1)]
  {
    var d := Extend(steps, s3, Accept(5, 7));
    var s4 := s3.(acked := map[7 := 5]);
    assert Next(s3, Accept(5, 7)) == s4;
    var f := Extend(d, s4, GetAck(5, 7, 0, false));
    var s5 := s4.(store := map[7 := e]);
    assert Next(s4, GetAck(5, 7, 0, false)) == s5;
    var g := Extend(f, s5, GetReport(Ticket(7, 1)));
    var s6 := s5.(storage := [Ticket(7, 1)]);
    var h := Extend(g, s6, Work);
    s := Next(s6, Work);
    assert h == steps + [Accept(5, 7), GetAck(5, 7, 0, false), GetReport(Ticket(7, 1)), Work];
  }

  /**
   Ids that meet do lose a report: message 8 is cached under gateway id 7, and resolving the report
   of message 7 deletes that entry.
   */
  lemma ADeleteCanLoseAReport() returns (steps: seq<Step>, s: State)
    ensures Reaches(steps, s) && 7 in s.acked && s.acked[7] == 2
    ensures exists j :: 0 <= j < |steps| && steps[j] == Submit(Message(8, 12, 3, "1069"), 2, true)
    ensures 7 !in s.store && s.forwarded == [Forwarded(3, Entry(7, 12, 3, "1069"), 1)]
  {
    Start();
    var a, s1 := Acknowledge([], NOTHING, Message(7, 12, 3, "1069"), 1, 3);
    assert s1.store[3] == Entry(7, 12, 3, "1069");
    var b, s2 := Acknowledge(a, s1, Message(8, 12, 3, "1069"), 2, 7);
    assert b[3] == Submit(Message(8, 12, 3, "1069"), 2, true);
    steps, s := ResolveDeletes(b, s2);
    assert steps[3] == b[3];
  }

  lemma ResolveDeletes(before: seq<Step>, s2: State) returns (steps: seq<Step>, s: State)
    requires Reaches(before, s2) && s2.storage == [] && s2.forwarded == []
    requires 3 in s2.store && s2.store[3] == Entry(7, 12, 3, "1069")
    ensures Reaches(steps, s) && before <= steps && 7 !in s.store && s.acked == s2.acked
    ensures s.forwarded == [Forwarded(3, Entry(7, 12, 3, "1069"), 1)]
  {
    var c := Extend(before, s2, GetReport(Ticket(3, 1)));
    var s3 := s2.(storage := [Ticket(3, 1)]);
    steps := Extend(c, s3, Work);
    s := Next(s3, Work);
  }

  /** A submit that is accepted and acknowledged at once. */
  lemma Acknowledge(steps: seq<Step>, s: State, m: Message, n: nat, g: nat) returns (longer: seq<Step>, t: State)
    requires Reaches(steps, s) && !s.waiting && n !in s.numbers && g !in s.acked
    ensures longer == steps + [Submit(m, n, true), Accept(n, g), GetAck(n, g, 0, true)] && Reaches(longer, t)
    ensures t == State(Confirmed(EntryOf(m), n), false, s.store[g := EntryOf(m)], s.storage, s.numbers + {n},
                       s.acked[g := n], s.forwarded)
  {
    var b := Extend(steps, s, Submit(m, n, true));
    var a := Next(s, Submit(m, n, true));
    var c := Extend(b, a, Accept(n, g));
    var d := Next(a, Accept(n, g));
    longer := Extend(c, d, GetAck(n, g, 0, true));
    t := Next(d, GetAck(n, g, 0, true));
  }
}
