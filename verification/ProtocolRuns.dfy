/** Stretches of runs of module ProtocolSteps, from which the witnesses in QueueBound and LostReplies are built. */
module ProtocolRuns {
  import opened ProtocolSteps
  import opened Routing
  import opened Wrappers
  import S = Server

  const CONFIG := Config(1, 1, 0, [], [], (a, b) => false)
  const CHANNELS := [Channel(7, 0, 8)]
  const M := Submit(1, 1, 1, "", "", "", 11, "")
  const PROBES := S.Probes(false, false, false, None)

  ghost predicate Reachable(s: State) {
    exists states, steps :: Run(states, steps) && states[|steps|] == s
  }

  lemma Extend(s: State, step: Step)
    requires Reachable(s) && Enabled(s, step)
    ensures Reachable(Next(s, step))
  {
    var states, steps :| Run(states, steps) && states[|steps|] == s;
    ExtendRun(states, steps, step);
  }

  lemma ExtendRun(states: seq<State>, steps: seq<Step>, step: Step)
    requires Run(states, steps) && Enabled(states[|steps|], step)
    ensures Run(states + [Next(states[|steps|], step)], steps + [step])
  {
    hide Enabled, Next;
  }

  /** What only the end of a turn, a reload or an answer changes. */
  ghost predicate SameRest(sv: Server, sv': Server) {
    && sv'.config == sv.config && sv'.channels == sv.channels && sv'.retired == sv.retired
    && sv'.sub == sv.sub && sv'.direct == sv.direct
  }

  /** Only server `i` differs. */
  ghost predicate OnlyServer(s: State, t: State, i: nat) {
    i < |s.servers| == |t.servers| && t == s.(servers := s.servers[i := t.servers[i]])
  }

  ghost predicate Is(sv: Server, pc: Pc, link: Link) {
    sv.config == CONFIG && sv.channels == CHANNELS && sv.pc == pc && sv.link == link
  }

  lemma Does(s: State, i: nat, act: Act) returns (t: State)
    requires Reachable(s) && i < |s.servers| && CanAct(s.servers[i], act)
    ensures Reachable(t) && t == s.(servers := s.servers[i := Acted(s.servers[i], s.queues, act)])
  {
    hide CanAct, Acted;
    Extend(s, Local(i, act));
    t := Next(s, Local(i, act));
  }

  lemma FiltersPass(sv: Server)
    requires sv.config == CONFIG
    ensures S.AllPass(StagesOf(sv, M, PROBES)) && S.Text(M, PROBES) == M.content
  {
  }

  lemma Resend(s: State, i: nat) returns (t: State)
    requires Reachable(s) && i < |s.servers| && s.servers[i].pc == Sending(M) && s.servers[i].link == Idle
    ensures Reachable(t) && OnlyServer(s, t, i) && SameRest(s.servers[i], t.servers[i])
    ensures t.servers[i].pc == Waiting(M) && t.servers[i].link == Arrived(M)
  {
    t := Does(s, i, Send);
  }

  lemma PullAndSend(s: State, i: nat) returns (t: State)
    requires Reachable(s) && i < |s.servers| && Is(s.servers[i], Head, Idle)
    ensures Reachable(t) && OnlyServer(s, t, i) && SameRest(s.servers[i], t.servers[i])
    ensures Is(t.servers[i], Waiting(M), Arrived(M))
  {
    var a := Does(s, i, Pull(M));
    FiltersPass(a.servers[i]);
    var b := Does(a, i, Filter(PROBES, None));
    assert b.servers[i].pc == Sending(M);
    t := Resend(b, i);
  }

  /** The scan finds room in queue 7. */
  lemma Scan(s: State, i: nat) returns (t: State)
    requires Reachable(s) && i < |s.servers| && Is(s.servers[i], Waiting(M), Arrived(M))
    requires 7 in s.queues && |s.queues[7]| < CAPACITY
    ensures Reachable(t) && OnlyServer(s, t, i) && SameRest(s.servers[i], t.servers[i])
    ensures Is(t.servers[i], Waiting(M), Pushing(M, 7, []))
  {
    var a := Does(s, i, Thread(Receive));
    assert Has(CHANNELS[0].operator, MVNO_BIT);
    t := Does(a, i, Thread(Examine));
  }

  ghost function Landed(s: State, i: nat): State
    requires 7 in s.queues
  {
    PushedItem(s, 7, Item(Account(i), M))
  }

  lemma Land(s: State, i: nat) returns (t: State)
    requires Reachable(s) && i < |s.servers| && Is(s.servers[i], Waiting(M), Pushing(M, 7, [])) && 7 in s.queues
    ensures Reachable(t) && OnlyServer(Landed(s, i), t, i) && SameRest(s.servers[i], t.servers[i])
    ensures Is(t.servers[i], Waiting(M), Replying(OK))
  {
    Extend(s, Append(i));
    t := Next(s, Append(i));
  }

  /** The server hears OK, bills and stores. */
  lemma Settle(s: State, i: nat) returns (t: State)
    requires Reachable(s) && i < |s.servers| && Is(s.servers[i], Waiting(M), Replying(OK))
    ensures Reachable(t) && OnlyServer(s, t, i) && Is(t.servers[i], Head, Idle)
    ensures t.servers[i].sub == s.servers[i].sub + 1 && t.servers[i].retired == s.servers[i].retired
  {
    var a := Does(s, i, GetReply);
    var b := Does(a, i, PushBill);
    t := Does(b, i, Store);
  }

  /** `k` servers with one channel each, and an empty queue 7. */
  lemma {:induction false} Setup(k: nat) returns (s: State)
    ensures Reachable(s) && |s.servers| == k && s.started == k && s.log == []
    ensures 7 in s.queues && s.queues[7] == []
    ensures forall i :: 0 <= i < k ==>
              Is(s.servers[i], Head, Idle) && s.servers[i].retired == [] && s.servers[i].sub == 0 && s.servers[i].direct == []
  {
    if k == 0 {
      var s0 := State([], 0, map[], map[], map[], map[], [], []);
      assert Run([s0], []);
      Extend(s0, Register(7));
      s := Next(s0, Register(7));
    } else {
      var r := Setup(k - 1);
      Extend(r, Join(CONFIG, CHANNELS));
      s := Next(r, Join(CONFIG, CHANNELS));
    }
  }
}
