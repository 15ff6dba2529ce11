/**
 Any number of account servers against one scheduler: the invariants of module ServerBooks for every
 server, the gateway queues, their bound and the money, kept by every step of every run.
 */
module Protocol {
  import opened ProtocolRecords
  import opened ProtocolSteps
  import opened Routing
  import opened ServerBooks
  import opened Wrappers
  import S = Server

  // ----- sums over servers

  function PushesTo(l: Link, q: int): nat {
    if l.Pushing? && l.q == q then 1 else 0
  }

  function OldPushes(threads: seq<OldThread>, q: int): (n: nat)
    ensures n <= |threads|
  {
    if threads == [] then 0 else OldPushes(threads[..|threads| - 1], q) + PushesTo(threads[|threads| - 1].link, q)
  }

  /** The threads of a server that have passed the test for a queue and not yet appended. */
  function ServerPushes(sv: Server, q: int): nat {
    PushesTo(sv.link, q) + OldPushes(sv.retired, q)
  }

  function Pushers(servers: seq<Server>, q: int): nat {
    if servers == [] then 0
    else Pushers(servers[..|servers| - 1], q) + ServerPushes(servers[|servers| - 1], q)
  }

  function Threads(servers: seq<Server>): nat {
    if servers == [] then 0
    else Threads(servers[..|servers| - 1]) + 1 + |servers[|servers| - 1].retired|
  }

  /** What company `c` will still gain from this server's queued bills, less what was ever issued to it. */
  function Due(sv: Server, c: int): int {
    Outstanding(sv, c) - SumTo(sv.issued, c)
  }

  function TotalDue(servers: seq<Server>, c: int): int {
    if servers == [] then 0
    else TotalDue(servers[..|servers| - 1], c) + Due(servers[|servers| - 1], c)
  }

  lemma {:induction false} TotalsOfUpdate(servers: seq<Server>, i: nat, sv: Server, q: int, c: int)
    requires i < |servers|
    ensures Pushers(servers[i := sv], q) == Pushers(servers, q) - ServerPushes(servers[i], q) + ServerPushes(sv, q)
    ensures Threads(servers[i := sv]) == Threads(servers) - |servers[i].retired| + |sv.retired|
    ensures TotalDue(servers[i := sv], c) == TotalDue(servers, c) - Due(servers[i], c) + Due(sv, c)
  {
    hide ServerPushes, Due;
    var n := |servers| - 1;
    if i < n {
      TotalsOfUpdate(servers[..n], i, sv, q, c);
      assert servers[i := sv][..n] == servers[..n][i := sv];
    } else {
      assert servers[i := sv][..n] == servers[..n];
    }
  }

  lemma {:induction false} OldPushesOfUpdate(threads: seq<OldThread>, k: nat, o: OldThread, q: int)
    requires k < |threads|
    ensures OldPushes(threads[k := o], q) == OldPushes(threads, q) - PushesTo(threads[k].link, q) + PushesTo(o.link, q)
  {
    var n := |threads| - 1;
    if k < n {
      OldPushesOfUpdate(threads[..n], k, o, q);
      assert threads[k := o][..n] == threads[..n][k := o];
    } else {
      assert threads[k := o][..n] == threads[..n];
    }
  }

  lemma {:induction false} PushersAtMostThreads(servers: seq<Server>, q: int)
    ensures Pushers(servers, q) <= Threads(servers)
  {
    if servers != [] {
      PushersAtMostThreads(servers[..|servers| - 1], q);
    }
  }

  // ----- the invariants

  function Contents(s: State, q: int): seq<Item> {
    if q in s.queues then s.queues[q] else []
  }

  ghost predicate ServersInv(s: State) {
    && (forall i :: 0 <= i < |s.servers| ==> Good(s.servers[i], AppendsBy(s.log, i)))
    && (forall i: nat :: |s.servers| <= i ==> AppendsBy(s.log, i) == [])
  }

  /** Gateway queues lose nothing, and nothing crosses from one to another. */
  ghost predicate QueuesInv(s: State) {
    forall q :: Only(s.log, q) == Only(s.taken, q) + Contents(s, q)
  }

  /** A thread past the test appends to a registered queue. */
  ghost predicate Registered(sv: Server, queues: map<int, seq<Item>>) {
    && (sv.link.Pushing? ==> sv.link.q in queues)
    && (forall k :: 0 <= k < |sv.retired| && sv.retired[k].link.Pushing? ==> sv.retired[k].link.q in queues)
  }

  /** The bound of one queue counts the push threads past the test. */
  ghost predicate Bounded(s: State, q: int) {
    |Contents(s, q)| + Pushers(s.servers, q) <= CAPACITY - 1 + s.started + Tests(Only(s.log, q))
  }

  ghost predicate BoundInv(s: State) {
    && Threads(s.servers) == s.started
    && (forall i :: 0 <= i < |s.servers| ==> Registered(s.servers[i], s.queues))
    && (forall q :: Bounded(s, q))
  }

  ghost predicate MoneyInv(s: State) {
    forall c :: At(s.balance, c) + At(s.dropped, c) + TotalDue(s.servers, c) == At(s.funded, c)
  }

  lemma InitialIsGood(s: State)
    requires Initial(s)
    ensures ServersInv(s) && QueuesInv(s) && BoundInv(s) && MoneyInv(s)
  {
    forall q ensures Bounded(s, q) { assert Only(s.log, q) == []; }
  }

  // ----- the servers

  /** Server `i` becomes `sv`; the account's appends grow by `ms`, those of the others stay. */
  lemma UpdateKeepsServers(s: State, t: State, i: nat, sv: Server, ms: seq<Submit>)
    requires ServersInv(s) && i < |s.servers| && t.servers == s.servers[i := sv]
    requires forall j: nat :: AppendsBy(t.log, j) == AppendsBy(s.log, j) + if j == i then ms else []
    requires Good(sv, AppendsBy(s.log, i) + ms)
    ensures ServersInv(t)
  {
    hide Good;
    assert forall j: nat :: j != i ==> AppendsBy(t.log, j) == AppendsBy(s.log, j);
  }

  lemma LocalKeepsServers(s: State, i: nat, act: Act)
    requires ServersInv(s) && Enabled(s, Local(i, act))
    ensures ServersInv(Next(s, Local(i, act)))
  {
    hide Good, Acted, CanAct;
    var sv := Acted(s.servers[i], s.queues, act);
    ActedKeepsGood(s.servers[i], s.queues, act, AppendsBy(s.log, i));
    assert AppendsBy(s.log, i) + [] == AppendsBy(s.log, i);
    UpdateKeepsServers(s, Next(s, Local(i, act)), i, sv, []);
  }

  lemma ApplyKeepsServers(s: State, i: nat, ok: bool)
    requires ServersInv(s) && Enabled(s, ApplyBill(i, ok))
    ensures ServersInv(Next(s, ApplyBill(i, ok)))
  {
    hide Good;
    AppliedIsGood(s.servers[i], AppendsBy(s.log, i));
    assert AppendsBy(s.log, i) + [] == AppendsBy(s.log, i);
    UpdateKeepsServers(s, Next(s, ApplyBill(i, ok)), i, s.servers[i].(inHand := None), []);
  }

  lemma ReloadKeepsServers(s: State, i: nat, config: Config, channels: seq<Channel>)
    requires ServersInv(s) && Enabled(s, Reload(i, config, channels))
    ensures ServersInv(Next(s, Reload(i, config, channels)))
  {
    hide Good, Reconnected;
    ReloadedIsGood(s.servers[i], config, channels, AppendsBy(s.log, i));
    assert AppendsBy(s.log, i) + [] == AppendsBy(s.log, i);
    UpdateKeepsServers(s, Next(s, Reload(i, config, channels)), i,
                       Reconnected(s.servers[i], channels).(config := config), []);
  }

  lemma AppendKeepsServers(s: State, i: nat)
    requires ServersInv(s) && Enabled(s, Append(i))
    ensures ServersInv(Next(s, Append(i)))
  {
    hide Good, Pushed;
    var sv := s.servers[i];
    LogOfLast(s.log, Appended(sv.link.q, Item(Account(i), sv.link.m)));
    PushedIsGood(sv, AppendsBy(s.log, i));
    UpdateKeepsServers(s, Next(s, Append(i)), i, Pushed(sv), [sv.link.m]);
  }

  lemma OldAppendKeepsServers(s: State, i: nat, k: nat)
    requires ServersInv(s) && Enabled(s, OldAppend(i, k))
    ensures ServersInv(Next(s, OldAppend(i, k)))
  {
    hide Good, OldAppended;
    var sv := s.servers[i];
    LogOfLast(s.log, Appended(sv.retired[k].link.q, Item(Account(i), sv.retired[k].link.m)));
    OldAppendedIsGood(sv, k, AppendsBy(s.log, i));
    UpdateKeepsServers(s, Next(s, OldAppend(i, k)), i, OldAppended(sv, k), [sv.retired[k].link.m]);
  }

  lemma JoinKeepsServers(s: State, config: Config, channels: seq<Channel>)
    requires ServersInv(s)
    ensures ServersInv(Next(s, Join(config, channels)))
  {
    hide Good;
    FreshIsGood(config, channels);
  }

  lemma TestKeepsServers(s: State, q: int, m: Submit)
    requires ServersInv(s) && Enabled(s, Test(q, m))
    ensures ServersInv(Next(s, Test(q, m)))
  {
    hide Good;
    LogOfLast(s.log, Appended(q, Item(Tester, KeptTest(m))));
  }

  lemma NextKeepsServers(s: State, step: Step)
    requires ServersInv(s) && Enabled(s, step)
    ensures ServersInv(Next(s, step))
  {
    hide ServersInv, Next, Enabled;
    match step
    case Local(i, act) => LocalKeepsServers(s, i, act);
    case Append(i) => AppendKeepsServers(s, i);
    case OldAppend(i, k) => OldAppendKeepsServers(s, i, k);
    case ApplyBill(i, ok) => ApplyKeepsServers(s, i, ok);
    case Reload(i, config, channels) => ReloadKeepsServers(s, i, config, channels);
    case Join(config, channels) => JoinKeepsServers(s, config, channels);
    case Test(q, m) => TestKeepsServers(s, q, m);
    case _ => OthersKeepServers(s, step);
  }

  /** The steps of gateways and companies. */
  predicate Outside(step: Step) {
    step.Register? || step.Take? || step.Recharge?
  }

  lemma OthersKeepServers(s: State, step: Step)
    requires ServersInv(s) && Enabled(s, step) && Outside(step)
    ensures ServersInv(Next(s, step))
  {
    hide Good;
  }

  // ----- the queues

  lemma PushKeepsQueues(s: State, q: int, item: Item)
    requires QueuesInv(s) && q in s.queues
    ensures QueuesInv(PushedItem(s, q, item))
  {
    LogOfLast(s.log, Appended(q, item));
    hide Only;
  }

  lemma TakeKeepsQueues(s: State, q: int)
    requires QueuesInv(s) && Enabled(s, Take(q))
    ensures QueuesInv(Next(s, Take(q)))
  {
    var t, x := Next(s, Take(q)), s.queues[q][0];
    LogOfLast(s.taken, Appended(q, x));
    hide Only;
    forall p ensures Only(t.log, p) == Only(t.taken, p) + Contents(t, p) {
      assert Contents(s, p) == (if p == q then [x] else []) + Contents(t, p);
    }
  }

  lemma SameQueuesKeepInv(s: State, t: State)
    requires QueuesInv(s) && t.log == s.log && t.taken == s.taken && forall q :: Contents(t, q) == Contents(s, q)
    ensures QueuesInv(t)
  {
  }

  lemma OthersKeepQueues(s: State, step: Step)
    requires QueuesInv(s) && Enabled(s, step) && !step.Append? && !step.OldAppend? && !step.Test? && !step.Take?
    ensures QueuesInv(Next(s, step))
  {
    hide QueuesInv, Acted, CanAct, Reconnected;
    SameQueuesKeepInv(s, Next(s, step));
  }

  lemma NextKeepsQueues(s: State, step: Step)
    requires QueuesInv(s) && Enabled(s, step)
    ensures QueuesInv(Next(s, step))
  {
    hide Acted, CanAct, Reconnected;
    match step
    case Append(i) => PushKeepsQueues(s, s.servers[i].link.q, Item(Account(i), s.servers[i].link.m));
    case OldAppend(i, k) =>
      PushKeepsQueues(s, s.servers[i].retired[k].link.q, Item(Account(i), s.servers[i].retired[k].link.m));
    case Test(q, m) => PushKeepsQueues(s, q, Item(Tester, KeptTest(m)));
    case Take(q) => TakeKeepsQueues(s, q);
    case _ => OthersKeepQueues(s, step);
  }

  // ----- the money

  /** One server changes, and what it is due changes by what the company gains or loses. */
  lemma UpdateKeepsMoney(s: State, t: State, i: nat, sv: Server)
    requires MoneyInv(s) && i < |s.servers| && t.servers == s.servers[i := sv] && t.funded == s.funded
    requires forall c :: At(t.balance, c) + At(t.dropped, c) + Due(sv, c) ==
                         At(s.balance, c) + At(s.dropped, c) + Due(s.servers[i], c)
    ensures MoneyInv(t)
  {
    hide Due;
    forall c { TotalsOfUpdate(s.servers, i, sv, 0, c); }
  }

  lemma SameMoneyKeepsMoney(s: State, t: State, i: nat, sv: Server)
    requires MoneyInv(s) && i < |s.servers| && t.servers == s.servers[i := sv] && SameMoney(s.servers[i], sv)
    requires t.funded == s.funded && t.balance == s.balance && t.dropped == s.dropped
    ensures MoneyInv(t)
  {
    hide MoneyInv, Billed;
    UpdateKeepsMoney(s, t, i, sv);
  }

  lemma LocalKeepsMoney(s: State, i: nat, act: Act)
    requires ServersInv(s) && MoneyInv(s) && Enabled(s, Local(i, act))
    ensures MoneyInv(Next(s, Local(i, act)))
  {
    hide MoneyInv, Acted, CanAct, SameMoney;
    ActedKeepsGood(s.servers[i], s.queues, act, AppendsBy(s.log, i));
    SameMoneyKeepsMoney(s, Next(s, Local(i, act)), i, Acted(s.servers[i], s.queues, act));
  }

  lemma BillsMove(m: map<int, int>, k: int, d: int)
    ensures forall c :: At(m[k := At(m, k) + d], c) == At(m, c) + if c == k then d else 0
  {
  }

  lemma AppliedDue(sv: Server)
    requires sv.inHand.Some?
    ensures forall c :: Due(sv.(inHand := None), c) ==
                        Due(sv, c) - if c == sv.inHand.value.company then sv.inHand.value.money else 0
  {
  }

  lemma ApplyKeepsMoney(s: State, i: nat, ok: bool)
    requires MoneyInv(s) && Enabled(s, ApplyBill(i, ok))
    ensures MoneyInv(Next(s, ApplyBill(i, ok)))
  {
    hide MoneyInv, At, Due;
    var sv := s.servers[i];
    var b := sv.inHand.value;
    BillsMove(s.balance, b.company, b.money);
    BillsMove(s.dropped, b.company, b.money);
    AppliedDue(sv);
    UpdateKeepsMoney(s, Next(s, ApplyBill(i, ok)), i, sv.(inHand := None));
  }

  lemma AppendKeepsMoney(s: State, i: nat)
    requires ServersInv(s) && MoneyInv(s) && Enabled(s, Append(i))
    ensures MoneyInv(Next(s, Append(i)))
  {
    hide MoneyInv, SameMoney, Pushed;
    PushedIsGood(s.servers[i], AppendsBy(s.log, i));
    SameMoneyKeepsMoney(s, Next(s, Append(i)), i, Pushed(s.servers[i]));
  }

  lemma OldAppendKeepsMoney(s: State, i: nat, k: nat)
    requires ServersInv(s) && MoneyInv(s) && Enabled(s, OldAppend(i, k))
    ensures MoneyInv(Next(s, OldAppend(i, k)))
  {
    hide MoneyInv, SameMoney, OldAppended;
    OldAppendedIsGood(s.servers[i], k, AppendsBy(s.log, i));
    SameMoneyKeepsMoney(s, Next(s, OldAppend(i, k)), i, OldAppended(s.servers[i], k));
  }

  lemma ReloadKeepsMoney(s: State, i: nat, config: Config, channels: seq<Channel>)
    requires ServersInv(s) && MoneyInv(s) && Enabled(s, Reload(i, config, channels))
    ensures MoneyInv(Next(s, Reload(i, config, channels)))
  {
    hide MoneyInv, SameMoney, Reconnected;
    ReloadedIsGood(s.servers[i], config, channels, AppendsBy(s.log, i));
    SameMoneyKeepsMoney(s, Next(s, Reload(i, config, channels)), i,
                        Reconnected(s.servers[i], channels).(config := config));
  }

  lemma JoinKeepsMoney(s: State, config: Config, channels: seq<Channel>)
    requires MoneyInv(s)
    ensures MoneyInv(Next(s, Join(config, channels)))
  {
    assert (s.servers + [Fresh(config, channels)])[..|s.servers|] == s.servers;
  }

  lemma RechargeKeepsMoney(s: State, c: int, amount: int)
    requires MoneyInv(s)
    ensures MoneyInv(Next(s, Recharge(c, amount)))
  {
    BillsMove(s.balance, c, amount);
    BillsMove(s.funded, c, amount);
  }

  lemma SameAccountsKeepMoney(s: State, t: State)
    requires MoneyInv(s) && t.servers == s.servers
    requires t.funded == s.funded && t.balance == s.balance && t.dropped == s.dropped
    ensures MoneyInv(t)
  {
  }

  lemma OthersKeepMoney(s: State, step: Step)
    requires MoneyInv(s) && Enabled(s, step) && (step.Register? || step.Take? || step.Test?)
    ensures MoneyInv(Next(s, step))
  {
    hide MoneyInv;
    SameAccountsKeepMoney(s, Next(s, step));
  }

  lemma NextKeepsMoney(s: State, step: Step)
    requires ServersInv(s) && MoneyInv(s) && Enabled(s, step)
    ensures MoneyInv(Next(s, step))
  {
    hide ServersInv, MoneyInv, Next, Enabled;
    match step
    case Local(i, act) => LocalKeepsMoney(s, i, act);
    case ApplyBill(i, ok) => ApplyKeepsMoney(s, i, ok);
    case Append(i) => AppendKeepsMoney(s, i);
    case OldAppend(i, k) => OldAppendKeepsMoney(s, i, k);
    case Reload(i, config, channels) => ReloadKeepsMoney(s, i, config, channels);
    case Join(config, channels) => JoinKeepsMoney(s, config, channels);
    case Recharge(c, amount) => RechargeKeepsMoney(s, c, amount);
    case _ => OthersKeepMoney(s, step);
  }

  // ----- the bound

  /** A server gets a thread past the test only while the queue has room. */
  ghost predicate Entitled(queues: map<int, seq<Item>>, sv: Server, sv': Server, q: int) {
    ServerPushes(sv', q) <= ServerPushes(sv, q) || (q in queues && |queues[q]| < CAPACITY)
  }

  /** With every thread past the test the bound still holds: the queue had room when the last one passed. */
  lemma ThreadKeepsBound(s: State, t: State, i: nat, sv: Server)
    requires BoundInv(s) && i < |s.servers| && t.servers == s.servers[i := sv] && t.queues == s.queues && t.log == s.log
    requires t.started - s.started == |sv.retired| - |s.servers[i].retired| >= 0
    requires Registered(sv, s.queues) && forall q :: Entitled(s.queues, s.servers[i], sv, q)
    ensures BoundInv(t)
  {
    hide ServerPushes, Registered;
    TotalsOfUpdate(s.servers, i, sv, 0, 0);
    forall q ensures Bounded(t, q) {
      assert Bounded(s, q) && Entitled(s.queues, s.servers[i], sv, q);
      TotalsOfUpdate(s.servers, i, sv, q, 0);
      PushersAtMostThreads(t.servers, q);
    }
  }

  lemma ActedPushes(sv: Server, queues: map<int, seq<Item>>, act: Act, q: int)
    requires Linked(sv) && OldOk(sv) && CanAct(sv, act)
    ensures Entitled(queues, sv, Acted(sv, queues, act), q)
  {
    hide Moved, CanMove, ThreadOk, Honest;
    if act.Thread? {
      MovedIsOk(sv.link, sv.channels, queues, act.move);
    } else if act.Old? {
      var o := sv.retired[act.k];
      MovedIsOk(o.link, o.channels, queues, act.move);
      OldPushesOfUpdate(sv.retired, act.k, o.(link := Unheard(Moved(o.link, o.channels, queues, act.move))), q);
    }
  }

  lemma ActedStaysRegistered(sv: Server, queues: map<int, seq<Item>>, act: Act)
    requires Linked(sv) && OldOk(sv) && CanAct(sv, act) && Registered(sv, queues)
    ensures Registered(Acted(sv, queues, act), queues) && |Acted(sv, queues, act).retired| == |sv.retired|
  {
    hide Moved, CanMove, ThreadOk, Honest;
    if act.Thread? {
      MovedIsOk(sv.link, sv.channels, queues, act.move);
    } else if act.Old? {
      var o := sv.retired[act.k];
      MovedIsOk(o.link, o.channels, queues, act.move);
    }
  }

  lemma LocalKeepsBound(s: State, i: nat, act: Act)
    requires ServersInv(s) && BoundInv(s) && Enabled(s, Local(i, act))
    ensures BoundInv(Next(s, Local(i, act)))
  {
    var sv := s.servers[i];
    assert Registered(sv, s.queues) && Linked(sv) && OldOk(sv) by { assert Good(sv, AppendsBy(s.log, i)); }
    hide Acted, BoundInv, Entitled, Registered, Linked, OldOk, CanAct;
    forall q { ActedPushes(sv, s.queues, act, q); }
    ActedStaysRegistered(sv, s.queues, act);
    ThreadKeepsBound(s, Next(s, Local(i, act)), i, Acted(sv, s.queues, act));
  }

  lemma ApplyKeepsBound(s: State, i: nat, ok: bool)
    requires BoundInv(s) && Enabled(s, ApplyBill(i, ok))
    ensures BoundInv(Next(s, ApplyBill(i, ok)))
  {
    assert Registered(s.servers[i], s.queues);
    hide BoundInv;
    ThreadKeepsBound(s, Next(s, ApplyBill(i, ok)), i, s.servers[i].(inHand := None));
  }

  lemma ReconnectedPushes(sv: Server, channels: seq<Channel>, q: int)
    requires Linked(sv)
    ensures ServerPushes(Reconnected(sv, channels), q) == ServerPushes(sv, q)
    ensures |Reconnected(sv, channels).retired| == |sv.retired| + 1
  {
    var o := OldThread(Unheard(sv.link), sv.channels);
    assert (sv.retired + [o])[..|sv.retired|] == sv.retired;
  }

  lemma ReconnectedStaysRegistered(sv: Server, channels: seq<Channel>, queues: map<int, seq<Item>>)
    requires Linked(sv) && Registered(sv, queues)
    ensures Registered(Reconnected(sv, channels), queues)
  {
  }

  lemma ReloadedIsEntitled(sv: Server, config: Config, channels: seq<Channel>, queues: map<int, seq<Item>>)
    requires Linked(sv)
    ensures forall q :: Entitled(queues, sv, Reconnected(sv, channels).(config := config), q)
  {
    hide Linked, Reconnected;
    forall q ensures Entitled(queues, sv, Reconnected(sv, channels).(config := config), q) {
      ReconnectedPushes(sv, channels, q);
    }
  }

  lemma ReloadKeepsBound(s: State, i: nat, config: Config, channels: seq<Channel>)
    requires ServersInv(s) && BoundInv(s) && Enabled(s, Reload(i, config, channels))
    ensures BoundInv(Next(s, Reload(i, config, channels)))
  {
    var sv := s.servers[i];
    assert Registered(sv, s.queues) && Linked(sv) by { assert Good(sv, AppendsBy(s.log, i)); }
    hide BoundInv, ServersInv, Reconnected, Linked, Entitled, ServerPushes;
    ReconnectedStaysRegistered(sv, channels, s.queues);
    ReloadedIsEntitled(sv, config, channels, s.queues);
    ReconnectedPushes(sv, channels, 0);
    ThreadKeepsBound(s, Next(s, Reload(i, config, channels)), i, Reconnected(sv, channels).(config := config));
  }

  /** An append moves one thread past the test into the queue. */
  lemma LandingKeepsBound(s: State, t: State, i: nat, sv: Server, q: int, item: Item)
    requires BoundInv(s) && i < |s.servers| && q in s.queues && item.source.Account?
    requires t == PushedItem(s, q, item).(servers := s.servers[i := sv])
    requires |sv.retired| == |s.servers[i].retired| && Registered(sv, s.queues)
    requires forall p :: ServerPushes(sv, p) == ServerPushes(s.servers[i], p) - if p == q then 1 else 0
    ensures BoundInv(t)
  {
    hide ServerPushes;
    LogOfLast(s.log, Appended(q, item));
    TotalsOfUpdate(s.servers, i, sv, 0, 0);
    forall p ensures Bounded(t, p) {
      assert Bounded(s, p);
      TotalsOfUpdate(s.servers, i, sv, p, 0);
      TestsOfLast(Only(s.log, p), item);
    }
  }

  lemma AppendKeepsBound(s: State, i: nat)
    requires BoundInv(s) && Enabled(s, Append(i))
    ensures BoundInv(Next(s, Append(i)))
  {
    var sv := s.servers[i];
    assert Registered(sv, s.queues);
    hide BoundInv;
    LandingKeepsBound(s, Next(s, Append(i)), i, Pushed(sv), sv.link.q, Item(Account(i), sv.link.m));
  }

  lemma OldAppendKeepsBound(s: State, i: nat, k: nat)
    requires BoundInv(s) && Enabled(s, OldAppend(i, k))
    ensures BoundInv(Next(s, OldAppend(i, k)))
  {
    var sv := s.servers[i];
    assert Registered(sv, s.queues);
    hide BoundInv;
    var o := sv.retired[k];
    forall p { OldPushesOfUpdate(sv.retired, k, o.(link := Idle), p); }
    LandingKeepsBound(s, Next(s, OldAppend(i, k)), i, OldAppended(sv, k), o.link.q, Item(Account(i), o.link.m));
  }

  lemma TestKeepsBound(s: State, p: int, m: Submit)
    requires BoundInv(s) && Enabled(s, Test(p, m))
    ensures BoundInv(Next(s, Test(p, m)))
  {
    hide Pushers;
    var t := Next(s, Test(p, m));
    LogOfLast(s.log, Appended(p, Item(Tester, KeptTest(m))));
    forall q ensures Bounded(t, q) {
      assert Bounded(s, q);
      TestsOfLast(Only(s.log, q), Item(Tester, KeptTest(m)));
    }
  }

  /** Queues only get shorter. */
  lemma ShrinkingKeepsBound(s: State, t: State)
    requires BoundInv(s) && t.log == s.log && s.queues.Keys <= t.queues.Keys
    requires forall q :: |Contents(t, q)| <= |Contents(s, q)|
    requires t.servers == s.servers && t.started == s.started
    ensures BoundInv(t)
  {
    forall q ensures Bounded(t, q) { assert Bounded(s, q); }
  }

  lemma JoinKeepsBound(s: State, config: Config, channels: seq<Channel>)
    requires BoundInv(s)
    ensures BoundInv(Next(s, Join(config, channels)))
  {
    var t := Next(s, Join(config, channels));
    assert t.servers[..|s.servers|] == s.servers;
    forall q ensures Bounded(t, q) { assert Bounded(s, q); }
  }

  lemma OthersKeepBound(s: State, step: Step)
    requires BoundInv(s) && Enabled(s, step) && Outside(step)
    ensures BoundInv(Next(s, step))
  {
    hide BoundInv;
    ShrinkingKeepsBound(s, Next(s, step));
  }

  lemma NextKeepsBound(s: State, step: Step)
    requires ServersInv(s) && BoundInv(s) && Enabled(s, step)
    ensures BoundInv(Next(s, step))
  {
    hide ServersInv, BoundInv, Next, Enabled;
    match step
    case Local(i, act) => LocalKeepsBound(s, i, act);
    case Append(i) => AppendKeepsBound(s, i);
    case OldAppend(i, k) => OldAppendKeepsBound(s, i, k);
    case ApplyBill(i, ok) => ApplyKeepsBound(s, i, ok);
    case Reload(i, config, channels) => ReloadKeepsBound(s, i, config, channels);
    case Join(config, channels) => JoinKeepsBound(s, config, channels);
    case Test(q, m) => TestKeepsBound(s, q, m);
    case _ => OthersKeepBound(s, step);
  }

  // ----- every state of every run

  ghost predicate Inv(s: State) {
    ServersInv(s) && QueuesInv(s) && BoundInv(s) && MoneyInv(s)
  }

  lemma NextKeepsInv(s: State, step: Step)
    requires Inv(s) && Enabled(s, step)
    ensures Inv(Next(s, step))
  {
    hide ServersInv, QueuesInv, BoundInv, MoneyInv, Next, Enabled;
    NextKeepsServers(s, step);
    NextKeepsQueues(s, step);
    NextKeepsBound(s, step);
    NextKeepsMoney(s, step);
  }

  lemma {:induction false} EveryStateIsGood(states: seq<State>, steps: seq<Step>, n: nat)
    requires Run(states, steps) && n < |states|
    ensures Inv(states[n])
  {
    hide Inv, Next, Enabled;
    if n == 0 {
      InitialIsGood(states[0]);
      assert Inv(states[0]) by { InvOf(states[0]); }
    } else {
      EveryStateIsGood(states, steps, n - 1);
      NextKeepsInv(states[n - 1], steps[n - 1]);
    }
  }

  lemma InvOf(s: State)
    requires ServersInv(s) && QueuesInv(s) && BoundInv(s) && MoneyInv(s)
    ensures Inv(s)
  {
  }

  lemma EveryServerIsGood(states: seq<State>, steps: seq<Step>, n: nat, i: nat)
    requires Run(states, steps) && n < |states| && i < |states[n].servers|
    ensures Good(states[n].servers[i], AppendsBy(states[n].log, i))
  {
    hide Run, Good, QueuesInv, BoundInv, MoneyInv;
    EveryStateIsGood(states, steps, n);
  }

  // ----- the main results, for every state of every run

  /**
   At a server's loop head every message it was given has exactly one result, in the order of the pulls. Either
   that very message, unchanged but for the conversion of its text, was accepted, and then billed once and
   stored once; or it got one direct response, with code 4 or 7. Everything the account ever appended to
   gateway queues is what the scheduler keeps of one of these messages and is, in order, an accepted one or an
   append whose OK was lost. A stored copy is under the account and the company of its moment.
   */
  lemma EveryMessageIsSettledOnce(states: seq<State>, steps: seq<Step>, n: nat, i: nat)
    requires Run(states, steps) && n < |states|
    requires i < |states[n].servers| && states[n].servers[i].pc.Head?
    ensures var s, sv, turns := states[n], states[n].servers[i], TurnsBy(steps[..n], i);
            && |sv.results| == |turns| == sv.toal == sv.sub + |sv.direct|
            && (forall k :: 0 <= k < |turns| ==> Ends(turns[k], sv.results[k]))
            && sv.direct == AnsweredOf(sv.results)
            && (forall k :: 0 <= k < |sv.direct| ==> sv.direct[k].code == 4 || sv.direct[k].code == 7)
            && KeptAll(AcceptedOf(sv.results)) == SeenOf(sv.fates)
            && sv.sub == |sv.storage| == |AcceptedOf(sv.results)| == Charges(sv.issued)
            && (forall k :: 0 <= k < |sv.storage| ==> IsStored(sv.storage[k], AcceptedOf(sv.results)[k]))
            && OwnedBy(sv.storage, StoresBy(steps[..n], i))
            && AppendsBy(s.log, i) == MessagesOf(sv.fates)
            && (forall k :: 0 <= k < |sv.fates| ==> !sv.fates[k].Pending? && OfSomeTurn(turns, sv.fates[k].m))
  {
    hide Run, Linked, OldOk;
    EveryServerIsGood(states, steps, n, i);
    ServersFollowTheSteps(states, steps, n, i);
  }

  /**
   At every moment of every run: a server that is at work has the message pulled last in its hands, filters it
   as it came, and from then on holds it prepared; its push thread holds the same message.
   */
  lemma TheMessageAtWorkIsTheLastPulled(states: seq<State>, steps: seq<Step>, n: nat, i: nat)
    requires Run(states, steps) && n < |states|
    requires i < |states[n].servers| && !states[n].servers[i].pc.Head?
    ensures var sv, turns := states[n].servers[i], TurnsBy(steps[..n], i);
            && turns != []
            && (if sv.pc.Filtering? then turns[|turns| - 1] == Turn(sv.pc.m, None) else Prepares(turns[|turns| - 1], sv.pc.m))
            && (Carries(sv.link) ==> sv.pc.Waiting? && sv.link.m == if sv.link.Arrived? then sv.pc.m else Kept(sv.pc.m))
  {
    hide Run, Ledger, Fated, Owned, OldOk;
    EveryServerIsGood(states, steps, n, i);
    ServersFollowTheSteps(states, steps, n, i);
  }

  /**
   So an account's messages reach the gateway queues exactly once each if and only if no OK reply to
   it was lost, by a failed receive or by a reload. BUSY replies duplicate nothing.
   */
  lemma ExactlyOnceUnlessLost(states: seq<State>, steps: seq<Step>, n: nat, i: nat)
    requires Run(states, steps) && n < |states|
    requires i < |states[n].servers| && states[n].servers[i].pc.Head?
    ensures var s, sv := states[n], states[n].servers[i];
            && |AppendsBy(s.log, i)| == sv.sub + Losses(sv.fates)
            && (AppendsBy(s.log, i) == KeptAll(AcceptedOf(sv.results)) <==> Losses(sv.fates) == 0)
  {
    hide Run;
    EveryMessageIsSettledOnce(states, steps, n, i);
    FatesAddUp(states[n].servers[i].fates);
  }

  /**
   In every run: BUSY ends nothing. The final reply to a message is an acceptance of it exactly when some
   channel of its server serves the phone it was pulled with, and otherwise the answer 4 to an account without
   channels and 7 to any other. The channels are those of the server's start or last reload; neither a reload
   nor a lost reply changes the rest.
   */
  lemma AcceptedIfServed(states: seq<State>, steps: seq<Step>, n: nat, i: nat)
    requires Run(states, steps) && n < |steps| && steps[n] == Local(i, GetReply)
    ensures i < |Setups(steps[..n])| && i < |states[n].servers| == |states[n + 1].servers| && TurnsBy(steps[..n], i) != []
    ensures var turns, sv, t := TurnsBy(steps[..n], i), states[n].servers[i], states[n + 1].servers[i];
            var turn, channels := turns[|turns| - 1], Setups(steps[..n])[i].channels;
            if sv.link.reply == BUSY then t.results == sv.results && t.pc == Sending(sv.pc.m)
            else if SomeServes(channels, |channels|, turn.pulled.phone)
            then Prepares(turn, sv.pc.m) && t.results == sv.results + [Accepted(sv.pc.m)]
            else t.results == sv.results + [Answered(S.Response(turn.pulled.id, if channels == [] then 4 else 7))]
  {
    ServersFollowTheSteps(states, steps, n, i);
    TheMessageAtWorkIsTheLastPulled(states, steps, n, i);
    EveryServerIsGood(states, steps, n, i);
    OwnIsNext(states[n], steps[n], i);
    hide Books, Billed, OldOk, ThreadOk, TurnsBy, Setups, SomeServes, Next, Acted, Prepares, Honest;
    var turns := TurnsBy(steps[..n], i);
    ReplyDecides(states[n].servers[i], states[n].queues, turns[|turns| - 1]);
  }

  /** The format is known, and neither the blacklist, nor an unsubscription, nor the frequency is against the message. */
  predicate Admitted(m: Submit, p: S.Probes, options: bv32) {
    && (m.msgfmt == 0 || m.msgfmt == 8 || m.msgfmt == 11 || m.msgfmt == 15)
    && (options & 0x10 != 0 ==> !p.blacklisted) && (options & 0x8 != 0 ==> !p.unsubscribed) && (options & 0x4 != 0 ==> !p.limited)
  }

  /** Its text needs no conversion, or converts to some text. */
  predicate Readable(m: Submit, p: S.Probes) {
    m.msgfmt == 11 || (p.converted.Some? && p.converted.value != "")
  }

  /** The text fits a template of the account and contains none of its keywords. */
  ghost predicate Permitted(text: string, config: Config) {
    && (config.options & 0x1 != 0 ==> exists k :: 0 <= k < |config.templates| && config.regex(config.templates[k], text))
    && (config.options & 0x2 != 0 ==> forall k :: 0 <= k < |config.keywords| ==> !S.Contains(text, config.keywords[k]))
  }

  /** What the filters decide about the message of this turn. */
  lemma FilterDecides(sv: Server, queues: map<int, seq<Item>>, p: S.Probes, at: Option<nat>)
    requires CanAct(sv, Filter(p, at))
    ensures var m, t := sv.pc.m, Acted(sv, queues, Filter(p, at));
            if !Admitted(m, p, sv.config.options) then t.results == sv.results + [Answered(S.Response(m.id, 7))]
            else if !Readable(m, p) then t.results == sv.results + [Answered(S.Response(m.id, 4))]
            else if !Permitted(if m.msgfmt == 11 then m.content else p.converted.value, sv.config)
            then t.results == sv.results + [Answered(S.Response(m.id, 7))]
            else t.results == sv.results && t.pc.Sending? && IsPrepared(m, p, t.pc.m)
  {
    var m, c := sv.pc.m, sv.config;
    DecidingActs(sv, queues, Filter(p, at));
    if at.None? {
      S.AllPassInWords(m, p, c.options, c.templates, c.keywords, c.regex);
      FilteredIsPrepared(sv, m, p);
    } else {
      S.FirstFailureInWords(m, p, c.options, c.templates, c.keywords, c.regex, at.value);
    }
    hide Acted, S.Stages, S.AllPass, S.IsFirstFailure, S.Contains;
  }

  /**
   In every run the filters decide about the message that was pulled, by the configuration of the server's start
   or last reload: it goes on, prepared, exactly when it is admitted, readable and permitted; otherwise it is
   answered with its own id, with 4 exactly when it is admitted but not readable, and else with 7.
   */
  lemma FiltersDecide(states: seq<State>, steps: seq<Step>, n: nat, i: nat)
    requires Run(states, steps) && n < |steps| && steps[n].Local? && steps[n].i == i && steps[n].act.Filter?
    ensures i < |Setups(steps[..n])| && i < |states[n].servers| == |states[n + 1].servers| && TurnsBy(steps[..n], i) != []
    ensures var turns, p, config := TurnsBy(steps[..n], i), steps[n].act.probes, Setups(steps[..n])[i].config;
            var m, was, t := turns[|turns| - 1].pulled, states[n].servers[i].results, states[n + 1].servers[i];
            if !Admitted(m, p, config.options) then t.results == was + [Answered(S.Response(m.id, 7))]
            else if !Readable(m, p) then t.results == was + [Answered(S.Response(m.id, 4))]
            else if !Permitted(if m.msgfmt == 11 then m.content else p.converted.value, config)
            then t.results == was + [Answered(S.Response(m.id, 7))]
            else t.results == was && t.pc.Sending? && IsPrepared(m, p, t.pc.m)
  {
    ServersFollowTheSteps(states, steps, n, i);
    assert states[n].servers[i].pc.Filtering?;
    TheMessageAtWorkIsTheLastPulled(states, steps, n, i);
    OwnIsNext(states[n], steps[n], i);
    FilterDecides(states[n].servers[i], states[n].queues, steps[n].act.probes, steps[n].act.at);
    hide TurnsBy, Setups, Next, Acted, CanAct, Admitted, Readable, Permitted, IsPrepared;
  }

  /**
   Each reload of server `i` while it schedules a message leaves channels that serve the message. All
   other reloads are free.
   */
  ghost predicate StaysServed(states: seq<State>, steps: seq<Step>, n: nat, i: nat) {
    n <= |steps| <= |states| &&
    forall j :: 0 <= j < n && steps[j].Reload? && steps[j].i == i && i < |states[j].servers| ==>
      var pc := states[j].servers[i].pc;
      pc.Sending? || pc.Waiting? ==> SomeServes(steps[j].channels, |steps[j].channels|, pc.m.phone)
  }

  lemma OwnStepKeepsBacked(s: State, step: Step, i: nat)
    requires ServersInv(s) && Enabled(s, step) && i < |s.servers| && Backed(s.servers[i]) && OfServer(step, i)
    requires var pc := s.servers[i].pc;
             step.Reload? && (pc.Sending? || pc.Waiting?) ==> SomeServes(step.channels, |step.channels|, pc.m.phone)
    ensures Backed(Own(s, step, i))
  {
    var sv := s.servers[i];
    assert Linked(sv) && OldOk(sv) && Fated(sv, AppendsBy(s.log, i)) by { assert Good(sv, AppendsBy(s.log, i)); }
    hide Acted, CanAct, Reconnected, Pushed, OldAppended, ServersInv, Linked, OldOk, Fated, Backed, SomeServes;
    match step
    case Local(_, act) => ActedKeepsBacked(sv, s.queues, act, AppendsBy(s.log, i));
    case Append(_) => PushedKeepsBacked(sv);
    case Reload(_, config, channels) =>
      if !sv.pc.Head? { KeptIsHeardAlike(OK, channels, sv.pc.m); }
      ReconnectedKeepsBacked(sv, config, channels, AppendsBy(s.log, i));
    case OldAppend(_, k) => OldAppendedKeepsBacked(sv, k);
    case ApplyBill(_, _) => AppliedKeepsBacked(sv);
  }

  lemma AppliedKeepsBacked(sv: Server)
    requires Backed(sv)
    ensures Backed(sv.(inHand := None))
  {
    assert forall m :: Settling(sv, m) ==> Settling(sv.(inHand := None), m);
  }

  lemma {:induction false} ServedKeepsBacked(states: seq<State>, steps: seq<Step>, n: nat, i: nat)
    requires Run(states, steps) && n < |states| && StaysServed(states, steps, n, i) && i < |states[n].servers|
    ensures Backed(states[n].servers[i])
  {
    assert n > 0;
    hide Next, Enabled, Backed, QueuesInv, BoundInv, MoneyInv, ServersInv, Own, SomeServes;
    var s, step := states[n - 1], steps[n - 1];
    if i < |s.servers| {
      ServedKeepsBacked(states, steps, n - 1, i);
      EveryStateIsGood(states, steps, n - 1);
      if OfServer(step, i) {
        OwnStepKeepsBacked(s, step, i);
        OwnIsNext(s, step, i);
      } else {
        OtherServersStay(s, step, i);
      }
    } else {
      JoinedIsFresh(s, step, i);
    }
  }

  lemma JoinedIsFresh(s: State, step: Step, i: nat)
    requires Enabled(s, step) && |s.servers| <= i < |Next(s, step).servers|
    ensures Backed(Next(s, step).servers[i]) && Repeated(Next(s, step).servers[i])
    ensures OneCompany(Next(s, step).servers[i])
  {
    hide Acted, CanAct, Reconnected;
  }

  /**
   While no reload takes away the channels of a message that is being scheduled: at the loop head every
   message that ever reached a queue, by whichever thread, is accepted and stored. None is refused.
   */
  lemma AppendedMessagesAreAccepted(states: seq<State>, steps: seq<Step>, n: nat, i: nat)
    requires Run(states, steps) && n < |states| && StaysServed(states, steps, n, i)
    requires i < |states[n].servers| && states[n].servers[i].pc.Head?
    ensures forall m :: m in AppendsBy(states[n].log, i) ==> m in KeptAll(AcceptedOf(states[n].servers[i].results))
  {
    hide Run, StaysServed;
    ServedKeepsBacked(states, steps, n, i);
    EveryMessageIsSettledOnce(states, steps, n, i);
  }

  /** Server `i` is reloaded only between two messages or while it filters one, never while it schedules one. */
  ghost predicate Calm(states: seq<State>, steps: seq<Step>, n: nat, i: nat) {
    n <= |steps| <= |states| &&
    forall j :: 0 <= j < n && steps[j].Reload? && steps[j].i == i && i < |states[j].servers| ==>
      !states[j].servers[i].pc.Sending? && !states[j].servers[i].pc.Waiting?
  }

  lemma ReloadKeepsRepeated(sv: Server, config: Config, channels: seq<Channel>)
    requires Linked(sv) && Repeated(sv) && !sv.pc.Sending? && !sv.pc.Waiting?
    ensures Repeated(Reconnected(sv, channels).(config := config))
  {
  }

  lemma NoOldAppendWhileRepeated(sv: Server, k: nat)
    requires Repeated(sv) && k < |sv.retired|
    ensures !sv.retired[k].link.Pushing?
  {
  }

  lemma OwnStepKeepsRepeated(s: State, step: Step, i: nat)
    requires ServersInv(s) && Enabled(s, step) && i < |s.servers| && Repeated(s.servers[i]) && OfServer(step, i)
    requires step.Reload? ==> !s.servers[i].pc.Sending? && !s.servers[i].pc.Waiting?
    ensures Repeated(Own(s, step, i))
  {
    var sv := s.servers[i];
    assert Linked(sv) && Fated(sv, AppendsBy(s.log, i)) by { assert Good(sv, AppendsBy(s.log, i)); }
    hide Acted, CanAct, Reconnected, Pushed, ServersInv, Linked, Fated;
    match step
    case Local(_, act) => ActedKeepsRepeated(sv, s.queues, act, AppendsBy(s.log, i));
    case Append(_) => PushedKeepsRepeated(sv);
    case Reload(_, config, channels) => ReloadKeepsRepeated(sv, config, channels);
    case OldAppend(_, k) => NoOldAppendWhileRepeated(sv, k);
    case ApplyBill(_, _) =>
  }

  lemma {:induction false} CalmKeepsRepeated(states: seq<State>, steps: seq<Step>, n: nat, i: nat)
    requires Run(states, steps) && n < |states| && Calm(states, steps, n, i) && i < |states[n].servers|
    ensures Repeated(states[n].servers[i])
  {
    assert n > 0;
    hide Next, Enabled, Repeated, QueuesInv, BoundInv, MoneyInv, ServersInv, Own;
    var s, step := states[n - 1], steps[n - 1];
    if i < |s.servers| {
      CalmKeepsRepeated(states, steps, n - 1, i);
      EveryStateIsGood(states, steps, n - 1);
      if OfServer(step, i) {
        OwnStepKeepsRepeated(s, step, i);
        OwnIsNext(s, step, i);
      } else {
        OtherServersStay(s, step, i);
      }
    } else {
      JoinedIsFresh(s, step, i);
    }
  }

  /**
   A remark on order. Unless a reload disturbs the server while it schedules a message, an append whose
   OK was lost is followed by another append of the same message, and in the end by its accepted one.
   */
  lemma CopiesAreNeighbours(states: seq<State>, steps: seq<Step>, n: nat, i: nat)
    requires Run(states, steps) && n < |states| && Calm(states, steps, n, i)
    requires i < |states[n].servers| && states[n].servers[i].pc.Head?
    ensures var fates := states[n].servers[i].fates;
            forall k :: 0 <= k < |fates| && fates[k].Lost? ==> k + 1 < |fates| && fates[k + 1].m == fates[k].m
  {
    hide Run, Calm;
    CalmKeepsRepeated(states, steps, n, i);
  }

  /**
   With one push thread for each start and each reload, and any number of test pushes, no gateway queue is
   longer than 127 plus both, however the tests and the appends of the threads interleave.
   */
  lemma QueuesAreBounded(states: seq<State>, steps: seq<Step>, n: nat, q: int)
    requires Run(states, steps) && n < |states| && q in states[n].queues
    ensures |states[n].queues[q]| <= 127 + Starts(steps[..n]) + TestsTo(steps[..n], q)
  {
    hide Run, ServersInv, QueuesInv, MoneyInv;
    EveryStateIsGood(states, steps, n);
    ServersFollowTheSteps(states, steps, n, 0);
    TestsFollowTheSteps(states, steps, n, q);
    assert Bounded(states[n], q);
    assert Contents(states[n], q) == states[n].queues[q];
  }

  /** What was ever appended to a queue is what was taken from it followed by what it holds. */
  lemma QueuesAreFifo(states: seq<State>, steps: seq<Step>, n: nat, q: int)
    requires Run(states, steps) && n < |states|
    ensures Only(states[n].log, q) == Only(states[n].taken, q) + Contents(states[n], q)
  {
    EveryStateIsGood(states, steps, n);
  }

  /**
   The reply codes mean what they say in every interleaving: NOROUTE is sent exactly to accounts
   without channels, REJECT exactly when no channel serves the phone, and OK only after the append of
   this very message.
   */
  lemma RepliesAreHonest(states: seq<State>, steps: seq<Step>, n: nat, i: nat)
    requires Run(states, steps) && n < |states| && i < |states[n].servers|
    requires states[n].servers[i].link.Replying?
    ensures var sv, sent := states[n].servers[i], AppendsBy(states[n].log, i);
            && sv.pc.Waiting? && Honest(sv.link.reply, sv.channels, sv.pc.m.phone)
            && sent == MessagesOf(sv.fates)
            && (sv.link.reply == OK <==> exists k :: 0 <= k < |sv.fates| && sv.fates[k].Pending?)
            && (sv.link.reply == OK ==> sv.last < |sent| && sent[sv.last] == Kept(sv.pc.m) && sv.fates[sv.last].Pending?)
  {
    EveryServerIsGood(states, steps, n, i);
    KeptIsHeardAlike(states[n].servers[i].link.reply, states[n].servers[i].channels, states[n].servers[i].pc.m);
    hide Run, Honest, ThreadOk;
  }

  ghost predicate WellBound(sv: Server, turns: seq<Turn>, queues: map<int, seq<Item>>) {
    && (sv.link.Pushing? ==>
          && sv.link.q in queues && sv.pc.Waiting? && sv.link.m == Kept(sv.pc.m)
          && turns != [] && Sends(turns[|turns| - 1], sv.link.m)
          && BoundFor(sv.channels, turns[|turns| - 1].pulled.phone, sv.link.q, sv.link.seen))
    && (forall k :: 0 <= k < |sv.retired| && sv.retired[k].link.Pushing? ==>
          var o := sv.retired[k];
          o.link.q in queues && OfSomeTurn(turns, o.link.m) && BoundFor(o.channels, o.link.m.phone, o.link.q, o.link.seen))
  }

  lemma GoodIsWellBound(sv: Server, appends: seq<Submit>, queues: map<int, seq<Item>>)
    requires Good(sv, appends) && Registered(sv, queues)
    ensures WellBound(sv, sv.turns, queues)
  {
    if sv.link.Pushing? {
      KeptIsSent(sv.turns[sv.toal - 1], sv.pc.m);
      KeptIsBoundAlike(sv.channels, sv.pc.m, sv.link.q, sv.link.seen);
    }
    hide BoundFor, OfSomeTurn, Sends, Honest, Ledger, Fated, Billed;
  }

  /**
   First-eligible routing in every interleaving: past the capacity test, the message pulled last is bound for a
   registered queue, of a channel that serves its phone, and every channel before it in the list was
   examined and did not serve the phone, or had no registered queue with room at that moment. For an
   old thread it is still a message that its server pulled.
   */
  lemma MessagesGoWhereTheyAreServed(states: seq<State>, steps: seq<Step>, n: nat, i: nat)
    requires Run(states, steps) && n < |states| && i < |states[n].servers|
    ensures WellBound(states[n].servers[i], TurnsBy(steps[..n], i), states[n].queues)
  {
    hide Run, Good, ServersInv, QueuesInv, MoneyInv, Registered, WellBound;
    EveryServerIsGood(states, steps, n, i);
    EveryStateIsGood(states, steps, n);
    ServersFollowTheSteps(states, steps, n, i);
    GoodIsWellBound(states[n].servers[i], AppendsBy(states[n].log, i), states[n].queues);
  }

  /** Queue `q` gets the message of account `i` at its end, and no other queue changes. */
  ghost predicate Gets(s: State, t: State, q: int, i: nat, m: Submit) {
    q in s.queues && t.queues == s.queues[q := s.queues[q] + [Item(Account(i), m)]]
  }

  /** In every run: an append puts the message pulled last at the end of the queue of a channel that serves its phone. */
  lemma AppendsLandWhereServed(states: seq<State>, steps: seq<Step>, n: nat, i: nat)
    requires Run(states, steps) && n < |steps| && steps[n] == Append(i)
    ensures i < |Setups(steps[..n])| && i < |states[n].servers| && TurnsBy(steps[..n], i) != []
    ensures var turns, m, channels := TurnsBy(steps[..n], i), states[n].servers[i].pc, Setups(steps[..n])[i].channels;
            && m.Waiting? && Sends(turns[|turns| - 1], Kept(m.m))
            && exists j :: 0 <= j < |channels| && Serves(channels[j], turns[|turns| - 1].pulled.phone)
                           && Gets(states[n], states[n + 1], channels[j].id, i, Kept(m.m))
  {
    MessagesGoWhereTheyAreServed(states, steps, n, i);
    ServersFollowTheSteps(states, steps, n, i);
    var sv := states[n].servers[i];
    assert Gets(states[n], states[n + 1], sv.channels[|sv.link.seen|].id, i, sv.link.m);
    hide Run, TurnsBy, Setups, Gets, Serves;
  }

  /** ... and an append of an old thread does so for a message of its server, by the channels of the thread's time. */
  lemma OldAppendsLandWhereServed(states: seq<State>, steps: seq<Step>, n: nat, i: nat, k: nat)
    requires Run(states, steps) && n < |steps| && steps[n] == OldAppend(i, k)
    ensures i < |states[n].servers| && k < |states[n].servers[i].retired|
    ensures var o := states[n].servers[i].retired[k];
            && Carries(o.link) && OfSomeTurn(TurnsBy(steps[..n], i), o.link.m)
            && exists j :: 0 <= j < |o.channels| && Serves(o.channels[j], o.link.m.phone)
                           && Gets(states[n], states[n + 1], o.channels[j].id, i, o.link.m)
  {
    MessagesGoWhereTheyAreServed(states, steps, n, i);
    var o := states[n].servers[i].retired[k];
    assert Gets(states[n], states[n + 1], o.channels[|o.link.seen|].id, i, o.link.m);
    hide Run, TurnsBy, Setups, Gets, Serves;
  }

  /** In every run a test push puts the test message at the end of the queue it names, with its strings cut and without an account. */
  lemma TestsLandWhereNamed(states: seq<State>, steps: seq<Step>, n: nat)
    requires Run(states, steps) && n < |steps| && steps[n].Test?
    ensures exists copy: Submit ::
              && IsCopy(copy.(account := steps[n].m.account, company := steps[n].m.company), steps[n].m)
              && copy.account == 0 && copy.company == 0
              && steps[n].q in states[n].queues
              && states[n + 1].queues == states[n].queues[steps[n].q := states[n].queues[steps[n].q] + [Item(Tester, copy)]]
  {
    var copy := KeptTest(steps[n].m);
    KeptIsTheCopy(copy.(account := steps[n].m.account, company := steps[n].m.company), steps[n].m);
    assert copy.(account := steps[n].m.account, company := steps[n].m.company) == Kept(steps[n].m);
  }

  /** The sum of `f` over the servers. */
  function Total(servers: seq<Server>, f: Server -> int): int {
    if servers == [] then 0 else Total(servers[..|servers| - 1], f) + f(servers[|servers| - 1])
  }

  /** Bills for company `c` that are queued or in a billing thread's hands. */
  function QueuedFor(c: int): Server -> int {
    (sv: Server) => Outstanding(sv, c)
  }

  /** Bills ever issued to company `c`. */
  function IssuedTo(c: int): Server -> int {
    (sv: Server) => SumTo(sv.issued, c)
  }

  lemma {:induction false} DueInTotals(servers: seq<Server>, c: int)
    ensures TotalDue(servers, c) == Total(servers, QueuedFor(c)) - Total(servers, IssuedTo(c))
  {
    if servers != [] {
      DueInTotals(servers[..|servers| - 1], c);
    }
  }

  /**
   For every company, after every step of every thread, reloads that move an account to another company
   included: balance, bills dropped on error and bills still queued add up to what the company had, what was
   paid in, and what was ever issued to it.
   */
  lemma MoneyIsConserved(states: seq<State>, steps: seq<Step>, n: nat, c: int)
    requires Run(states, steps) && n < |states|
    ensures var s := states[n];
            At(s.balance, c) + At(s.dropped, c) + Total(s.servers, QueuedFor(c)) ==
            At(states[0].balance, c) + Recharged(steps[..n], c) + Total(s.servers, IssuedTo(c))
  {
    hide Run, ServersInv, QueuesInv, BoundInv;
    EveryStateIsGood(states, steps, n);
    BalancesFollowTheSteps(states, steps, n, c);
    DueInTotals(states[n].servers, c);
  }

  /** What a server issued: -1 once for each accepted message, +1 once for each report with a status other than 1. */
  lemma BillsMatchMessages(states: seq<State>, steps: seq<Step>, n: nat, i: nat)
    requires Run(states, steps) && n < |states| && i < |states[n].servers|
    ensures var sv := states[n].servers[i];
            && sv.issued == BillsBy(steps[..n], i)
            && Charges(sv.issued) + (if sv.pc.Billing? then 1 else 0) == sv.sub == |AcceptedOf(sv.results)|
            && Sum(sv.issued) == FailedReports(steps[..n], i) - Charges(sv.issued)
  {
    hide Run, Linked, OldOk, Tally, Fated, Owned;
    EveryServerIsGood(states, steps, n, i);
    ServersFollowTheSteps(states, steps, n, i);
  }

  /** No reload moves an account to another company. */
  ghost predicate NobodyMoves(states: seq<State>, steps: seq<Step>) {
    |steps| <= |states| &&
    forall j :: 0 <= j < |steps| && steps[j].Reload? && steps[j].i < |states[j].servers| ==>
      steps[j].config.company == states[j].servers[steps[j].i].config.company
  }

  lemma OwnStepKeepsOneCompany(s: State, step: Step, i: nat)
    requires Enabled(s, step) && OfServer(step, i) && i < |s.servers| && OneCompany(s.servers[i])
    requires step.Reload? ==> step.config.company == s.servers[i].config.company
    ensures OneCompany(Own(s, step, i))
  {
    hide Acted, CanAct;
    if step.Local? {
      ActedKeepsOneCompany(s.servers[i], s.queues, step.act);
    }
  }

  lemma {:induction false} CompaniesStay(states: seq<State>, steps: seq<Step>, n: nat, i: nat)
    requires Run(states, steps) && NobodyMoves(states, steps) && n < |states| && i < |states[n].servers|
    ensures OneCompany(states[n].servers[i])
  {
    assert n > 0;
    hide Next, Enabled, OneCompany, Own;
    var s, step := states[n - 1], steps[n - 1];
    if i < |s.servers| {
      CompaniesStay(states, steps, n - 1, i);
      if OfServer(step, i) {
        OwnStepKeepsOneCompany(s, step, i);
        OwnIsNext(s, step, i);
      } else {
        OtherServersStay(s, step, i);
      }
    } else {
      JoinedIsFresh(s, step, i);
    }
  }

  /** A figure of the servers of company `c`. */
  function OfCompany(c: int, f: Server -> int): Server -> int {
    (sv: Server) => if sv.config.company == c then f(sv) else 0
  }

  const ACCEPTED: Server -> int := (sv: Server) => sv.sub

  /** The bill about to be queued. */
  const DUE_NEXT: Server -> int := (sv: Server) => if sv.pc.Billing? then 1 else 0

  /** Reports with a status other than 1 that the servers of company `c` received. */
  function FailedReportsOf(servers: seq<Server>, steps: seq<Step>, c: int): int {
    if servers == [] then 0
    else
      var front, i := servers[..|servers| - 1], |servers| - 1;
      FailedReportsOf(front, steps, c) + if servers[i].config.company == c then FailedReports(steps, i) else 0
  }

  lemma {:induction false} IssuedInMessages(servers: seq<Server>, steps: seq<Step>, c: int)
    requires forall i :: 0 <= i < |servers| ==>
               Billed(servers[i]) && OneCompany(servers[i]) && servers[i].refunds == FailedReports(steps, i)
    ensures Total(servers, IssuedTo(c)) ==
            FailedReportsOf(servers, steps, c) - Total(servers, OfCompany(c, ACCEPTED)) + Total(servers, OfCompany(c, DUE_NEXT))
  {
    hide FailedReports;
    if servers != [] {
      IssuedInMessages(servers[..|servers| - 1], steps, c);
      var sv := servers[|servers| - 1];
      assert Billed(sv) && OneCompany(sv);
      SumToOfOne(sv.issued, sv.config.company, c);
    }
  }

  /**
   So while nobody moves: balance, dropped bills, queued bills and the ones about to be queued add up to
   what the company had and what was paid in, less one for each accepted message of the company's servers, plus
   one for each report with a status other than 1.
   */
  lemma MoneyMatchesMessages(states: seq<State>, steps: seq<Step>, n: nat, c: int)
    requires Run(states, steps) && NobodyMoves(states, steps) && n < |states|
    ensures var s := states[n];
            At(s.balance, c) + At(s.dropped, c) + Total(s.servers, QueuedFor(c)) - Total(s.servers, OfCompany(c, DUE_NEXT)) ==
            At(states[0].balance, c) + Recharged(steps[..n], c)
              - Total(s.servers, OfCompany(c, ACCEPTED)) + FailedReportsOf(s.servers, steps[..n], c)
  {
    assert n <= |steps|;
    hide Run, NobodyMoves, Linked, OldOk, Books, Billed, OneCompany;
    MoneyIsConserved(states, steps, n, c);
    forall i | 0 <= i < |states[n].servers|
      ensures Billed(states[n].servers[i]) && OneCompany(states[n].servers[i])
              && states[n].servers[i].refunds == FailedReports(steps[..n], i)
    {
      EveryServerIsGood(states, steps, n, i);
      CompaniesStay(states, steps, n, i);
      ServersFollowTheSteps(states, steps, n, i);
    }
    IssuedInMessages(states[n].servers, steps[..n], c);
  }

  // ----- an undisturbed scan

  /** The examinations of one scan when no other thread changes a queue meanwhile. */
  ghost function QuietScan(l: Link, channels: seq<Channel>, queues: map<int, seq<Item>>): (r: Link)
    requires l.Scanning? && l.next <= |channels|
    ensures r.Scanning? ==> r.next == |channels|
    decreases |channels| - l.next
  {
    if l.next == |channels| then l
    else
      var r := Examined(l, channels, queues);
      if r.Scanning? then QuietScan(r, channels, queues) else r
  }

  ghost predicate HasRoom(c: Channel, phone: string, queues: map<int, seq<Item>>) {
    Serves(c, phone) && c.id in queues && |queues[c.id]| < CAPACITY
  }

  /** Undisturbed, the scan picks the first channel that serves the phone and has room. */
  lemma {:induction false} QuietScanPicksFirst(l: Link, channels: seq<Channel>, queues: map<int, seq<Item>>, first: nat)
    requires l.Scanning? && l.next <= first <= |channels|
    requires forall j :: l.next <= j < first ==> !HasRoom(channels[j], l.m.phone, queues)
    requires first < |channels| ==> HasRoom(channels[first], l.m.phone, queues)
    ensures var r := QuietScan(l, channels, queues);
            if first < |channels| then r.Pushing? && r.m == l.m && r.q == channels[first].id else r.Scanning?
    decreases |channels| - l.next
  {
    if l.next < first {
      QuietScanPicksFirst(Examined(l, channels, queues), channels, queues, first);
    }
  }

  /** The map of queues shows what the heap of module Routing holds. */
  ghost predicate Mirrors(gateway: seq<GatewayQueue>, queues: map<int, seq<Item>>)
    reads gateway
  {
    && (forall id :: id in queues <==> exists p :: IsQueueOf(gateway, id, p))
    && (forall id, p :: IsQueueOf(gateway, id, p) && id in queues ==> |queues[id]| == |gateway[p].items|)
  }

  /** An undisturbed scan, step by step, decides as `Routing.Route` does in one go. */
  lemma QuietScanIsRoute(gateway: seq<GatewayQueue>, channels: seq<Channel>, m: Submit, queues: map<int, seq<Item>>)
    requires Mirrors(gateway, queues)
    ensures var r := QuietScan(Scanning(m, 0, false, []), channels, queues);
            && (forall i, q :: IsTarget(gateway, channels, m.phone, i, q) ==> r.Pushing? && r.m == m && r.q == gateway[q].id)
            && ((forall i :: 0 <= i < |channels| ==> !Eligible(gateway, channels[i], m.phone)) ==> r.Scanning?)
  {
    var l := Scanning(m, 0, false, []);
    forall c ensures HasRoom(c, m.phone, queues) <==> Eligible(gateway, c, m.phone) {
      RoomIsEligible(gateway, c, m.phone, queues);
    }
    hide Eligible, HasRoom, QuietScan;
    if i, q :| IsTarget(gateway, channels, m.phone, i, q) {
      QuietScanPicksFirst(l, channels, queues, i);
      forall j, p | IsTarget(gateway, channels, m.phone, j, p) ensures j == i && p == q {
        TargetIsUnique(gateway, channels, m.phone, i, q, j, p);
      }
    } else if forall i :: 0 <= i < |channels| ==> !Eligible(gateway, channels[i], m.phone) {
      QuietScanPicksFirst(l, channels, queues, |channels|);
    }
  }

  lemma RoomIsEligible(gateway: seq<GatewayQueue>, c: Channel, phone: string, queues: map<int, seq<Item>>)
    requires Mirrors(gateway, queues)
    ensures HasRoom(c, phone, queues) <==> Eligible(gateway, c, phone)
  {
    if c.id in queues {
      var p :| IsQueueOf(gateway, c.id, p);
      assert forall q :: IsQueueOf(gateway, c.id, q) ==> q == p;
      assert Takes(gateway, c, phone, p) <==> HasRoom(c, phone, queues);
    } else {
      assert forall q :: !IsQueueOf(gateway, c.id, q);
    }
  }
}
