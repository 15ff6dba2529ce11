/**
 The account servers and the scheduler as one protocol. A state holds any number of servers, each
 with the push thread that serves its connection, the gateway queues, and the company balances.
 Steps of different threads interleave freely; the capacity test of a push thread and its append
 are two steps. A reply may be lost on its way, and then the server sends the message again. A reload
 may come at any moment: it replaces the connection, and the old push thread finishes what it has in
 hand. Every allocation succeeds.

 `seen` in a link, and fields named `log`, `taken`, `turns`, `results`, `fates`, `last` (the position in `fates` of
 the append whose reply is awaited) and `issued` are histories: no step reads them.
 */
module ProtocolSteps {
  import opened Wrappers
  import opened Routing
  import S = Server

  datatype Source = Account(i: nat) | Tester

  datatype Item = Item(source: Source, m: Submit)

  datatype Appended = Appended(q: int, item: Item)

  datatype Bill = Bill(company: int, money: int)

  /** Where the work thread is. */
  datatype Pc = Head | Filtering(m: Submit) | Sending(m: Submit) | Waiting(m: Submit) | Billing(m: Submit) | Storing(m: Submit)

  /** The push thread and the two ends of its connection. `operator` is the flag of the scan. */
  datatype Link =
    | Idle
    | Arrived(m: Submit)
    | Scanning(m: Submit, next: nat, operator: bool, seen: seq<Option<nat>>)
    | Pushing(m: Submit, q: int, seen: seq<Option<nat>>)
    | Replying(reply: Reply)

  /** A message that was pulled, and what the probes said when it passed the filters. */
  datatype Turn = Turn(pulled: Submit, passed: Option<S.Probes>)

  /** How a pulled message ended. */
  datatype Result = Accepted(m: Submit) | Answered(response: S.Response)

  /** A push thread whose connection was replaced; idle when it has nothing left to do. */
  datatype OldThread = OldThread(link: Link, channels: seq<Channel>)

  /** What became of the OK reply to an append. */
  datatype Fate = Pending(m: Submit) | Seen(m: Submit) | Lost(m: Submit)

  datatype Config = Config(account: int, company: int, options: bv32, templates: seq<string>, keywords: seq<string>,
                           regex: (string, string) -> bool)

  datatype Server = Server(
    config: Config, channels: seq<Channel>, pc: Pc, link: Link, retired: seq<OldThread>,
    toal: nat, sub: nat, direct: seq<S.Response>, storage: seq<Submit>,
    billing: seq<Bill>, inHand: Option<Bill>, refunds: nat,
    turns: seq<Turn>, results: seq<Result>, fates: seq<Fate>, last: nat, issued: seq<Bill>)

  datatype State = State(
    servers: seq<Server>, started: nat, queues: map<int, seq<Item>>,
    balance: map<int, int>, funded: map<int, int>, dropped: map<int, int>,
    log: seq<Appended>, taken: seq<Appended>)

  /** What a push thread does before it appends. */
  datatype Move = Receive | Examine | Finish

  /** A step of one server or of a push thread of it that changes nothing shared. */
  datatype Act =
    | Pull(m: Submit)
    | Filter(probes: S.Probes, at: Option<nat>)
    | Send | GetReply | LoseReply
    | Thread(move: Move)
    | Old(k: nat, move: Move)
    | PushBill | Store | Report(status: int) | TakeBill

  datatype Step =
    | Local(i: nat, act: Act)
    | Append(i: nat)
    | OldAppend(i: nat, k: nat)
    | ApplyBill(i: nat, ok: bool)
    | Reload(i: nat, config: Config, channels: seq<Channel>)
    | Join(config: Config, channels: seq<Channel>)
    | Register(q: int)
    | Take(q: int)
    | Test(q: int, m: Submit)
    | Recharge(company: int, amount: int)

  function At(m: map<int, int>, k: int): int {
    if k in m then m[k] else 0
  }

  function Fresh(config: Config, channels: seq<Channel>): Server {
    Server(config, channels, Head, Idle, [], 0, 0, [], [], [], None, 0, [], [], [], 0, [])
  }

  // ----- steps of one server

  ghost function StagesOf(sv: Server, m: Submit, p: S.Probes): seq<S.Stage> {
    S.Stages(m, p, sv.config.options, sv.config.templates, sv.config.keywords, sv.config.regex)
  }

  predicate CanMove(l: Link, channels: seq<Channel>, move: Move) {
    match move
    case Receive => l.Arrived?
    case Examine => l.Scanning? && l.next < |channels|
    case Finish => l.Scanning? && l.next == |channels|
  }

  ghost predicate CanAct(sv: Server, act: Act) {
    match act
    case Pull(_) => sv.pc.Head?
    case Filter(p, at) =>
      sv.pc.Filtering? && (if at.Some? then S.IsFirstFailure(StagesOf(sv, sv.pc.m, p), at.value)
                           else S.AllPass(StagesOf(sv, sv.pc.m, p)))
    case Send => sv.pc.Sending? && sv.link.Idle?
    case Thread(move) => CanMove(sv.link, sv.channels, move)
    case Old(k, move) => k < |sv.retired| && CanMove(sv.retired[k].link, sv.retired[k].channels, move)
    case GetReply => sv.pc.Waiting? && sv.link.Replying?
    case LoseReply => sv.pc.Waiting? && sv.link.Replying?
    case PushBill => sv.pc.Billing?
    case Store => sv.pc.Storing?
    case Report(_) => true
    case TakeBill => sv.billing != [] && sv.inHand.None?
  }

  /** The length of a queue at this moment, if it is registered. */
  function Look(queues: map<int, seq<Item>>, q: int): Option<nat> {
    if q in queues then Some(|queues[q]|) else None
  }

  /** The test of one channel; the queue length is the one at this moment. */
  ghost function Examined(l: Link, channels: seq<Channel>, queues: map<int, seq<Item>>): Link
    requires l.Scanning? && l.next < |channels|
  {
    var c := channels[l.next];
    var look := Look(queues, c.id);
    if !Serves(c, l.m.phone) then Scanning(l.m, l.next + 1, l.operator, l.seen + [look])
    else if look.Some? && look.value < CAPACITY then Pushing(l.m, c.id, l.seen)
    else Scanning(l.m, l.next + 1, true, l.seen + [look])
  }

  /** The reply at the end of a scan that found no room. */
  function Verdict(l: Link): Reply
    requires l.Scanning?
  {
    if l.next == 0 then NOROUTE else if !l.operator then REJECT else BUSY
  }

  ghost function Moved(l: Link, channels: seq<Channel>, queues: map<int, seq<Item>>, move: Move): Link
    requires CanMove(l, channels, move)
  {
    match move
    case Receive => Scanning(Kept(l.m), 0, false, [])
    case Examine => Examined(l, channels, queues)
    case Finish => Replying(Verdict(l))
  }

  /** The reply of an old thread goes nowhere. */
  function Unheard(l: Link): Link {
    if l.Replying? then Idle else l
  }

  function Mark(fates: seq<Fate>, k: nat, f: Fate): seq<Fate> {
    if k < |fates| then fates[k := f] else fates
  }

  /** The last turn passes the filters. */
  function Passing(turns: seq<Turn>, p: S.Probes): seq<Turn> {
    if turns == [] then [] else turns[|turns| - 1 := turns[|turns| - 1].(passed := Some(p))]
  }

  function Answer(sv: Server, code: int): Server
    requires sv.pc.Filtering? || sv.pc.Waiting?
  {
    var r := S.Response(sv.pc.m.id, code);
    sv.(pc := Head, link := Idle, direct := sv.direct + [r], results := sv.results + [Answered(r)])
  }

  function Confirm(sv: Server): Server
    requires sv.pc.Waiting?
  {
    sv.(pc := Billing(sv.pc.m), link := Idle, sub := sv.sub + 1,
        results := sv.results + [Accepted(sv.pc.m)], fates := Mark(sv.fates, sv.last, Seen(Kept(sv.pc.m))))
  }

  /** The message is sent again, whatever the reply was. */
  function Lose(sv: Server): Server
    requires sv.pc.Waiting? && sv.link.Replying?
  {
    sv.(pc := Sending(sv.pc.m), link := Idle,
        fates := if sv.link.reply == OK then Mark(sv.fates, sv.last, Lost(Kept(sv.pc.m))) else sv.fates)
  }

  /** The connection is replaced; a message in transit will be sent again on the new one. */
  function Reconnected(sv: Server, channels: seq<Channel>): Server {
    var t := if sv.pc.Waiting? && sv.link.Replying? then Lose(sv)
             else if sv.pc.Waiting? then sv.(pc := Sending(sv.pc.m), link := Idle) else sv;
    t.(channels := channels, retired := sv.retired + [OldThread(Unheard(sv.link), sv.channels)])
  }

  /** Issuing a bill of the server's own company. */
  function Issued(sv: Server, money: int): Server {
    var b := Bill(sv.config.company, money);
    sv.(billing := sv.billing + [b], issued := sv.issued + [b])
  }

  ghost function Acted(sv: Server, queues: map<int, seq<Item>>, act: Act): Server
    requires CanAct(sv, act)
  {
    match act
    case Pull(m) => sv.(pc := Filtering(m), toal := sv.toal + 1, turns := sv.turns + [Turn(m, None)])
    case Filter(p, at) =>
      if at.Some? then Answer(sv, StagesOf(sv, sv.pc.m, p)[at.value].code)
      else sv.(pc := Sending(sv.pc.m.(content := S.Text(sv.pc.m, p), msgfmt := 11)), turns := Passing(sv.turns, p))
    case Send => sv.(pc := Waiting(sv.pc.m), link := Arrived(sv.pc.m))
    case Thread(move) => sv.(link := Moved(sv.link, sv.channels, queues, move))
    case Old(k, move) =>
      var o := sv.retired[k];
      sv.(retired := sv.retired[k := o.(link := Unheard(Moved(o.link, o.channels, queues, move)))])
    case GetReply =>
      (match sv.link.reply
       case OK => Confirm(sv)
       case BUSY => sv.(pc := Sending(sv.pc.m), link := Idle)
       case NOROUTE => Answer(sv, 4)
       case REJECT => Answer(sv, 7))
    case LoseReply => Lose(sv)
    case PushBill =>
      Issued(sv, -1).(pc := Storing(sv.pc.m))
    case Store => sv.(pc := Head, storage := sv.storage + [S.Copy(sv.pc.m, sv.config.account, sv.config.company)])
    case Report(status) =>
      if status != 1 then Issued(sv, 1).(refunds := sv.refunds + 1) else sv
    case TakeBill => sv.(billing := sv.billing[1..], inHand := Some(sv.billing[0]))
  }

  // ----- steps of the system

  ghost predicate Initial(s: State) {
    && s.servers == [] && s.started == 0 && s.queues == map[] && s.log == [] && s.taken == []
    && s.dropped == map[] && s.balance == s.funded
  }

  ghost predicate Enabled(s: State, step: Step) {
    match step
    case Local(i, act) => i < |s.servers| && CanAct(s.servers[i], act)
    case Append(i) => i < |s.servers| && s.servers[i].link.Pushing? && s.servers[i].link.q in s.queues
    case OldAppend(i, k) =>
      i < |s.servers| && k < |s.servers[i].retired| && s.servers[i].retired[k].link.Pushing? && s.servers[i].retired[k].link.q in s.queues
    case ApplyBill(i, _) => i < |s.servers| && s.servers[i].inHand.Some?
    case Reload(i, _, _) => i < |s.servers|
    case Join(_, _) => true
    case Register(q) => q !in s.queues
    case Take(q) => q in s.queues && s.queues[q] != []
    case Test(q, _) => q in s.queues
    case Recharge(_, _) => true
  }

  function PushedItem(s: State, q: int, item: Item): State
    requires q in s.queues
  {
    s.(queues := s.queues[q := s.queues[q] + [item]], log := s.log + [Appended(q, item)])
  }

  function Pushed(sv: Server): Server
    requires sv.link.Pushing?
  {
    sv.(link := Replying(OK), fates := sv.fates + [Pending(sv.link.m)], last := |sv.fates|)
  }

  /** Nobody will hear that this append succeeded. */
  function OldAppended(sv: Server, k: nat): Server
    requires k < |sv.retired| && sv.retired[k].link.Pushing?
  {
    sv.(retired := sv.retired[k := sv.retired[k].(link := Idle)], fates := sv.fates + [Lost(sv.retired[k].link.m)])
  }

  ghost function Next(s: State, step: Step): State
    requires Enabled(s, step)
  {
    match step
    case Local(i, act) => s.(servers := s.servers[i := Acted(s.servers[i], s.queues, act)])
    case Append(i) =>
      var sv := s.servers[i];
      PushedItem(s, sv.link.q, Item(Account(i), sv.link.m)).(servers := s.servers[i := Pushed(sv)])
    case OldAppend(i, k) =>
      var o := s.servers[i].retired[k];
      PushedItem(s, o.link.q, Item(Account(i), o.link.m)).(servers := s.servers[i := OldAppended(s.servers[i], k)])
    case ApplyBill(i, ok) =>
      var sv := s.servers[i];
      var b := sv.inHand.value;
      var t := s.(servers := s.servers[i := sv.(inHand := None)]);
      if ok then t.(balance := s.balance[b.company := At(s.balance, b.company) + b.money])
      else t.(dropped := s.dropped[b.company := At(s.dropped, b.company) + b.money])
    case Reload(i, config, channels) =>
      s.(servers := s.servers[i := Reconnected(s.servers[i], channels).(config := config)], started := s.started + 1)
    case Join(config, channels) => s.(servers := s.servers + [Fresh(config, channels)], started := s.started + 1)
    case Register(q) => s.(queues := s.queues[q := []])
    case Take(q) => s.(queues := s.queues[q := s.queues[q][1..]], taken := s.taken + [Appended(q, s.queues[q][0])])
    case Test(q, m) => PushedItem(s, q, Item(Tester, KeptTest(m)))
    case Recharge(c, amount) =>
      s.(balance := s.balance[c := At(s.balance, c) + amount], funded := s.funded[c := At(s.funded, c) + amount])
  }

  ghost predicate Run(states: seq<State>, steps: seq<Step>) {
    && |states| == |steps| + 1
    && Initial(states[0])
    && forall i :: 0 <= i < |steps| ==> Enabled(states[i], steps[i]) && states[i + 1] == Next(states[i], steps[i])
  }

  // ----- what the histories say

  /** The messages of account `i` that were ever appended to a gateway queue, in order. */
  function AppendsBy(log: seq<Appended>, i: nat): seq<Submit> {
    if log == [] then []
    else
      var before, last := AppendsBy(log[..|log| - 1], i), log[|log| - 1].item;
      if last.source == Account(i) then before + [last.m] else before
  }

  /** Everything appended to (or taken from) one queue, in order. */
  function Only(log: seq<Appended>, q: int): seq<Item> {
    if log == [] then []
    else
      var before, last := Only(log[..|log| - 1], q), log[|log| - 1];
      if last.q == q then before + [last.item] else before
  }

  function AcceptedOf(results: seq<Result>): seq<Submit> {
    if results == [] then []
    else
      var before, last := AcceptedOf(results[..|results| - 1]), results[|results| - 1];
      if last.Accepted? then before + [last.m] else before
  }

  /** What the scheduler keeps of each message. */
  function KeptAll(ms: seq<Submit>): seq<Submit> {
    seq(|ms|, k requires 0 <= k < |ms| => Kept(ms[k]))
  }

  function SeenOf(fates: seq<Fate>): seq<Submit> {
    if fates == [] then []
    else
      var before, last := SeenOf(fates[..|fates| - 1]), fates[|fates| - 1];
      if last.Seen? then before + [last.m] else before
  }

  function MessagesOf(fates: seq<Fate>): seq<Submit> {
    seq(|fates|, k requires 0 <= k < |fates| => fates[k].m)
  }

  function Losses(fates: seq<Fate>): nat {
    if fates == [] then 0 else Losses(fates[..|fates| - 1]) + if fates[|fates| - 1].Lost? then 1 else 0
  }

  function AnsweredOf(results: seq<Result>): seq<S.Response> {
    if results == [] then []
    else
      var before, last := AnsweredOf(results[..|results| - 1]), results[|results| - 1];
      if last.Answered? then before + [last.response] else before
  }

  /** The number of test pushes in a queue's history. */
  function Tests(items: seq<Item>): nat {
    if items == [] then 0 else Tests(items[..|items| - 1]) + if items[|items| - 1].source.Tester? then 1 else 0
  }

  function Charges(bills: seq<Bill>): nat {
    if bills == [] then 0 else Charges(bills[..|bills| - 1]) + if bills[|bills| - 1].money == -1 then 1 else 0
  }

  function Sum(bills: seq<Bill>): int {
    if bills == [] then 0 else Sum(bills[..|bills| - 1]) + bills[|bills| - 1].money
  }

  lemma LogOfLast(log: seq<Appended>, x: Appended)
    ensures forall i :: AppendsBy(log + [x], i) == AppendsBy(log, i) + if x.item.source == Account(i) then [x.item.m] else []
    ensures forall q :: Only(log + [x], q) == Only(log, q) + if x.q == q then [x.item] else []
  {
  }

  /** Seen and lost together are all; with nothing lost, the messages are the seen ones. */
  lemma {:induction false} FatesAddUp(fates: seq<Fate>)
    requires forall k :: 0 <= k < |fates| ==> !fates[k].Pending?
    ensures |fates| == |SeenOf(fates)| + Losses(fates)
    ensures Losses(fates) == 0 ==> MessagesOf(fates) == SeenOf(fates)
  {
    if fates != [] {
      FatesAddUp(fates[..|fates| - 1]);
    }
  }

  /** The one pending append becomes a seen or a lost one. */
  lemma {:induction false} FatesOfMark(fates: seq<Fate>, k: nat, f: Fate)
    requires k < |fates| && fates[k].Pending? && f == (if f.Seen? then Seen(fates[k].m) else Lost(fates[k].m))
    requires forall j :: k < j < |fates| ==> fates[j].Lost?
    ensures SeenOf(Mark(fates, k, f)) == SeenOf(fates) + if f.Seen? then [f.m] else []
    ensures MessagesOf(Mark(fates, k, f)) == MessagesOf(fates)
    ensures Losses(Mark(fates, k, f)) == Losses(fates) + if f.Lost? then 1 else 0
  {
    var front := fates[..|fates| - 1];
    if k < |front| {
      FatesOfMark(front, k, f);
      assert fates[k := f][..|front|] == front[k := f];
    } else {
      assert fates[k := f][..|front|] == front;
    }
  }

  lemma FatesOfLast(fates: seq<Fate>, f: Fate)
    ensures SeenOf(fates + [f]) == SeenOf(fates) + if f.Seen? then [f.m] else []
    ensures MessagesOf(fates + [f]) == MessagesOf(fates) + [f.m]
    ensures Losses(fates + [f]) == Losses(fates) + if f.Lost? then 1 else 0
  {
    assert (fates + [f])[..|fates|] == fates;
  }

  lemma TestsOfLast(items: seq<Item>, x: Item)
    ensures Tests(items + [x]) == Tests(items) + if x.source.Tester? then 1 else 0
  {
  }

  /** The bills of one company. */
  function SumTo(bills: seq<Bill>, c: int): int {
    if bills == [] then 0
    else SumTo(bills[..|bills| - 1], c) + if bills[|bills| - 1].company == c then bills[|bills| - 1].money else 0
  }

  lemma {:induction false} SumToOfFirst(bills: seq<Bill>, c: int)
    requires bills != []
    ensures SumTo(bills, c) == SumTo(bills[1..], c) + if bills[0].company == c then bills[0].money else 0
  {
    if |bills| > 1 {
      SumToOfFirst(bills[..|bills| - 1], c);
      assert bills[..|bills| - 1][1..] == bills[1..][..|bills| - 2];
    }
  }

  lemma {:induction false} SumToOfOne(bills: seq<Bill>, company: int, c: int)
    requires forall k :: 0 <= k < |bills| ==> bills[k].company == company
    ensures SumTo(bills, c) == if c == company then Sum(bills) else 0
  {
    if bills != [] {
      SumToOfOne(bills[..|bills| - 1], company, c);
    }
  }
}
