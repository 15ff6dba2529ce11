/**
 The routing decision of src/scheduler.c: the carrier test on the phone number, the scan of the
 account's weighted channels, and the append to a bounded gateway queue.
 */
module Routing {
  import opened Wrappers

  datatype Submit = Submit(id: nat, account: int, company: int, spid: string, spcode: string, phone: string,
                           msgfmt: int, content: string)

  datatype Channel = Channel(id: int, weight: int, operator: bv32)

  datatype Reply = OK | NOROUTE | REJECT | BUSY

  /** What a field of `n` characters keeps of a string. */
  function Cut(s: string, n: nat): string {
    if |s| <= n then s else s[..n]
  }

  /** The scheduler's copy of a message: the strings are cut to their fields. */
  function Kept(m: Submit): Submit {
    m.(spid := Cut(m.spid, 6), spcode := Cut(m.spcode, 20), phone := Cut(m.phone, 11))
  }

  /** A test message comes without an account. */
  function KeptTest(m: Submit): Submit {
    Kept(m).(account := 0, company := 0)
  }

  predicate IsStart(part: string, whole: string, n: nat) {
    part <= whole && |part| == if |whole| < n then |whole| else n
  }

  /** The same message, but for the ends of strings that are longer than 6, 20 and 11 characters. */
  predicate IsCopy(copy: Submit, m: Submit) {
    && copy.id == m.id && copy.account == m.account && copy.company == m.company
    && copy.msgfmt == m.msgfmt && copy.content == m.content
    && IsStart(copy.spid, m.spid, 6) && IsStart(copy.spcode, m.spcode, 20) && IsStart(copy.phone, m.phone, 11)
  }

  /** There is one copy, and cutting it again changes nothing. */
  lemma KeptIsTheCopy(copy: Submit, m: Submit)
    ensures IsCopy(copy, m) <==> copy == Kept(m)
    ensures Kept(Kept(m)) == Kept(m)
  {
    assert IsCopy(copy, m) ==> copy.spid == m.spid[..|copy.spid|] && copy.spcode == m.spcode[..|copy.spcode|]
                               && copy.phone == m.phone[..|copy.phone|];
  }

  const CAPACITY := 128

  const CMCC := ["134", "135", "136", "137", "138", "139", "147", "150", "151", "152",
                 "157", "158", "159", "178", "182", "183", "184", "187", "188", "198"]
  const CTCC := ["133", "149", "153", "173", "177", "180", "181", "189", "199"]
  const CUCC := ["130", "131", "132", "155", "156", "145", "175", "176", "185", "186", "166"]

  const CMCC_BIT: bv32 := 1
  const CTCC_BIT: bv32 := 2
  const CUCC_BIT: bv32 := 4
  const MVNO_BIT: bv32 := 8

  predicate SamePrefix(phone: string, code: string) {
    |phone| >= 3 && phone[..3] == code
  }

  ghost predicate Listed(table: seq<string>, phone: string) {
    exists i :: 0 <= i < |table| && SamePrefix(phone, table[i])
  }

  predicate Has(operator: bv32, bit: bv32) {
    operator & bit != 0
  }

  /** A channel serves a phone when it carries the phone's network, or any network at all. */
  ghost predicate Serves(channel: Channel, phone: string) {
    || Has(channel.operator, MVNO_BIT)
    || (Listed(CMCC, phone) && Has(channel.operator, CMCC_BIT))
    || (Listed(CTCC, phone) && Has(channel.operator, CTCC_BIT))
    || (Listed(CUCC, phone) && Has(channel.operator, CUCC_BIT))
  }

  /** One table: is the phone listed there, and does the channel carry that network? */
  method CheckTable(table: seq<string>, bit: bv32, channel: Channel, phone: string) returns (r: bool)
    ensures r <==> Listed(table, phone) && Has(channel.operator, bit)
  {
    for i := 0 to |table|
      invariant forall j :: 0 <= j < i ==> !(SamePrefix(phone, table[j]) && Has(channel.operator, bit))
    {
      if SamePrefix(phone, table[i]) {
        if Has(channel.operator, bit) {
          return true;
        }
      }
    }
    return false;
  }

  method CheckOperator(channel: Channel, phone: string) returns (r: bool)
    ensures r <==> Serves(channel, phone)
  {
    r := CheckTable(CMCC, CMCC_BIT, channel, phone);
    if !r {
      r := CheckTable(CTCC, CTCC_BIT, channel, phone);
    }
    if !r {
      r := CheckTable(CUCC, CUCC_BIT, channel, phone);
    }
    if !r {
      r := Has(channel.operator, MVNO_BIT);
    }
  }

  /** No number belongs to two networks. */
  lemma NetworksAreDisjoint(phone: string)
    ensures !(Listed(CMCC, phone) && Listed(CTCC, phone))
    ensures !(Listed(CMCC, phone) && Listed(CUCC, phone))
    ensures !(Listed(CTCC, phone) && Listed(CUCC, phone))
  {
  }

  /** China Mobile is bit 1, China Telecom bit 2, China Unicom bit 4; a channel with bit 8 carries any number, and only it an unlisted one. */
  lemma ServesByPrefix(c: Channel, phone: string)
    requires |phone| >= 3
    ensures phone[..3] in {"134", "135", "136", "137", "138", "139", "147", "150", "151", "152",
                           "157", "158", "159", "178", "182", "183", "184", "187", "188", "198"} ==>
              (Serves(c, phone) <==> c.operator & 1 != 0 || c.operator & 8 != 0)
    ensures phone[..3] in {"133", "149", "153", "173", "177", "180", "181", "189", "199"} ==>
              (Serves(c, phone) <==> c.operator & 2 != 0 || c.operator & 8 != 0)
    ensures phone[..3] in {"130", "131", "132", "145", "155", "156", "166", "175", "176", "185", "186"} ==>
              (Serves(c, phone) <==> c.operator & 4 != 0 || c.operator & 8 != 0)
  {
    ListedByPrefix(phone);
    NetworksAreDisjoint(phone);
    hide Listed;
  }

  lemma ListedByPrefix(phone: string)
    requires |phone| >= 3
    ensures Listed(CMCC, phone) <==> phone[..3] in {"134", "135", "136", "137", "138", "139", "147", "150", "151", "152",
                                                    "157", "158", "159", "178", "182", "183", "184", "187", "188", "198"}
    ensures Listed(CTCC, phone) <==> phone[..3] in {"133", "149", "153", "173", "177", "180", "181", "189", "199"}
    ensures Listed(CUCC, phone) <==> phone[..3] in {"130", "131", "132", "145", "155", "156", "166", "175", "176", "185", "186"}
  {
    ListedIsMember(CMCC, phone);
    ListedIsMember(CTCC, phone);
    ListedIsMember(CUCC, phone);
    hide Listed;
  }

  lemma ListedIsMember(table: seq<string>, phone: string)
    requires |phone| >= 3
    ensures Listed(table, phone) <==> phone[..3] in table
  {
    if phone[..3] in table {
      var i :| 0 <= i < |table| && table[i] == phone[..3];
      assert SamePrefix(phone, table[i]);
    }
  }

  /** Every other number is carried by bit 8 alone. */
  lemma UnlistedNeedsBit8(c: Channel, phone: string)
    requires |phone| < 3 || (phone[..3] !in CMCC && phone[..3] !in CTCC && phone[..3] !in CUCC)
    ensures Serves(c, phone) <==> c.operator & 8 != 0
  {
  }

  /** The end of a long number does not count. */
  lemma KeptIsServedAlike(c: Channel, m: Submit)
    ensures Serves(c, Kept(m).phone) <==> Serves(c, m.phone)
  {
    assert |m.phone| >= 3 ==> Kept(m).phone[..3] == m.phone[..3];
  }

  class GatewayQueue {
    const id: int
    var items: seq<Submit>

    constructor (id: int)
      ensures this.id == id && items == []
    {
      this.id, items := id, [];
    }
  }

  /** The first registered queue with an id. */
  ghost predicate IsQueueOf(gateway: seq<GatewayQueue>, id: int, q: int) {
    0 <= q < |gateway| && gateway[q].id == id && forall p :: 0 <= p < q ==> gateway[p].id != id
  }

  method FindQueue(gateway: seq<GatewayQueue>, id: int) returns (q: Option<GatewayQueue>)
    ensures q == None ==> forall p :: 0 <= p < |gateway| ==> gateway[p].id != id
    ensures q.Some? ==> exists p :: IsQueueOf(gateway, id, p) && q.value == gateway[p]
  {
    for p := 0 to |gateway|
      invariant forall j :: 0 <= j < p ==> gateway[j].id != id
    {
      if gateway[p].id == id {
        assert IsQueueOf(gateway, id, p);
        return Some(gateway[p]);
      }
    }
    return None;
  }

  /** Channel `c` can take the message: it serves the phone and its queue is registered with room. */
  ghost predicate Takes(gateway: seq<GatewayQueue>, c: Channel, phone: string, q: int)
    reads gateway
  {
    Serves(c, phone) && IsQueueOf(gateway, c.id, q) && |gateway[q].items| < CAPACITY
  }

  ghost predicate Eligible(gateway: seq<GatewayQueue>, c: Channel, phone: string)
    reads gateway
  {
    exists q :: Takes(gateway, c, phone, q)
  }

  ghost predicate IsFirstEligible(gateway: seq<GatewayQueue>, channels: seq<Channel>, phone: string, i: int)
    reads gateway
  {
    && 0 <= i < |channels|
    && Eligible(gateway, channels[i], phone)
    && forall j :: 0 <= j < i ==> !Eligible(gateway, channels[j], phone)
  }

  /** The queue that the message goes to: the one of the first eligible channel. */
  ghost predicate IsTarget(gateway: seq<GatewayQueue>, channels: seq<Channel>, phone: string, i: int, q: int)
    reads gateway
  {
    IsFirstEligible(gateway, channels, phone, i) && Takes(gateway, channels[i], phone, q)
  }

  /** There is one target at most. */
  lemma TargetIsUnique(gateway: seq<GatewayQueue>, channels: seq<Channel>, phone: string, i: int, q: int, j: int, p: int)
    requires IsTarget(gateway, channels, phone, i, q) && IsTarget(gateway, channels, phone, j, p)
    ensures i == j && q == p
  {
  }

  /**
   One submit, with no other thread running: the reply code and the append. The message goes to the
   queue of the first eligible channel in list order, with its strings cut to their fields, and no other queue
   changes.
   */
  method Route(channels: seq<Channel>, message: Submit, gateway: seq<GatewayQueue>) returns (reply: Reply)
    modifies gateway
    ensures reply == OK <==> exists i :: 0 <= i < |channels| && old(Eligible(gateway, channels[i], message.phone))
    ensures reply == NOROUTE <==> channels == []
    ensures reply == REJECT <==>
              channels != [] && forall i :: 0 <= i < |channels| ==> !Serves(channels[i], message.phone)
    ensures reply != OK ==> forall x :: x in gateway ==> x.items == old(x.items)
    ensures reply == OK ==> exists i, q :: old(IsTarget(gateway, channels, message.phone, i, q))
    ensures reply == OK ==> forall i, q :: old(IsTarget(gateway, channels, message.phone, i, q)) ==>
              && gateway[q].items == old(gateway[q].items) + [Kept(message)]
              && (forall x :: x in gateway && x != gateway[q] ==> x.items == old(x.items))
  {
    var available, operator, province, completed := false, false, false, false;
    var kept := Kept(message);
    var phone := message.phone;
    for i := 0 to |channels|
      invariant available <==> i > 0
      invariant operator <==> exists j :: 0 <= j < i && Serves(channels[j], phone)
      invariant province == operator && !completed
      invariant unchanged(gateway)
      invariant forall j :: 0 <= j < i ==> !old(Eligible(gateway, channels[j], phone))
    {
      available := true;
      var serves := CheckOperator(channels[i], kept.phone);
      KeptIsServedAlike(channels[i], message);
      if serves {
        operator := true;
        province := true; // the province test of the source always succeeds
        var found := FindQueue(gateway, channels[i].id);
        if found.Some? && |found.value.items| < CAPACITY {
          ghost var q :| IsQueueOf(gateway, channels[i].id, q) && found.value == gateway[q];
          assert old(Takes(gateway, channels[i], phone, q));
          assert old(IsTarget(gateway, channels, phone, i, q));
          forall j, p | old(IsTarget(gateway, channels, phone, j, p)) ensures p == q {
            TargetIsUnique(gateway, channels, phone, i, q, j, p);
          }
          completed := true;
          found.value.items := found.value.items + [kept];
          break;
        }
      }
    }
    if completed {
      reply := OK;
    } else if !available {
      reply := NOROUTE;
    } else if !operator || !province {
      reply := REJECT;
    } else {
      reply := BUSY;
    }
  }

  /** A test message names its gateway and is appended whatever the length of the queue. */
  method TestPush(channel: int, message: Submit, gateway: seq<GatewayQueue>) returns (reply: Reply)
    modifies gateway
    ensures reply == OK || reply == NOROUTE
    ensures reply == OK <==> exists q :: IsQueueOf(gateway, channel, q)
    ensures forall q :: IsQueueOf(gateway, channel, q) ==> gateway[q].items == old(gateway[q].items) + [KeptTest(message)]
    ensures forall x :: x in gateway && x.id != channel ==> x.items == old(x.items)
  {
    var found := FindQueue(gateway, channel);
    if found.Some? {
      found.value.items := found.value.items + [KeptTest(message)];
      return OK;
    }
    return NOROUTE;
  }
}
