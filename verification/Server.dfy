/**
 One turn of the work thread of src/server.c: the ordered filters, the resends to the scheduler,
 the bill and the stored copy. Redis verdicts, the code conversion and the regular expression test
 are parameters; the whole process over many threads is in module Protocol.
 */
module Server {
  import opened Wrappers
  import opened Routing

  datatype Counter = Fmt | Blk | Usb | Limt | Tmp | Key | Rejt

  datatype Status = Status(toal: nat, sub: nat, of: map<Counter, nat>) {
    function Count(c: Counter): nat { if c in of then of[c] else 0 }

    function Plus(c: Counter): Status { this.(of := of[c := Count(c) + 1]) }
  }

  /** What the stores and libraries say about one message. */
  datatype Probes = Probes(blacklisted: bool, unsubscribed: bool, limited: bool, converted: Option<string>)

  datatype Response = Response(id: nat, code: int)

  /** One attempt at the scheduler: not sent, sent without an answer, or answered. */
  datatype Attempt = NotSent | NoAnswer | Answer(reply: Reply)

  predicate Final(a: Attempt) {
    a.Answer? && a.reply != BUSY
  }

  predicate Enabled(options: bv32, bit: bv32) {
    options & bit != 0
  }

  /** `strstr` */
  predicate Contains(s: string, part: string) {
    exists i :: 0 <= i <= |s| - |part| && IsPartAt(s, part, i)
  }

  predicate IsPartAt(s: string, part: string, i: nat)
    requires i <= |s| - |part|
  {
    s[i..i + |part|] == part
  }

  ghost predicate MatchesSome(templates: seq<string>, text: string, regex: (string, string) -> bool) {
    exists i :: 0 <= i < |templates| && regex(templates[i], text)
  }

  ghost predicate ContainsSome(keywords: seq<string>, text: string) {
    exists i :: 0 <= i < |keywords| && Contains(text, keywords[i])
  }

  /** A filter: when it fails, its counter is raised and the sender is answered with its code. */
  datatype Stage = Stage(fails: bool, counter: Counter, code: int)

  /** The filters in their order. Content filters see the converted text. */
  ghost function Stages(m: Submit, p: Probes, options: bv32, templates: seq<string>, keywords: seq<string>,
                        regex: (string, string) -> bool): seq<Stage>
  {
    var text := Text(m, p);
    [ Stage(m.msgfmt !in {0, 8, 11, 15}, Fmt, 7),
      Stage(Enabled(options, 16) && p.blacklisted, Blk, 7),
      Stage(Enabled(options, 8) && p.unsubscribed, Usb, 7),
      Stage(Enabled(options, 4) && p.limited, Limt, 7),
      Stage(m.msgfmt != 11 && (p.converted.None? || p.converted.value == ""), Fmt, 4),
      Stage(Enabled(options, 1) && !MatchesSome(templates, text, regex), Tmp, 7),
      Stage(Enabled(options, 2) && ContainsSome(keywords, text), Key, 7) ]
  }

  lemma StageCodes(m: Submit, p: Probes, options: bv32, templates: seq<string>, keywords: seq<string>,
                   regex: (string, string) -> bool)
    ensures forall i :: 0 <= i < |Stages(m, p, options, templates, keywords, regex)| ==>
              Stages(m, p, options, templates, keywords, regex)[i].code in {4, 7}
  {
  }

  /** The order of the filters, their counters and their codes, by the bits of the account's options. */
  lemma FirstFailureInWords(m: Submit, p: Probes, options: bv32, templates: seq<string>, keywords: seq<string>,
                            regex: (string, string) -> bool, i: int)
    requires IsFirstFailure(Stages(m, p, options, templates, keywords, regex), i)
    ensures var x := Stages(m, p, options, templates, keywords, regex)[i];
            var text := if m.msgfmt == 11 || p.converted.None? then m.content else p.converted.value;
            if m.msgfmt != 0 && m.msgfmt != 8 && m.msgfmt != 11 && m.msgfmt != 15 then x.counter == Fmt && x.code == 7
            else if options & 0x10 != 0 && p.blacklisted then x.counter == Blk && x.code == 7
            else if options & 0x8 != 0 && p.unsubscribed then x.counter == Usb && x.code == 7
            else if options & 0x4 != 0 && p.limited then x.counter == Limt && x.code == 7
            else if m.msgfmt != 11 && (p.converted.None? || p.converted.value == "") then x.counter == Fmt && x.code == 4
            else if options & 0x1 != 0 && (forall k :: 0 <= k < |templates| ==> !regex(templates[k], text))
            then x.counter == Tmp && x.code == 7
            else x.counter == Key && x.code == 7 && options & 0x2 != 0
                 && exists k :: 0 <= k < |keywords| && Contains(text, keywords[k])
  {
    var stages := Stages(m, p, options, templates, keywords, regex);
    assert i > 0 ==> !stages[0].fails;
    assert i > 1 ==> !stages[1].fails;
    assert i > 2 ==> !stages[2].fails;
    assert i > 3 ==> !stages[3].fails;
    assert i > 4 ==> !stages[4].fails;
    assert i > 5 ==> !stages[5].fails;
  }

  /** A message passes when nothing of the kind holds. */
  lemma AllPassInWords(m: Submit, p: Probes, options: bv32, templates: seq<string>, keywords: seq<string>,
                       regex: (string, string) -> bool)
    ensures var text := if m.msgfmt == 11 || p.converted.None? then m.content else p.converted.value;
            AllPass(Stages(m, p, options, templates, keywords, regex)) <==>
              && (m.msgfmt == 0 || m.msgfmt == 8 || m.msgfmt == 11 || m.msgfmt == 15)
              && !(options & 0x10 != 0 && p.blacklisted) && !(options & 0x8 != 0 && p.unsubscribed)
              && !(options & 0x4 != 0 && p.limited)
              && (m.msgfmt == 11 || (p.converted.Some? && p.converted.value != ""))
              && (options & 0x1 != 0 ==> exists k :: 0 <= k < |templates| && regex(templates[k], text))
              && (options & 0x2 != 0 ==> forall k :: 0 <= k < |keywords| ==> !Contains(text, keywords[k]))
  {
    var stages := Stages(m, p, options, templates, keywords, regex);
    assert AllPass(stages) <==> !stages[0].fails && !stages[1].fails && !stages[2].fails && !stages[3].fails
                                && !stages[4].fails && !stages[5].fails && !stages[6].fails;
  }

  function Text(m: Submit, p: Probes): string {
    if m.msgfmt == 11 || p.converted.None? then m.content else p.converted.value
  }

  ghost predicate IsFirstFailure(stages: seq<Stage>, i: int) {
    0 <= i < |stages| && stages[i].fails && forall j :: 0 <= j < i ==> !stages[j].fails
  }

  ghost predicate AllPass(stages: seq<Stage>) {
    forall i :: 0 <= i < |stages| ==> !stages[i].fails
  }

  /** The attempt that ends the resending. */
  ghost predicate IsFirstFinal(script: seq<Attempt>, i: int) {
    0 <= i < |script| && Final(script[i]) && forall j :: 0 <= j < i ==> !Final(script[j])
  }

  /** How many of the attempts put the message on the wire. */
  function Sends(script: seq<Attempt>): nat {
    if script == [] then 0 else Sends(script[..|script| - 1]) + if script[|script| - 1] == NotSent then 0 else 1
  }

  lemma SendsOfNext(script: seq<Attempt>, i: nat)
    requires i < |script|
    ensures Sends(script[..i + 1]) == Sends(script[..i]) + if script[i] == NotSent then 0 else 1
  {
    assert script[..i + 1][..i] == script[..i];
  }

  /** An attempt is final when it brought an answer that is not BUSY. */
  lemma FinalInWords(a: Attempt)
    ensures Final(a) <==> a in {Answer(OK), Answer(NOROUTE), Answer(REJECT)}
  {
  }

  /** Every attempt but the failed sends is on the wire. */
  lemma {:induction false} SendsInWords(script: seq<Attempt>)
    ensures Sends(script) == |script| - multiset(script)[NotSent]
  {
    if script != [] {
      SendsInWords(script[..|script| - 1]);
      assert script == script[..|script| - 1] + [script[|script| - 1]];
    }
  }

  /** A refusal raises its own counter by one and no other. */
  lemma PlusInWords(s: Status, c: Counter, d: Counter)
    ensures s.Plus(c).Count(d) == s.Count(d) + if c == d then 1 else 0
    ensures s.Plus(c).toal == s.toal && s.Plus(c).sub == s.sub
  {
  }

  /** The copy that is stored: under the server's own account and company. */
  function Copy(m: Submit, account: int, company: int): Submit {
    Kept(m).(account := account, company := company)
  }

  class Worker {
    const account: int
    const company: int
    const options: bv32
    const templates: seq<string>
    const keywords: seq<string>
    const regex: (string, string) -> bool
    var status: Status
    var direct: seq<Response>
    var billing: seq<int>
    var storage: seq<Submit>
    var sends: nat

    constructor (account: int, company: int, options: bv32, templates: seq<string>, keywords: seq<string>, regex: (string, string) -> bool)
      ensures Settled() && status == Status(0, 0, map[]) && direct == [] && billing == [] && storage == []
      ensures this.account == account && this.company == company && this.options == options
      ensures this.templates == templates && this.keywords == keywords && this.regex == regex
    {
      this.account, this.company := account, company;
      this.options, this.templates, this.keywords, this.regex := options, templates, keywords, regex;
      status, direct, billing, storage, sends := Status(0, 0, map[]), [], [], [], 0;
    }

    /**
     The books at the loop head: every counted message was either accepted, billed and stored, or
     answered directly, and never both.
     */
    ghost predicate Settled()
      reads this
    {
      && status.toal == status.sub + |direct|
      && |billing| == status.sub && (forall i :: 0 <= i < |billing| ==> billing[i] == -1)
      && |storage| == status.sub
      && (forall i :: 0 <= i < |direct| ==> direct[i].code == 4 || direct[i].code == 7)
    }

    method Respond(m: Submit, code: int)
      modifies `direct
      ensures direct == old(direct) + [Response(m.id, code)]
    {
      direct := direct + [Response(m.id, code)];
    }

    /** Runs the filters. The first one that fails, and no other, decides. */
    method Filter(m: Submit, p: Probes) returns (r: Option<Submit>)
      modifies `status, `direct
      ensures var stages := Stages(m, p, options, templates, keywords, regex);
              && (r.Some? <==> AllPass(stages))
              && (r.Some? ==> r.value == m.(content := Text(m, p), msgfmt := 11)
                              && status == old(status) && direct == old(direct))
              && (r.None? ==> exists i :: IsFirstFailure(stages, i))
              && (r.None? ==> forall i :: IsFirstFailure(stages, i) ==>
                    && status == old(status).Plus(stages[i].counter)
                    && direct == old(direct) + [Response(m.id, stages[i].code)])
    {
      ghost var stages := Stages(m, p, options, templates, keywords, regex);
      r := None;
      if m.msgfmt !in {0, 8, 11, 15} {
        status := status.Plus(Fmt);
        Respond(m, 7);
        assert IsFirstFailure(stages, 0);
        return;
      }
      if Enabled(options, 16) && p.blacklisted {
        status := status.Plus(Blk);
        Respond(m, 7);
        assert IsFirstFailure(stages, 1);
        return;
      }
      if Enabled(options, 8) && p.unsubscribed {
        status := status.Plus(Usb);
        Respond(m, 7);
        assert IsFirstFailure(stages, 2);
        return;
      }
      if Enabled(options, 4) && p.limited {
        status := status.Plus(Limt);
        Respond(m, 7);
        assert IsFirstFailure(stages, 3);
        return;
      }
      var message := m;
      if m.msgfmt != 11 {
        if p.converted.None? || |p.converted.value| < 1 {
          status := status.Plus(Fmt);
          Respond(m, 4);
          assert IsFirstFailure(stages, 4);
          return;
        }
        message := m.(content := p.converted.value, msgfmt := 11);
      }
      if Enabled(options, 1) {
        var success := false;
        for i := 0 to |templates|
          invariant !success && forall j :: 0 <= j < i ==> !regex(templates[j], message.content)
        {
          if regex(templates[i], message.content) {
            success := true;
            break;
          }
        }
        if !success {
          status := status.Plus(Tmp);
          Respond(m, 7);
          assert IsFirstFailure(stages, 5);
          return;
        }
      }
      if Enabled(options, 2) {
        var success := true;
        for i := 0 to |keywords|
          invariant success && forall j :: 0 <= j < i ==> !Contains(message.content, keywords[j])
        {
          if Contains(message.content, keywords[i]) {
            success := false;
            break;
          }
        }
        if !success {
          status := status.Plus(Key);
          Respond(m, 7);
          assert IsFirstFailure(stages, 6);
          return;
        }
      }
      r := Some(message);
    }

    /** Resends until an answer other than BUSY arrives: after a failed send, a lost answer or BUSY. */
    method Schedule(m: Submit, script: seq<Attempt>) returns (reply: Reply, ghost at: nat)
      requires exists i :: 0 <= i < |script| && Final(script[i])
      modifies `sends
      ensures IsFirstFinal(script, at) && reply == script[at].reply && reply != BUSY
      ensures sends == old(sends) + Sends(script[..at + 1])
    {
      var i := 0;
      while !Final(script[i])
        invariant i < |script| && forall j :: 0 <= j < i ==> !Final(script[j])
        invariant sends == old(sends) + Sends(script[..i])
        decreases |script| - i
      {
        SendsOfNext(script, i);
        if script[i] != NotSent {
          sends := sends + 1;
        }
        i := i + 1;
      }
      SendsOfNext(script, i);
      sends := sends + 1;
      reply, at := script[i].reply, i;
    }

    /** What one final reply does to the books. */
    method Conclude(m: Submit, reply: Reply)
      requires reply != BUSY
      modifies `status, `direct, `billing, `storage
      ensures if reply == OK
              then status == old(status).(sub := old(status).sub + 1) && direct == old(direct)
                   && billing == old(billing) + [-1] && storage == old(storage) + [Copy(m, account, company)]
              else status == (if reply == REJECT then old(status).Plus(Rejt) else old(status))
                   && direct == old(direct) + [Response(m.id, if reply == NOROUTE then 4 else 7)]
                   && billing == old(billing) && storage == old(storage)
    {
      match reply
      case OK =>
        status := status.(sub := status.sub + 1);
        billing := billing + [-1];
        storage := storage + [Copy(m, account, company)];
      case NOROUTE =>
        Respond(m, 4);
      case REJECT =>
        status := status.Plus(Rejt);
        Respond(m, 7);
      case BUSY =>
        assert false;
    }

    /** One pulled message, from the count to the loop head. */
    method Work(m: Submit, p: Probes, script: seq<Attempt>)
      requires Settled() && exists i :: 0 <= i < |script| && Final(script[i])
      modifies `status, `direct, `billing, `storage, `sends
      ensures Settled() && status.toal == old(status.toal) + 1
      ensures var stages := Stages(m, p, options, templates, keywords, regex);
              forall i :: IsFirstFailure(stages, i) ==>
                && sends == old(sends) && billing == old(billing) && storage == old(storage)
                && direct == old(direct) + [Response(m.id, stages[i].code)]
      ensures var stages := Stages(m, p, options, templates, keywords, regex);
              AllPass(stages) ==> forall at :: IsFirstFinal(script, at) ==>
                && sends == old(sends) + Sends(script[..at + 1])
                && if script[at].reply == OK
                   then direct == old(direct) && billing == old(billing) + [-1]
                        && storage == old(storage) + [Copy(m.(content := Text(m, p), msgfmt := 11), account, company)]
                   else direct == old(direct) + [Response(m.id, if script[at].reply == NOROUTE then 4 else 7)]
                        && billing == old(billing) && storage == old(storage)
    {
      StageCodes(m, p, options, templates, keywords, regex);
      hide Stages, Sends, Text;
      status := status.(toal := status.toal + 1);
      var passed := Filter(m, p);
      if passed.Some? {
        var reply, at := Schedule(passed.value, script);
        Conclude(passed.value, reply);
      }
    }
  }
}
