/**
 What holds of one server and its push threads after every step of theirs: the push thread works for
 the server, every pulled message has one result, and the bills match the results. Module Protocol
 puts the servers together.
 */
module ServerBooks {
  import opened ProtocolSteps
  import opened Routing
  import opened Wrappers
  import S = Server

  predicate Undecided(sv: Server) {
    sv.pc.Filtering? || sv.pc.Sending? || sv.pc.Waiting?
  }

  ghost predicate SomeServes(channels: seq<Channel>, n: nat, phone: string)
    requires n <= |channels|
  {
    exists j :: 0 <= j < n && Serves(channels[j], phone)
  }

  /** What a reply code says about the account's channels. */
  ghost predicate Honest(reply: Reply, channels: seq<Channel>, phone: string) {
    && (reply == NOROUTE <==> channels == [])
    && (reply == REJECT <==> channels != [] && !SomeServes(channels, |channels|, phone))
  }

  /** A channel that the scan went past: it did not serve the phone, or its queue was missing or full at that moment. */
  ghost predicate PassedOver(c: Channel, phone: string, look: Option<nat>) {
    !Serves(c, phone) || look.None? || look.value >= CAPACITY
  }

  ghost predicate AllPassedOver(channels: seq<Channel>, phone: string, seen: seq<Option<nat>>) {
    |seen| <= |channels| && forall j :: 0 <= j < |seen| ==> PassedOver(channels[j], phone, seen[j])
  }

  /** `q` is the queue of a channel that serves the phone, and the scan went past every channel before it. */
  ghost predicate BoundFor(channels: seq<Channel>, phone: string, q: int, seen: seq<Option<nat>>) {
    && AllPassedOver(channels, phone, seen) && |seen| < |channels|
    && Serves(channels[|seen|], phone) && channels[|seen|].id == q
  }

  /** The thread has a message in hand. */
  predicate Carries(l: Link) {
    l.Arrived? || l.Scanning? || l.Pushing?
  }

  ghost predicate ThreadOk(l: Link, channels: seq<Channel>) {
    match l
    case Scanning(m, n, operator, seen) =>
      m == Kept(m) && n == |seen| <= |channels| && (operator <==> SomeServes(channels, n, m.phone)) && AllPassedOver(channels, m.phone, seen)
    case Pushing(m, q, seen) => m == Kept(m) && BoundFor(channels, m.phone, q, seen)
    case _ => true
  }

  /** The push thread works on the very message the server waits for, and only then. */
  ghost predicate Linked(sv: Server) {
    && (sv.pc.Waiting? <==> !sv.link.Idle?)
    && (sv.link.Arrived? ==> sv.link.m == sv.pc.m)
    && (sv.link.Scanning? || sv.link.Pushing? ==> sv.link.m == Kept(sv.pc.m))
    && ThreadOk(sv.link, sv.channels)
    && (sv.link.Replying? ==> Honest(sv.link.reply, sv.channels, Kept(sv.pc.m).phone))
  }

  /** Old threads scan the channels of their time, and reply to nobody. */
  ghost predicate OldOk(sv: Server) {
    forall k :: 0 <= k < |sv.retired| ==> ThreadOk(sv.retired[k].link, sv.retired[k].channels) && !sv.retired[k].link.Replying?
  }

  /** The end of a long number decides nothing. */
  lemma KeptIsHeardAlike(reply: Reply, channels: seq<Channel>, m: Submit)
    ensures SomeServes(channels, |channels|, Kept(m).phone) <==> SomeServes(channels, |channels|, m.phone)
    ensures Honest(reply, channels, Kept(m).phone) <==> Honest(reply, channels, m.phone)
  {
    forall c { KeptIsServedAlike(c, m); }
  }

  lemma KeptIsBoundAlike(channels: seq<Channel>, m: Submit, q: int, seen: seq<Option<nat>>)
    ensures BoundFor(channels, Kept(m).phone, q, seen) <==> BoundFor(channels, m.phone, q, seen)
  {
    forall c { KeptIsServedAlike(c, m); }
    hide Serves;
  }

  lemma MovedIsOk(l: Link, channels: seq<Channel>, queues: map<int, seq<Item>>, move: Move)
    requires CanMove(l, channels, move) && ThreadOk(l, channels)
    ensures var r := Moved(l, channels, queues, move);
            && ThreadOk(r, channels) && !r.Idle? && !r.Arrived? && (Carries(r) ==> r.m == Kept(l.m) == Kept(r.m))
            && (r.Replying? ==> r.reply != OK && Honest(r.reply, channels, Kept(l.m).phone))
            && (r.Pushing? ==> r.q in queues && |queues[r.q]| < CAPACITY)
  {
    KeptIsTheCopy(l.m, l.m);
    if move == Examine {
      assert SomeServes(channels, l.next + 1, l.m.phone) <==> l.operator || Serves(channels[l.next], l.m.phone);
    }
  }

  lemma MoversCarry(l: Link, channels: seq<Channel>, move: Move)
    requires CanMove(l, channels, move)
    ensures Carries(l)
  {
  }

  lemma ThreadKeepsLinked(sv: Server, queues: map<int, seq<Item>>, move: Move)
    requires Linked(sv) && CanMove(sv.link, sv.channels, move)
    ensures Linked(sv.(link := Moved(sv.link, sv.channels, queues, move)))
  {
    hide Moved, CanMove, ThreadOk, Honest;
    MoversCarry(sv.link, sv.channels, move);
    MovedIsOk(sv.link, sv.channels, queues, move);
    KeptIsTheCopy(sv.pc.m, sv.pc.m);
  }

  lemma ActedKeepsLinked(sv: Server, queues: map<int, seq<Item>>, act: Act)
    requires Linked(sv) && CanAct(sv, act)
    ensures Linked(Acted(sv, queues, act))
  {
    hide Moved, CanMove, Honest;
    if act.Thread? {
      ThreadKeepsLinked(sv, queues, act.move);
    }
  }

  lemma ActedKeepsOldOk(sv: Server, queues: map<int, seq<Item>>, act: Act)
    requires OldOk(sv) && CanAct(sv, act)
    ensures OldOk(Acted(sv, queues, act))
  {
    hide Moved, CanMove;
    if act.Old? {
      MovedIsOk(sv.retired[act.k].link, sv.retired[act.k].channels, queues, act.move);
    }
  }

  lemma ReconnectedIsLinked(sv: Server, channels: seq<Channel>)
    requires Linked(sv) && OldOk(sv)
    ensures Linked(Reconnected(sv, channels)) && OldOk(Reconnected(sv, channels))
  {
  }

  lemma PushedIsLinked(sv: Server)
    requires Linked(sv) && sv.link.Pushing?
    ensures Linked(Pushed(sv))
  {
    assert SomeServes(sv.channels, |sv.channels|, Kept(sv.pc.m).phone);
  }

  // ----- one result for each message

  /**
   What goes to the scheduler: the message as it was pulled but for its text, which is in format 11. The
   text is the one pulled if that was in format 11, and otherwise what the conversion gave.
   */
  predicate IsPrepared(was: Submit, p: S.Probes, now: Submit) {
    && now.id == was.id && now.account == was.account && now.company == was.company
    && now.spid == was.spid && now.spcode == was.spcode && now.phone == was.phone
    && now.msgfmt == 11
    && (if was.msgfmt == 11 then now.content == was.content else p.converted == Some(now.content) && now.content != "")
  }

  /** The message of this turn, past the filters. */
  predicate Prepares(t: Turn, m: Submit) {
    t.passed.Some? && IsPrepared(t.pulled, t.passed.value, m)
  }

  /** An acceptance is of the prepared message; an answer has the id of the message. */
  predicate Ends(t: Turn, r: Result) {
    match r
    case Accepted(m) => Prepares(t, m)
    case Answered(response) => response.id == t.pulled.id
  }

  /** What the scheduler keeps of the message of this turn. */
  predicate Sends(t: Turn, m: Submit) {
    && t.passed.Some?
    && m.id == t.pulled.id && m.account == t.pulled.account && m.company == t.pulled.company
    && IsStart(m.spid, t.pulled.spid, 6) && IsStart(m.spcode, t.pulled.spcode, 20) && IsStart(m.phone, t.pulled.phone, 11)
    && m.msgfmt == 11
    && (if t.pulled.msgfmt == 11 then m.content == t.pulled.content
        else t.passed.value.converted == Some(m.content) && m.content != "")
  }

  lemma KeptIsSent(t: Turn, m: Submit)
    requires Prepares(t, m)
    ensures Sends(t, Kept(m))
  {
    KeptIsTheCopy(Kept(m), m);
  }

  ghost predicate OfSomeTurn(turns: seq<Turn>, m: Submit) {
    exists k :: 0 <= k < |turns| && Sends(turns[k], m)
  }

  /** A stored copy: the message of this acceptance, with its strings cut to their fields, whoever it was from. */
  predicate IsStored(copy: Submit, m: Submit) {
    IsCopy(copy.(account := m.account, company := m.company), m)
  }

  function Unstored(sv: Server): seq<Submit> {
    if sv.pc.Billing? || sv.pc.Storing? then [sv.pc.m] else []
  }

  /** Every pulled message has exactly one result, in the order of the pulls; the message at work is the last one. */
  ghost predicate Tally(sv: Server) {
    && sv.toal == |sv.turns| == |sv.results| + (if Undecided(sv) then 1 else 0)
    && (forall k :: 0 <= k < |sv.results| ==> Ends(sv.turns[k], sv.results[k]))
    && (!sv.pc.Head? ==> sv.toal > 0)
    && (sv.pc.Filtering? ==> sv.turns[sv.toal - 1] == Turn(sv.pc.m, None))
    && (!sv.pc.Head? && !sv.pc.Filtering? ==> Prepares(sv.turns[sv.toal - 1], sv.pc.m))
  }

  /** The lists and counters are projections of the results. */
  ghost predicate Ledger(sv: Server) {
    && sv.direct == AnsweredOf(sv.results)
    && (forall k :: 0 <= k < |sv.direct| ==> sv.direct[k].code == 4 || sv.direct[k].code == 7)
    && sv.sub == |AcceptedOf(sv.results)|
    && sv.sub + |sv.direct| == |sv.results|
    && Stored(sv.storage, Unstored(sv), AcceptedOf(sv.results))
  }

  /** The accepted messages are stored in order, but for the one in hand. */
  ghost predicate Stored(storage: seq<Submit>, inHand: seq<Submit>, accepted: seq<Submit>) {
    && |storage| + |inHand| == |accepted|
    && (forall k :: 0 <= k < |storage| ==> IsStored(storage[k], accepted[k]))
    && inHand == accepted[|storage|..]
  }

  /** The reply that the append succeeded is on its way. */
  predicate AwaitsOk(sv: Server) {
    sv.pc.Waiting? && sv.link == Replying(OK)
  }

  /** The appends are those seen to succeed, which are the accepted messages, the lost ones, and the awaited one. */
  ghost predicate Fated(sv: Server, appends: seq<Submit>) {
    && KeptAll(AcceptedOf(sv.results)) == SeenOf(sv.fates)
    && appends == MessagesOf(sv.fates)
    && (forall k :: 0 <= k < |sv.fates| && sv.fates[k].Pending? ==> AwaitsOk(sv) && k == sv.last)
    && (AwaitsOk(sv) ==>
          && sv.last < |sv.fates| && sv.fates[sv.last] == Pending(Kept(sv.pc.m))
          && forall k :: sv.last < k < |sv.fates| ==> sv.fates[k].Lost?)
  }

  /** Nothing is appended, or about to be, that was not pulled and passed by the filters. */
  ghost predicate Owned(sv: Server) {
    && (forall k :: 0 <= k < |sv.fates| ==> OfSomeTurn(sv.turns, sv.fates[k].m))
    && (forall k :: 0 <= k < |sv.retired| && Carries(sv.retired[k].link) ==> OfSomeTurn(sv.turns, Kept(sv.retired[k].link.m)))
  }

  ghost predicate Books(sv: Server, appends: seq<Submit>) {
    Tally(sv) && Ledger(sv) && Fated(sv, appends) && Owned(sv)
  }

  lemma ResultsOfLast(results: seq<Result>, r: Result)
    ensures AcceptedOf(results + [r]) == AcceptedOf(results) + if r.Accepted? then [r.m] else []
    ensures AnsweredOf(results + [r]) == AnsweredOf(results) + if r.Answered? then [r.response] else []
  {
    assert (results + [r])[..|results|] == results;
  }

  lemma StageCodes(sv: Server, m: Submit, p: S.Probes, i: nat)
    requires S.IsFirstFailure(StagesOf(sv, m, p), i)
    ensures StagesOf(sv, m, p)[i].code == 4 || StagesOf(sv, m, p)[i].code == 7
  {
  }

  /** The turns go on, and a message of one of them stays one. */
  lemma OwnedStays(sv: Server, turns: seq<Turn>)
    requires Owned(sv) && |sv.turns| <= |turns|
    requires forall k :: 0 <= k < |sv.turns| && sv.turns[k].passed.Some? ==> turns[k] == sv.turns[k]
    ensures Owned(sv.(turns := turns))
  {
    forall m | OfSomeTurn(sv.turns, m) ensures OfSomeTurn(turns, m) {
      var k :| 0 <= k < |sv.turns| && Sends(sv.turns[k], m);
      assert Sends(turns[k], m);
    }
  }

  lemma PullKeepsBooks(sv: Server, m: Submit, appends: seq<Submit>)
    requires Books(sv, appends) && sv.pc.Head?
    ensures Books(sv.(pc := Filtering(m), toal := sv.toal + 1, turns := sv.turns + [Turn(m, None)]), appends)
  {
    var t := sv.(pc := Filtering(m), toal := sv.toal + 1, turns := sv.turns + [Turn(m, None)]);
    OwnedStays(sv, t.turns);
    assert Tally(t) && Ledger(t) && Fated(t, appends);
  }

  lemma FilteredIsPrepared(sv: Server, m: Submit, p: S.Probes)
    requires S.AllPass(StagesOf(sv, m, p))
    ensures IsPrepared(m, p, m.(content := S.Text(m, p), msgfmt := 11))
  {
    assert !StagesOf(sv, m, p)[4].fails;
  }

  lemma PassKeepsBooks(sv: Server, p: S.Probes, m: Submit, appends: seq<Submit>)
    requires Books(sv, appends) && sv.pc.Filtering? && IsPrepared(sv.pc.m, p, m)
    ensures Books(sv.(pc := Sending(m), turns := Passing(sv.turns, p)), appends)
  {
    var t := sv.(pc := Sending(m), turns := Passing(sv.turns, p));
    OwnedStays(sv, t.turns);
    assert Tally(t) && Ledger(t) && Fated(t, appends);
  }

  lemma StoreKeepsBooks(sv: Server, appends: seq<Submit>)
    requires Books(sv, appends) && sv.pc.Storing?
    ensures Books(sv.(pc := Head, storage := sv.storage + [S.Copy(sv.pc.m, sv.config.account, sv.config.company)]), appends)
  {
    hide Fated, Owned, Ends, Prepares;
    var t := sv.(pc := Head, storage := sv.storage + [S.Copy(sv.pc.m, sv.config.account, sv.config.company)]);
    KeptIsTheCopy(Kept(sv.pc.m), sv.pc.m);
    assert Fated(t, appends) && Owned(t) by { StoreKeepsTheRest(sv, appends); }
  }

  lemma StoreKeepsTheRest(sv: Server, appends: seq<Submit>)
    requires Fated(sv, appends) && Owned(sv) && sv.pc.Storing?
    ensures var t := sv.(pc := Head, storage := sv.storage + [S.Copy(sv.pc.m, sv.config.account, sv.config.company)]);
            Fated(t, appends) && Owned(t)
  {
  }

  lemma AnswerKeepsLedger(sv: Server, code: int)
    requires Ledger(sv) && (sv.pc.Filtering? || sv.pc.Waiting?) && (code == 4 || code == 7)
    ensures Ledger(Answer(sv, code))
  {
    ResultsOfLast(sv.results, Answered(S.Response(sv.pc.m.id, code)));
  }

  lemma AnswerKeepsFated(sv: Server, code: int, appends: seq<Submit>)
    requires Fated(sv, appends) && (sv.pc.Filtering? || sv.pc.Waiting?) && !AwaitsOk(sv)
    ensures Fated(Answer(sv, code), appends)
  {
    ResultsOfLast(sv.results, Answered(S.Response(sv.pc.m.id, code)));
  }

  lemma AnswerKeepsBooks(sv: Server, code: int, appends: seq<Submit>)
    requires Books(sv, appends) && (sv.pc.Filtering? || sv.pc.Waiting?) && !AwaitsOk(sv)
    requires code == 4 || code == 7
    ensures Books(Answer(sv, code), appends)
  {
    hide Ledger, Fated;
    AnswerKeepsLedger(sv, code);
    AnswerKeepsFated(sv, code, appends);
  }

  lemma ConfirmKeepsLedger(sv: Server)
    requires Ledger(sv) && AwaitsOk(sv)
    ensures Ledger(Confirm(sv))
  {
    ResultsOfLast(sv.results, Accepted(sv.pc.m));
    hide IsStored;
  }

  lemma ConfirmKeepsFated(sv: Server, appends: seq<Submit>)
    requires Fated(sv, appends) && AwaitsOk(sv)
    ensures Fated(Confirm(sv), appends)
  {
    ResultsOfLast(sv.results, Accepted(sv.pc.m));
    FatesOfMark(sv.fates, sv.last, Seen(Kept(sv.pc.m)));
    assert KeptAll(AcceptedOf(sv.results) + [sv.pc.m]) == KeptAll(AcceptedOf(sv.results)) + [Kept(sv.pc.m)];
  }

  lemma ConfirmKeepsOwned(sv: Server)
    requires Tally(sv) && Owned(sv) && AwaitsOk(sv)
    ensures Owned(Confirm(sv))
  {
    KeptIsSent(sv.turns[sv.toal - 1], sv.pc.m);
    hide Sends, Prepares;
  }

  lemma ConfirmKeepsBooks(sv: Server, appends: seq<Submit>)
    requires Books(sv, appends) && AwaitsOk(sv)
    ensures Books(Confirm(sv), appends)
  {
    hide Ledger, Fated, Owned;
    ConfirmKeepsLedger(sv);
    ConfirmKeepsFated(sv, appends);
    ConfirmKeepsOwned(sv);
  }

  lemma LoseKeepsFated(sv: Server, appends: seq<Submit>)
    requires Fated(sv, appends) && AwaitsOk(sv)
    ensures Fated(Lose(sv), appends)
  {
    FatesOfMark(sv.fates, sv.last, Lost(Kept(sv.pc.m)));
  }

  lemma LoseKeepsBooks(sv: Server, appends: seq<Submit>)
    requires Books(sv, appends) && AwaitsOk(sv)
    ensures Books(Lose(sv), appends)
  {
    hide Fated, Sends, Prepares;
    KeptIsSent(sv.turns[sv.toal - 1], sv.pc.m);
    LoseKeepsFated(sv, appends);
  }

  /** Nothing that `Books` speaks of differs. */
  ghost predicate SameBooks(sv: Server, sv': Server) {
    && sv'.toal == sv.toal && sv'.turns == sv.turns && sv'.results == sv.results && sv'.direct == sv.direct
    && sv'.fates == sv.fates && sv'.last == sv.last && sv'.sub == sv.sub && sv'.storage == sv.storage
    && Unstored(sv') == Unstored(sv)
    && sv'.pc.Head? == sv.pc.Head? && sv'.pc.Filtering? == sv.pc.Filtering? && (!sv.pc.Head? ==> sv'.pc.m == sv.pc.m)
    && Undecided(sv') == Undecided(sv) && AwaitsOk(sv') == AwaitsOk(sv)
    && (forall k :: 0 <= k < |sv'.retired| && Carries(sv'.retired[k].link) ==> Accounted(sv, Kept(sv'.retired[k].link.m)))
  }

  /** What the scheduler keeps of the message of an old thread, or of the thread at work. */
  ghost predicate Accounted(sv: Server, m: Submit) {
    || (Carries(sv.link) && sv.pc.Waiting? && m == Kept(sv.pc.m))
    || exists k :: 0 <= k < |sv.retired| && Carries(sv.retired[k].link) && m == Kept(sv.retired[k].link.m)
  }

  lemma SameBooksKeepsBooks(sv: Server, sv': Server, appends: seq<Submit>)
    requires Books(sv, appends) && SameBooks(sv, sv')
    ensures Books(sv', appends)
  {
    if sv.pc.Waiting? {
      KeptIsSent(sv.turns[sv.toal - 1], sv.pc.m);
    }
    hide Sends, Prepares, IsStored, Ends;
    assert Tally(sv') && Ledger(sv') && Fated(sv', appends);
  }

  lemma SameOldIsAccounted(sv: Server)
    ensures forall k :: 0 <= k < |sv.retired| && Carries(sv.retired[k].link) ==> Accounted(sv, Kept(sv.retired[k].link.m))
  {
  }

  lemma OldMoveKeepsBooks(sv: Server, queues: map<int, seq<Item>>, k: nat, move: Move)
    requires OldOk(sv) && CanAct(sv, Old(k, move))
    ensures SameBooks(sv, Acted(sv, queues, Old(k, move)))
  {
    hide Moved, CanMove, ThreadOk;
    var o := sv.retired[k];
    MoversCarry(o.link, o.channels, move);
    MovedIsOk(o.link, o.channels, queues, move);
    SameOldIsAccounted(sv);
  }

  lemma ThreadKeepsBooks(sv: Server, queues: map<int, seq<Item>>, move: Move)
    requires Linked(sv) && CanMove(sv.link, sv.channels, move)
    ensures SameBooks(sv, sv.(link := Moved(sv.link, sv.channels, queues, move)))
  {
    hide Moved, CanMove, ThreadOk, Honest;
    MoversCarry(sv.link, sv.channels, move);
    MovedIsOk(sv.link, sv.channels, queues, move);
    SameOldIsAccounted(sv);
  }

  /** The acts that begin, end or store a message. */
  ghost predicate Deciding(sv: Server, act: Act) {
    || act.Pull? || act.Store? || act.Filter?
    || (act.GetReply? && sv.link.Replying? && sv.link.reply != BUSY)
    || (act.LoseReply? && sv.link == Replying(OK))
  }

  lemma UndecidingActsKeepBooks(sv: Server, queues: map<int, seq<Item>>, act: Act)
    requires Linked(sv) && OldOk(sv) && CanAct(sv, act) && !Deciding(sv, act)
    ensures SameBooks(sv, Acted(sv, queues, act))
  {
    if act.Old? {
      OldMoveKeepsBooks(sv, queues, act.k, act.move);
    } else if act.Thread? {
      ThreadKeepsBooks(sv, queues, act.move);
    } else {
      hide CanMove, ThreadOk, Honest;
      SameOldIsAccounted(sv);
    }
  }

  lemma DecidingActs(sv: Server, queues: map<int, seq<Item>>, act: Act)
    requires CanAct(sv, act)
    ensures act.Filter? && act.at.Some? ==>
              Acted(sv, queues, act) == Answer(sv, StagesOf(sv, sv.pc.m, act.probes)[act.at.value].code)
    ensures act.Filter? && act.at.None? ==>
              Acted(sv, queues, act) ==
              sv.(pc := Sending(sv.pc.m.(content := S.Text(sv.pc.m, act.probes), msgfmt := 11)),
                  turns := Passing(sv.turns, act.probes))
    ensures act.GetReply? && sv.link.reply == OK ==> Acted(sv, queues, act) == Confirm(sv)
    ensures act.GetReply? && sv.link.reply == NOROUTE ==> Acted(sv, queues, act) == Answer(sv, 4)
    ensures act.GetReply? && sv.link.reply == REJECT ==> Acted(sv, queues, act) == Answer(sv, 7)
    ensures act.LoseReply? ==> Acted(sv, queues, act) == Lose(sv)
  {
  }

  lemma ActedKeepsBooks(sv: Server, queues: map<int, seq<Item>>, act: Act, appends: seq<Submit>)
    requires Linked(sv) && OldOk(sv) && Books(sv, appends) && CanAct(sv, act)
    ensures Books(Acted(sv, queues, act), appends)
  {
    hide Books, SameBooks, Linked, OldOk;
    DecidingActs(sv, queues, act);
    if !Deciding(sv, act) {
      UndecidingActsKeepBooks(sv, queues, act);
      SameBooksKeepsBooks(sv, Acted(sv, queues, act), appends);
    } else if act.Pull? {
      PullKeepsBooks(sv, act.m, appends);
    } else if act.Store? {
      StoreKeepsBooks(sv, appends);
    } else if act.Filter? && act.at.None? {
      FilteredIsPrepared(sv, sv.pc.m, act.probes);
      PassKeepsBooks(sv, act.probes, sv.pc.m.(content := S.Text(sv.pc.m, act.probes), msgfmt := 11), appends);
    } else if act.Filter? {
      StageCodes(sv, sv.pc.m, act.probes, act.at.value);
      AnswerKeepsBooks(sv, StagesOf(sv, sv.pc.m, act.probes)[act.at.value].code, appends);
    } else if act.LoseReply? {
      LoseKeepsBooks(sv, appends);
    } else if sv.link.reply == OK {
      ConfirmKeepsBooks(sv, appends);
    } else {
      AnswerKeepsBooks(sv, if sv.link.reply == NOROUTE then 4 else 7, appends);
    }
  }

  lemma PushedKeepsFated(sv: Server, appends: seq<Submit>)
    requires Linked(sv) && Fated(sv, appends) && sv.link.Pushing?
    ensures Fated(Pushed(sv), appends + [sv.link.m])
  {
    FatesOfLast(sv.fates, Pending(sv.link.m));
  }

  lemma PushedKeepsBooks(sv: Server, appends: seq<Submit>)
    requires Linked(sv) && Books(sv, appends) && sv.link.Pushing?
    ensures Books(Pushed(sv), appends + [sv.link.m])
  {
    hide Fated, ThreadOk, Honest;
    PushedKeepsFated(sv, appends);
  }

  lemma OldAppendedKeepsFated(sv: Server, k: nat, appends: seq<Submit>)
    requires Fated(sv, appends) && k < |sv.retired| && sv.retired[k].link.Pushing?
    ensures Fated(OldAppended(sv, k), appends + [sv.retired[k].link.m])
  {
    FatesOfLast(sv.fates, Lost(sv.retired[k].link.m));
  }

  lemma OldAppendedKeepsBooks(sv: Server, k: nat, appends: seq<Submit>)
    requires OldOk(sv) && Books(sv, appends) && k < |sv.retired| && sv.retired[k].link.Pushing?
    ensures Books(OldAppended(sv, k), appends + [sv.retired[k].link.m])
  {
    hide Fated;
    OldAppendedKeepsFated(sv, k, appends);
  }

  lemma ReconnectedKeepsBooks(sv: Server, channels: seq<Channel>, appends: seq<Submit>)
    requires Linked(sv) && Books(sv, appends)
    ensures Books(Reconnected(sv, channels), appends)
  {
    hide Books, ThreadOk, Honest;
    if AwaitsOk(sv) {
      LoseKeepsBooks(sv, appends);
      var t := Lose(sv);
      SameOldIsAccounted(t);
      SameBooksKeepsBooks(t, Reconnected(sv, channels), appends);
    } else {
      SameOldIsAccounted(sv);
      SameBooksKeepsBooks(sv, Reconnected(sv, channels), appends);
    }
  }

  // ----- a lost message is sent again

  /**
   While no reload disturbs it: a message whose OK was lost is the next one to be appended again, and
   is still being sent until then. It cannot be answered otherwise: some channel serves the phone.
   */
  ghost predicate Repeated(sv: Server) {
    && (forall k :: 0 <= k < |sv.retired| ==> !Carries(sv.retired[k].link))
    && (AwaitsOk(sv) ==> sv.last == |sv.fates| - 1)
    && (forall k :: 0 <= k < |sv.fates| - 1 && sv.fates[k].Lost? ==> sv.fates[k + 1].m == sv.fates[k].m)
    && (sv.fates != [] && sv.fates[|sv.fates| - 1].Lost? ==>
          && (sv.pc.Sending? || sv.pc.Waiting?)
          && Kept(sv.pc.m) == sv.fates[|sv.fates| - 1].m
          && SomeServes(sv.channels, |sv.channels|, Kept(sv.pc.m).phone))
  }

  lemma ActedKeepsRepeated(sv: Server, queues: map<int, seq<Item>>, act: Act, appends: seq<Submit>)
    requires Linked(sv) && Fated(sv, appends) && Repeated(sv) && CanAct(sv, act)
    ensures Repeated(Acted(sv, queues, act))
  {
    hide Moved;
    if act.Old? {
      MoversCarry(sv.retired[act.k].link, sv.retired[act.k].channels, act.move);
      assert false;
    } else if act.Thread? {
      MoversCarry(sv.link, sv.channels, act.move);
      MovedIsOk(sv.link, sv.channels, queues, act.move);
    } else if act.LoseReply? {
      LoseKeepsRepeated(sv, appends);
    } else if act.GetReply? {
      ReplyKeepsRepeated(sv, queues, appends);
    }
  }

  lemma ReplyKeepsRepeated(sv: Server, queues: map<int, seq<Item>>, appends: seq<Submit>)
    requires Linked(sv) && Fated(sv, appends) && Repeated(sv) && CanAct(sv, GetReply)
    ensures Repeated(Acted(sv, queues, GetReply))
  {
  }

  lemma LoseKeepsRepeated(sv: Server, appends: seq<Submit>)
    requires Linked(sv) && Fated(sv, appends) && Repeated(sv) && CanAct(sv, LoseReply)
    ensures Repeated(Lose(sv))
  {
  }

  lemma PushedKeepsRepeated(sv: Server)
    requires Linked(sv) && Repeated(sv) && sv.link.Pushing?
    ensures Repeated(Pushed(sv))
  {
  }

  // ----- whoever reaches a queue is accepted

  /** The message is accepted, or it is still being sent and the channels serve its phone. */
  ghost predicate Settling(sv: Server, m: Submit) {
    || m in KeptAll(AcceptedOf(sv.results))
    || ((sv.pc.Sending? || sv.pc.Waiting?) && m == Kept(sv.pc.m) && SomeServes(sv.channels, |sv.channels|, m.phone))
  }

  /** True of every message that was appended or is in the hands of an old thread. */
  ghost predicate Backed(sv: Server) {
    && (forall k :: 0 <= k < |sv.fates| ==> Settling(sv, sv.fates[k].m))
    && (forall k :: 0 <= k < |sv.retired| && Carries(sv.retired[k].link) ==> Settling(sv, Kept(sv.retired[k].link.m)))
  }

  /** Nothing settles less, and there are no new messages. */
  ghost predicate SameBacking(sv: Server, sv': Server) {
    && (forall m :: Settling(sv, m) ==> Settling(sv', m))
    && |sv'.fates| == |sv.fates| && (forall k :: 0 <= k < |sv.fates| ==> sv'.fates[k].m == sv.fates[k].m)
    && |sv'.retired| == |sv.retired|
    && (forall k :: 0 <= k < |sv.retired| && Carries(sv'.retired[k].link) ==>
          Carries(sv.retired[k].link) && Kept(sv'.retired[k].link.m) == Kept(sv.retired[k].link.m))
  }

  lemma SameBackingKeepsBacked(sv: Server, sv': Server)
    requires Backed(sv) && SameBacking(sv, sv')
    ensures Backed(sv')
  {
    hide Settling;
  }

  /** A refusal is sent only when no channel serves, and then every message that was appended is accepted. */
  lemma AnswerKeepsBacking(sv: Server, code: int)
    requires sv.pc.Filtering? || (sv.pc.Waiting? && !SomeServes(sv.channels, |sv.channels|, Kept(sv.pc.m).phone))
    ensures SameBacking(sv, Answer(sv, code))
  {
    ResultsOfLast(sv.results, Answered(S.Response(sv.pc.m.id, code)));
  }

  lemma ConfirmKeepsBacking(sv: Server)
    requires sv.pc.Waiting? && (sv.last < |sv.fates| ==> sv.fates[sv.last].m == Kept(sv.pc.m))
    ensures SameBacking(sv, Confirm(sv))
  {
    ResultsOfLast(sv.results, Accepted(sv.pc.m));
    assert KeptAll(AcceptedOf(sv.results) + [sv.pc.m]) == KeptAll(AcceptedOf(sv.results)) + [Kept(sv.pc.m)];
  }

  lemma LoseKeepsBacking(sv: Server)
    requires sv.pc.Waiting? && sv.link.Replying? && (sv.link.reply == OK && sv.last < |sv.fates| ==> sv.fates[sv.last].m == Kept(sv.pc.m))
    ensures SameBacking(sv, Lose(sv))
  {
  }

  lemma OldMoveKeepsBacking(sv: Server, queues: map<int, seq<Item>>, k: nat, move: Move)
    requires OldOk(sv) && CanAct(sv, Old(k, move))
    ensures SameBacking(sv, Acted(sv, queues, Old(k, move)))
  {
    hide Moved, CanMove, ThreadOk, SomeServes;
    var o := sv.retired[k];
    MoversCarry(o.link, o.channels, move);
    MovedIsOk(o.link, o.channels, queues, move);
  }

  lemma QuietActsKeepBacking(sv: Server, queues: map<int, seq<Item>>, act: Act)
    requires CanAct(sv, act) && !act.Old? && !act.LoseReply?
    requires act.Filter? ==> act.at.None?
    requires act.GetReply? ==> sv.link.reply == BUSY
    ensures SameBacking(sv, Acted(sv, queues, act))
  {
    hide Moved, CanMove, SomeServes;
  }

  lemma ActedKeepsBacked(sv: Server, queues: map<int, seq<Item>>, act: Act, appends: seq<Submit>)
    requires Linked(sv) && OldOk(sv) && Fated(sv, appends) && Backed(sv) && CanAct(sv, act)
    ensures Backed(Acted(sv, queues, act))
  {
    hide Backed, SameBacking, ThreadOk;
    DecidingActs(sv, queues, act);
    var t := Acted(sv, queues, act);
    if act.Old? {
      OldMoveKeepsBacking(sv, queues, act.k, act.move);
    } else if act.LoseReply? {
      LoseKeepsBacking(sv);
    } else if act.GetReply? && sv.link.reply == OK {
      ConfirmKeepsBacking(sv);
    } else if act.GetReply? && sv.link.reply != BUSY {
      AnswerKeepsBacking(sv, if sv.link.reply == NOROUTE then 4 else 7);
    } else if act.Filter? && act.at.Some? {
      AnswerKeepsBacking(sv, StagesOf(sv, sv.pc.m, act.probes)[act.at.value].code);
    } else {
      QuietActsKeepBacking(sv, queues, act);
    }
    SameBackingKeepsBacked(sv, t);
  }

  lemma PushedKeepsBacked(sv: Server)
    requires Linked(sv) && Backed(sv) && sv.link.Pushing?
    ensures Backed(Pushed(sv))
  {
    assert SomeServes(sv.channels, |sv.channels|, Kept(sv.pc.m).phone);
    assert forall m :: Settling(sv, m) ==> Settling(Pushed(sv), m);
  }

  lemma OldAppendedKeepsBacked(sv: Server, k: nat)
    requires OldOk(sv) && Backed(sv) && k < |sv.retired| && sv.retired[k].link.Pushing?
    ensures Backed(OldAppended(sv, k))
  {
    assert forall m :: Settling(sv, m) ==> Settling(OldAppended(sv, k), m);
  }

  /** A reload does no harm while the new channels serve the message that is being sent, if there is one. */
  lemma ReconnectedKeepsBacked(sv: Server, config: Config, channels: seq<Channel>, appends: seq<Submit>)
    requires Linked(sv) && Fated(sv, appends) && Backed(sv)
    requires sv.pc.Sending? || sv.pc.Waiting? ==> SomeServes(channels, |channels|, Kept(sv.pc.m).phone)
    ensures Backed(Reconnected(sv, channels).(config := config))
  {
    var t := Reconnected(sv, channels).(config := config);
    assert forall m :: Settling(sv, m) ==> Settling(t, m);
    if sv.pc.Waiting? {
      KeptIsTheCopy(sv.pc.m, sv.pc.m);
      assert Settling(t, Kept(sv.pc.m));
    }
  }

  // ----- the bills

  /** What company `c` will still gain from the bills of this server. */
  function Outstanding(sv: Server, c: int): int {
    SumTo(sv.billing, c) + if sv.inHand.Some? && sv.inHand.value.company == c then sv.inHand.value.money else 0
  }

  /** One -1 for each accepted message, one +1 for each failed report. */
  ghost predicate Billed(sv: Server) {
    && Charges(sv.issued) + (if sv.pc.Billing? then 1 else 0) == sv.sub
    && Sum(sv.issued) == sv.refunds - Charges(sv.issued)
  }

  /** What is outstanding changes, for every company, by what is issued to it. */
  ghost predicate SameMoney(sv: Server, sv': Server) {
    && Billed(sv')
    && forall c :: Outstanding(sv', c) - SumTo(sv'.issued, c) == Outstanding(sv, c) - SumTo(sv.issued, c)
  }

  lemma BillsOfLast(bills: seq<Bill>, b: Bill)
    ensures Charges(bills + [b]) == Charges(bills) + if b.money == -1 then 1 else 0
    ensures Sum(bills + [b]) == Sum(bills) + b.money
    ensures forall c :: SumTo(bills + [b], c) == SumTo(bills, c) + if b.company == c then b.money else 0
  {
    assert (bills + [b])[..|bills|] == bills;
  }

  lemma ChargeKeepsBilled(sv: Server)
    requires Billed(sv) && sv.pc.Billing?
    ensures SameMoney(sv, Issued(sv, -1).(pc := Storing(sv.pc.m)))
  {
    BillsOfLast(sv.billing, Bill(sv.config.company, -1));
    BillsOfLast(sv.issued, Bill(sv.config.company, -1));
  }

  lemma RefundKeepsBilled(sv: Server)
    requires Billed(sv)
    ensures SameMoney(sv, Issued(sv, 1).(refunds := sv.refunds + 1))
  {
    BillsOfLast(sv.billing, Bill(sv.config.company, 1));
    BillsOfLast(sv.issued, Bill(sv.config.company, 1));
  }

  lemma TakeKeepsBilled(sv: Server)
    requires Billed(sv) && sv.billing != [] && sv.inHand.None?
    ensures SameMoney(sv, sv.(billing := sv.billing[1..], inHand := Some(sv.billing[0])))
  {
    forall c { SumToOfFirst(sv.billing, c); }
  }

  /** What touches no bill leaves every number in `Billed` as it was. */
  lemma OthersKeepBilled(sv: Server, sv': Server)
    requires Billed(sv) && sv'.issued == sv.issued
    requires sv'.refunds == sv.refunds && sv'.billing == sv.billing && sv'.inHand == sv.inHand
    requires sv'.sub - (if sv'.pc.Billing? then 1 else 0) == sv.sub - (if sv.pc.Billing? then 1 else 0)
    ensures SameMoney(sv, sv')
  {
  }

  lemma ActedKeepsBilled(sv: Server, queues: map<int, seq<Item>>, act: Act)
    requires Billed(sv) && CanAct(sv, act)
    ensures SameMoney(sv, Acted(sv, queues, act))
  {
    hide Billed, SameMoney, Moved, CanMove;
    match act
    case PushBill => ChargeKeepsBilled(sv);
    case TakeBill => TakeKeepsBilled(sv);
    case Report(status) =>
      if status != 1 { RefundKeepsBilled(sv); } else { OthersKeepBilled(sv, sv); }
    case _ => OthersKeepBilled(sv, Acted(sv, queues, act));
  }

  /** Every bill is of the company that the server has now. */
  ghost predicate OneCompany(sv: Server) {
    && (forall k :: 0 <= k < |sv.issued| ==> sv.issued[k].company == sv.config.company)
    && (forall k :: 0 <= k < |sv.billing| ==> sv.billing[k].company == sv.config.company)
    && (sv.inHand.Some? ==> sv.inHand.value.company == sv.config.company)
  }

  lemma ActedKeepsOneCompany(sv: Server, queues: map<int, seq<Item>>, act: Act)
    requires OneCompany(sv) && CanAct(sv, act)
    ensures OneCompany(Acted(sv, queues, act))
  {
    hide Moved, CanMove;
  }

  // ----- the turn of the work thread

  /** From a final reply on, the acts do to the books what `Server.Worker.Conclude` does. */
  lemma ConcludedInActs(sv: Server, queues: map<int, seq<Item>>)
    requires CanAct(sv, GetReply) && sv.link.reply != BUSY
    ensures var a := Acted(sv, queues, GetReply);
            if sv.link.reply == OK
            then CanAct(a, PushBill) &&
                 var b := Acted(a, queues, PushBill);
                 CanAct(b, Store) &&
                 var c := Acted(b, queues, Store);
                 && c.pc == Head && c.sub == sv.sub + 1 && c.direct == sv.direct
                 && c.billing == sv.billing + [Bill(sv.config.company, -1)] && c.storage == sv.storage + [S.Copy(sv.pc.m, sv.config.account, sv.config.company)]
            else && a.pc == Head && a.sub == sv.sub && a.billing == sv.billing && a.storage == sv.storage
                 && a.direct == sv.direct + [S.Response(sv.pc.m.id, if sv.link.reply == NOROUTE then 4 else 7)]
  {
  }

  /** What a reply does to the results, for the message of this turn. */
  lemma ReplyDecides(sv: Server, queues: map<int, seq<Item>>, turn: Turn)
    requires Linked(sv) && CanAct(sv, GetReply) && Prepares(turn, sv.pc.m)
    ensures var t := Acted(sv, queues, GetReply);
            if sv.link.reply == BUSY then t.results == sv.results && t.pc == Sending(sv.pc.m)
            else if SomeServes(sv.channels, |sv.channels|, turn.pulled.phone)
            then t.results == sv.results + [Accepted(sv.pc.m)]
            else t.results == sv.results + [Answered(S.Response(turn.pulled.id, if sv.channels == [] then 4 else 7))]
  {
    KeptIsHeardAlike(sv.link.reply, sv.channels, sv.pc.m);
    hide ThreadOk, SomeServes;
  }

  // ----- all of it

  ghost predicate Good(sv: Server, appends: seq<Submit>) {
    Linked(sv) && OldOk(sv) && Books(sv, appends) && Billed(sv)
  }

  lemma FreshIsGood(config: Config, channels: seq<Channel>)
    ensures Good(Fresh(config, channels), [])
  {
  }

  lemma ActedKeepsGood(sv: Server, queues: map<int, seq<Item>>, act: Act, appends: seq<Submit>)
    requires Good(sv, appends) && CanAct(sv, act)
    ensures Good(Acted(sv, queues, act), appends) && SameMoney(sv, Acted(sv, queues, act))
  {
    hide Acted, Linked, OldOk, Books, Billed;
    ActedKeepsLinked(sv, queues, act);
    ActedKeepsOldOk(sv, queues, act);
    ActedKeepsBooks(sv, queues, act, appends);
    ActedKeepsBilled(sv, queues, act);
  }

  /** The append and the reply it promises. */
  lemma PushedIsGood(sv: Server, appends: seq<Submit>)
    requires Good(sv, appends) && sv.link.Pushing?
    ensures Good(Pushed(sv), appends + [sv.link.m]) && SameMoney(sv, Pushed(sv))
  {
    hide Books, Billed;
    PushedIsLinked(sv);
    PushedKeepsBooks(sv, appends);
    OthersKeepBilled(sv, Pushed(sv));
  }

  lemma OldAppendedIsGood(sv: Server, k: nat, appends: seq<Submit>)
    requires Good(sv, appends) && k < |sv.retired| && sv.retired[k].link.Pushing?
    ensures Good(OldAppended(sv, k), appends + [sv.retired[k].link.m]) && SameMoney(sv, OldAppended(sv, k))
  {
    hide Books, Billed;
    OldAppendedKeepsBooks(sv, k, appends);
    OthersKeepBilled(sv, OldAppended(sv, k));
  }

  lemma AppliedIsGood(sv: Server, appends: seq<Submit>)
    requires Good(sv, appends)
    ensures Good(sv.(inHand := None), appends)
  {
    hide Books;
    SameOldIsAccounted(sv);
    SameBooksKeepsBooks(sv, sv.(inHand := None), appends);
  }

  lemma ReloadedIsGood(sv: Server, config: Config, channels: seq<Channel>, appends: seq<Submit>)
    requires Good(sv, appends)
    ensures var t := Reconnected(sv, channels).(config := config); Good(t, appends) && SameMoney(sv, t)
  {
    hide Books, Billed;
    var t := Reconnected(sv, channels);
    ReconnectedIsLinked(sv, channels);
    ReconnectedKeepsBooks(sv, channels, appends);
    SameOldIsAccounted(t);
    SameBooksKeepsBooks(t, t.(config := config), appends);
    OthersKeepBilled(sv, t.(config := config));
  }
}
