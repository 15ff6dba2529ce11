/** What a lost OK can do: two runs of module ProtocolSteps. */
module LostReplies {
  import opened ProtocolRuns
  import opened ProtocolSteps
  import opened Routing
  import opened Wrappers
  import S = Server

  /** One server whose message is in queue 7, with the OK on its way. */
  lemma OneAppended() returns (s: State)
    ensures Reachable(s) && |s.servers| == 1 && Is(s.servers[0], Waiting(M), Replying(OK))
    ensures s.servers[0].sub == 0 && s.servers[0].direct == []
    ensures AppendsBy(s.log, 0) == [M] && 7 in s.queues && |s.queues[7]| == 1
  {
    var r := Setup(1);
    var a := PullAndSend(r, 0);
    var b := Scan(a, 0);
    s := Land(b, 0);
    LogOfLast(b.log, Appended(7, Item(Account(0), M)));
  }

  lemma LoseOk(s: State) returns (t: State)
    requires Reachable(s) && |s.servers| == 1 && Is(s.servers[0], Waiting(M), Replying(OK))
    ensures Reachable(t) && OnlyServer(s, t, 0) && SameRest(s.servers[0], t.servers[0]) && Is(t.servers[0], Sending(M), Idle)
  {
    t := Does(s, 0, LoseReply);
  }

  /** One lost OK, and one accepted message is appended twice. */
  lemma ALostReplyDuplicates() returns (s: State)
    ensures Reachable(s) && |s.servers| == 1 && s.servers[0].pc == Head
    ensures s.servers[0].sub == 1 && AppendsBy(s.log, 0) == [M, M]
  {
    var r := OneAppended();
    var a := LoseOk(r);
    var b := Resend(a, 0);
    var c := Scan(b, 0);
    var d := Land(c, 0);
    LogOfLast(c.log, Appended(7, Item(Account(0), M)));
    s := Settle(d, 0);
  }

  lemma NoRouteIsAnswered(s: State) returns (t: State)
    requires Reachable(s) && |s.servers| == 1 && s.servers[0].pc == Waiting(M) && s.servers[0].link == Arrived(M)
    requires s.servers[0].channels == [] && s.servers[0].direct == []
    ensures Reachable(t) && |t.servers| == 1 && t.log == s.log && t.servers[0].pc == Head
    ensures t.servers[0].sub == s.servers[0].sub && t.servers[0].direct == [S.Response(1, 4)]
  {
    var a := Does(s, 0, Thread(Receive));
    var b := Does(a, 0, Thread(Finish));
    assert b.servers[0].link == Replying(NOROUTE);
    t := RefusalIsAnswered(b);
  }

  lemma RefusalIsAnswered(s: State) returns (t: State)
    requires Reachable(s) && |s.servers| == 1 && s.servers[0].pc == Waiting(M) && s.servers[0].link == Replying(NOROUTE)
    requires s.servers[0].direct == []
    ensures Reachable(t) && |t.servers| == 1 && t.log == s.log && t.servers[0].pc == Head
    ensures t.servers[0].sub == s.servers[0].sub && t.servers[0].direct == [S.Response(1, 4)]
  {
    t := Does(s, 0, GetReply);
  }

  /**
   A reload between the append and its OK, and the message that is in a gateway queue is answered
   NOROUTE: the new connection sees new channels. It is neither billed nor stored.
   */
  lemma AReloadCanRefuseAnAppendedMessage() returns (s: State)
    ensures Reachable(s) && |s.servers| == 1 && s.servers[0].pc == Head
    ensures s.servers[0].sub == 0 && s.servers[0].direct == [S.Response(1, 4)] && AppendsBy(s.log, 0) == [M]
  {
    var r := OneAppended();
    Extend(r, Reload(0, CONFIG, []));
    var a := Next(r, Reload(0, CONFIG, []));
    assert a.servers[0].pc == Sending(M);
    var b := Resend(a, 0);
    s := NoRouteIsAnswered(b);
  }
}
