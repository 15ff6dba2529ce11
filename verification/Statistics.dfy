/**
 Status reports in src/sp.c and src/ismg.c: the codes and their names, the eight counters, and the
 flush that moves them into database rows. Counting and the copy-and-clear of a flush each run under
 the lock, so any interleaving is a sequence of these calls; handing the copy on is a call of its own.
 */
module Statistics {
  import opened Wrappers

  // ----- codes and names

  /** The name sent to the client for a status code. */
  function StatName(status: int): string {
    match status
    case 1 => "DELIVRD"
    case 2 => "EXPIRED"
    case 3 => "DELETED"
    case 4 => "UNDELIV"
    case 5 => "ACCEPTD"
    case 6 => "UNKNOWN"
    case 7 => "REJECTD"
    case _ => "UNKNOWN"
  }

  function Upper(s: string): string {
    seq(|s|, i requires 0 <= i < |s| => if 'a' <= s[i] <= 'z' then s[i] - ('a' - 'A') else s[i])
  }

  /** The status code of a name received from the gateway, read without regard to case. */
  function StatusOf(stat: string): (status: int)
    ensures 1 <= status <= 7
  {
    var s := Upper(stat);
    if s == "DELIVRD" then 1
    else if s == "EXPIRED" then 2
    else if s == "DELETED" then 3
    else if s == "UNDELIV" then 4
    else if s == "ACCEPTD" then 5
    else if s == "UNKNOWN" then 6
    else if s == "REJECTD" then 7
    else 6
  }

  /** The two switches are inverse: a code survives the names exactly when it is one of the seven. */
  lemma NamesAreInvertible(status: int)
    ensures StatusOf(StatName(status)) == status <==> 1 <= status <= 7
  {
    assert Upper(StatName(status)) == StatName(status);
  }

  /** ... and a name read and written again is itself in upper case, or UNKNOWN when it is no name. */
  lemma NameRoundTrip(stat: string)
    ensures StatName(StatusOf(stat)) == if exists k :: 1 <= k <= 7 && StatName(k) == Upper(stat) then Upper(stat) else "UNKNOWN"
  {
  }

  /** The seven names, from status 1 on, whatever the case they are received in. */
  lemma NamesInOrder(k: nat, stat: string)
    requires 1 <= k <= 7
    ensures StatName(k) == ["DELIVRD", "EXPIRED", "DELETED", "UNDELIV", "ACCEPTD", "UNKNOWN", "REJECTD"][k - 1]
    ensures Upper(stat) == StatName(k) ==> StatusOf(stat) == k
  {
  }

  // ----- counters

  // the counters of the struct, in its order
  const SUBMIT := 0
  const DELIVRD := 1
  const EXPIRED := 2
  const DELETED := 3
  const UNDELIV := 4
  const ACCEPTD := 5
  const UNKNOWN := 6
  const REJECTD := 7

  type Counters = c: seq<nat> | |c| == 8 witness [0, 0, 0, 0, 0, 0, 0, 0]

  const ZERO: Counters := seq(8, _ => 0)

  /** An event: a submit, or a resolved report with its status. */
  datatype Event = Submitted | Reported(status: int)

  /** The counter that an event belongs to. */
  predicate Belongs(e: Event, k: int) {
    match e
    case Submitted => k == SUBMIT
    case Reported(status) => k == status
  }

  /** One counter over all rows. */
  function RowSum(rows: seq<Counters>, k: nat): nat
    requires k < 8
  {
    if rows == [] then 0 else RowSum(rows[..|rows| - 1], k) + rows[|rows| - 1][k]
  }

  /** How many events belong to a counter. */
  function Times(events: seq<Event>, k: int): nat {
    if events == [] then 0 else Times(events[..|events| - 1], k) + if Belongs(events[|events| - 1], k) then 1 else 0
  }

  /** Every event that the code can count is counted, once, by exactly one of the eight. */
  lemma {:induction false} EveryEventIsCountedOnce(events: seq<Event>)
    requires forall i :: 0 <= i < |events| ==> events[i].Submitted? || 1 <= events[i].status <= 7
    ensures Times(events, 0) + Times(events, 1) + Times(events, 2) + Times(events, 3) + Times(events, 4)
            + Times(events, 5) + Times(events, 6) + Times(events, 7) == |events|
  {
    if events != [] {
      EveryEventIsCountedOnce(events[..|events| - 1]);
    }
  }

  /** One more event of counter `k`. */
  lemma OneMoreEvent(events: seq<Event>, e: Event)
    ensures forall k: int :: Times(events + [e], k) == Times(events, k) + if Belongs(e, k) then 1 else 0
  {
    assert (events + [e])[..|events|] == events;
  }

  lemma OneMoreRow(rows: seq<Counters>, c: Counters)
    ensures forall k: nat :: k < 8 ==> RowSum(rows + [c], k) == RowSum(rows, k) + c[k]
  {
    assert (rows + [c])[..|rows|] == rows;
  }

  /** A call on the shared counters; a flush copies only after it handed the last copy on. */
  datatype Call = CallSubmit | CallReport(stat: string) | CallCopy | CallHandOn

  class Statistical {
    var counts: seq<nat>
    var curr: Option<Counters> // a copy not yet handed on
    var rows: seq<Counters>    // handed to the writer, whatever the database makes of them
    ghost var events: seq<Event>

    function InHand(k: nat): nat
      requires k < 8
      reads this
    {
      if curr.Some? then curr.value[k] else 0
    }

    /** For each counter: rows handed on, the copy in hand and the live counter add up to the events so far. */
    ghost predicate Conserved()
      reads this
    {
      |counts| == 8 && forall k :: 0 <= k < 8 ==> RowSum(rows, k) + InHand(k) + counts[k] == Times(events, k)
    }

    constructor ()
      ensures Conserved() && events == [] && rows == [] && curr == None
    {
      counts, curr, rows, events := ZERO, None, [], [];
    }

    method Submit()
      requires Conserved()
      modifies `counts, `events
      ensures Conserved() && events == old(events) + [Submitted]
      ensures counts == old(counts)[SUBMIT := old(counts)[SUBMIT] + 1]
    {
      hide RowSum, Times;
      OneMoreEvent(events, Submitted);
      counts := counts[SUBMIT := counts[SUBMIT] + 1];
      events := events + [Submitted];
    }

    /** `lamb_check_statistical`: raises the one counter of the status, for a status in 1..7. */
    method CheckStatistical(status: int)
      requires |counts| == 8
      modifies `counts
      ensures counts == if 1 <= status <= 7 then old(counts)[status := old(counts)[status] + 1] else old(counts)
    {
      match status
      case 1 => counts := counts[DELIVRD := counts[DELIVRD] + 1];
      case 2 => counts := counts[EXPIRED := counts[EXPIRED] + 1];
      case 3 => counts := counts[DELETED := counts[DELETED] + 1];
      case 4 => counts := counts[UNDELIV := counts[UNDELIV] + 1];
      case 5 => counts := counts[ACCEPTD := counts[ACCEPTD] + 1];
      case 6 => counts := counts[UNKNOWN := counts[UNKNOWN] + 1];
      case 7 => counts := counts[REJECTD := counts[REJECTD] + 1];
      case _ =>
    }

    /** A report that was resolved; `stat` is the gateway's text. Exactly one status counter is raised. */
    method Report(stat: string)
      requires Conserved()
      modifies `counts, `events
      ensures Conserved() && events == old(events) + [Reported(StatusOf(stat))]
      ensures counts == old(counts)[StatusOf(stat) := old(counts)[StatusOf(stat)] + 1]
    {
      hide RowSum, Times;
      OneMoreEvent(events, Reported(StatusOf(stat)));
      CheckStatistical(StatusOf(stat));
      events := events + [Reported(StatusOf(stat))];
    }

    /** The locked half of a flush. */
    method CopyAndClear()
      requires Conserved() && curr.None?
      modifies `counts, `curr
      ensures Conserved() && curr == Some(old(counts)) && counts == ZERO
    {
      curr := Some(counts);
      counts := ZERO;
    }

    /** The other half: a row is written only when some counter is not zero. */
    method HandOn()
      requires Conserved() && curr.Some?
      modifies `curr, `rows
      ensures Conserved() && curr == None
      ensures rows == if old(curr.value) == ZERO then old(rows) else old(rows) + [old(curr.value)]
    {
      hide RowSum, Times;
      var c := curr.value;
      if c[SUBMIT] > 0 || c[DELIVRD] > 0 || c[EXPIRED] > 0 || c[DELETED] > 0 || c[UNDELIV] > 0 || c[ACCEPTD] > 0
         || c[UNKNOWN] != 0 || c[REJECTD] > 0 {
        OneMoreRow(rows, c);
        rows := rows + [c];
      } else {
        assert c == ZERO;
      }
      curr := None;
    }

    /** Any interleaving of the threads' calls: no submit, no report and no flush loses a count. */
    method Run(calls: seq<Call>)
      requires Conserved()
      modifies this
      ensures Conserved() && events == old(events) + EventsOf(calls)
    {
      assert EventsOf(calls[..0]) == [];
      for i := 0 to |calls|
        invariant Conserved() && events == old(events) + EventsOf(calls[..i])
      {
        assert calls[..i + 1][..i] == calls[..i];
        match calls[i] {
          case CallSubmit => Submit();
          case CallReport(stat) => Report(stat);
          case CallCopy => if curr.None? { CopyAndClear(); }
          case CallHandOn => if curr.Some? { HandOn(); }
        }
      }
      assert calls[..|calls|] == calls;
    }
  }

  function EventsOf(calls: seq<Call>): seq<Event> {
    if calls == [] then []
    else
      var before := EventsOf(calls[..|calls| - 1]);
      match calls[|calls| - 1]
      case CallSubmit => before + [Submitted]
      case CallReport(stat) => before + [Reported(StatusOf(stat))]
      case _ => before
  }
}
