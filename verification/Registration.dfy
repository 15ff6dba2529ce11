/**
 The registration handshake of src/mt.c and the per-account queues behind it. The main loop locks
 the mutex, starts a thread for the request and waits on the condition; the thread finds or creates
 its queue without a lock, opens a port, writes the shared response under the mutex and signals.
 Steps of the main loop and of all threads interleave freely.

 `sent`, `lost`, `pushed` and `popped` are histories: no step reads them.
 */
module Registration {
  import opened Pools
  import opened Wrappers

  datatype Kind = PushClient | PullClient

  datatype Stage =
    | Finding | Creating | Opening
    | Locking | Writing | Unlocking | Signalling
    | Serving | Failed | Gone

  /** `queue` is a pool position, `port` the port opened; each is meaningful once its stage is past. */
  datatype Client = Client(id: int, kind: Kind, stage: Stage, queue: nat, port: int)

  datatype Main = Idle | Locked | Waiting | Woken | Holding

  datatype Owner = MainLoop | Thread(i: nat)

  datatype Response = Response(id: int, port: int)

  datatype Sent = Sent(client: nat, resp: Option<Response>)

  /** An item that client `id` moved into or out of the queue at a pool position. */
  datatype Moved = Moved(queue: nat, id: int, item: int)

  datatype State = State(
    main: Main, mutex: Option<Owner>, clients: seq<Client>, pool: seq<Queue<int>>,
    resp: Option<Response>, ports: set<int>,
    sent: seq<Sent>, lost: seq<nat>, pushed: seq<Moved>, popped: seq<Moved>)

  datatype Step =
    | Request(id: int, kind: Kind)
    | Wait | Wake | Respond | Timeout
    | Find(i: nat) | Create(i: nat)
    | Open(i: nat, port: int) | OpenFails(i: nat)
    | Lock(i: nat) | Write(i: nat) | Unlock(i: nat) | Signal(i: nat)
    | Push(i: nat, item: int) | Pop(i: nat) | Leave(i: nat)

  ghost predicate Initial(s: State) {
    s == State(Idle, None, [], [], None, {}, [], [], [], [])
  }

  predicate AtStage(s: State, i: nat, stage: Stage) {
    i < |s.clients| && s.clients[i].stage == stage
  }

  predicate Enabled(s: State, step: Step) {
    match step
    case Request(id, _) => s.main == Idle && s.mutex == None && id >= 1
    case Wait => s.main == Locked
    case Wake => s.main == Woken && s.mutex == None
    case Respond => s.main == Holding
    case Timeout => s.main == Waiting && s.mutex == None
    case Find(i) => AtStage(s, i, Finding)
    case Create(i) => AtStage(s, i, Creating)
    case Open(i, port) => AtStage(s, i, Opening) && port !in s.ports
    case OpenFails(i) => AtStage(s, i, Opening)
    case Lock(i) => AtStage(s, i, Locking) && s.mutex == None
    case Write(i) => AtStage(s, i, Writing)
    case Unlock(i) => AtStage(s, i, Unlocking)
    case Signal(i) => AtStage(s, i, Signalling)
    case Push(i, _) => AtStage(s, i, Serving) && s.clients[i].kind.PushClient? && s.clients[i].queue < |s.pool|
    case Pop(i) =>
      AtStage(s, i, Serving) && s.clients[i].kind.PullClient? && s.clients[i].queue < |s.pool|
      && s.pool[s.clients[i].queue].items != []
    case Leave(i) => AtStage(s, i, Serving)
  }

  function Moves(s: State, i: nat, stage: Stage): State
    requires i < |s.clients|
  {
    s.(clients := s.clients[i := s.clients[i].(stage := stage)])
  }

  /** A signal wakes the main loop if it is waiting and is lost otherwise. */
  function Signalled(s: State, i: nat): State {
    if s.main == Waiting then s.(main := Woken) else s.(lost := s.lost + [i])
  }

  function Next(s: State, step: Step): State
    requires Enabled(s, step)
  {
    match step
    case Request(id, kind) =>
      s.(main := Locked, mutex := Some(MainLoop), clients := s.clients + [Client(id, kind, Finding, 0, 0)])
    case Wait => s.(main := Waiting, mutex := None)
    case Wake => s.(main := Holding, mutex := Some(MainLoop))
    case Respond => s.(main := Idle, mutex := None, sent := s.sent + [Sent(if s.clients == [] then 0 else |s.clients| - 1, s.resp)])
    case Timeout => s.(main := Idle)
    case Find(i) =>
      var k := Position(s.pool, s.clients[i].id);
      if k < |s.pool| then Moves(s.(clients := s.clients[i := s.clients[i].(queue := k)]), i, Opening)
      else Moves(s, i, Creating)
    case Create(i) =>
      Moves(s.(clients := s.clients[i := s.clients[i].(queue := |s.pool|)],
               pool := s.pool + [Queue(s.clients[i].id, [])]), i, Opening)
    case Open(i, port) =>
      Moves(s.(clients := s.clients[i := s.clients[i].(port := port)], ports := s.ports + {port}), i, Locking)
    case OpenFails(i) => Signalled(Moves(s, i, Failed), i)
    case Lock(i) => Moves(s.(mutex := Some(Thread(i))), i, Writing)
    case Write(i) => Moves(s.(resp := Some(Response(s.clients[i].id, s.clients[i].port))), i, Unlocking)
    case Unlock(i) => Moves(s.(mutex := None), i, Signalling)
    case Signal(i) => Signalled(Moves(s, i, Serving), i)
    case Push(i, item) =>
      var q := s.clients[i].queue;
      s.(pool := s.pool[q := s.pool[q].(items := s.pool[q].items + [item])],
         pushed := s.pushed + [Moved(q, s.clients[i].id, item)])
    case Pop(i) =>
      var q := s.clients[i].queue;
      s.(pool := s.pool[q := s.pool[q].(items := s.pool[q].items[1..])],
         popped := s.popped + [Moved(q, s.clients[i].id, s.pool[q].items[0])])
    case Leave(i) => Moves(s.(ports := s.ports - {s.clients[i].port}), i, Gone)
  }

  ghost predicate Run(states: seq<State>, steps: seq<Step>) {
    && |states| == |steps| + 1
    && Initial(states[0])
    && forall i :: 0 <= i < |steps| ==> Enabled(states[i], steps[i]) && states[i + 1] == Next(states[i], steps[i])
  }

  /** A step of the main loop, or of a client that is being served. */
  predicate MainStep(step: Step) {
    step.Request? || step.Wait? || step.Wake? || step.Respond? || step.Timeout? || step.Push? || step.Pop? || step.Leave?
  }

  // ----- true of every run

  /** Past its search, and past its append if the search found nothing. */
  predicate Past(s: State, i: nat) {
    i < |s.clients| && s.clients[i].stage !in {Finding, Creating}
  }

  /** Every client past its search uses a queue of its own id. */
  ghost predicate Sound(s: State) {
    && (s.main != Idle ==> s.clients != [])
    && (forall i: nat :: Past(s, i) ==> s.clients[i].queue < |s.pool| && s.pool[s.clients[i].queue].id == s.clients[i].id)
  }

  /** What a step leaves of a client and of the pool. */
  ghost predicate Grows(s: State, t: State) {
    && |s.clients| <= |t.clients| && |s.pool| <= |t.pool|
    && (forall k :: 0 <= k < |s.pool| ==> t.pool[k].id == s.pool[k].id)
    && (forall i :: 0 <= i < |s.clients| ==> t.clients[i].id == s.clients[i].id)
    && (forall i: nat :: Past(s, i) ==> Past(t, i) && t.clients[i].queue == s.clients[i].queue)
    && (forall i: nat :: AtStage(s, i, Creating) ==> AtStage(t, i, Creating) || Past(t, i))
  }

  lemma MainGrows(s: State, step: Step)
    requires Enabled(s, step) && MainStep(step)
    ensures Grows(s, Next(s, step))
  {
  }

  lemma ThreadGrows(s: State, step: Step)
    requires Enabled(s, step) && !MainStep(step)
    ensures Grows(s, Next(s, step))
  {
  }

  lemma NextGrows(s: State, step: Step)
    requires Enabled(s, step)
    ensures Grows(s, Next(s, step))
  {
    hide Next, Grows;
    if MainStep(step) {
      MainGrows(s, step);
    } else {
      ThreadGrows(s, step);
    }
  }

  lemma CreateIsSound(s: State, i: nat)
    requires Sound(s) && Enabled(s, Create(i))
    ensures Sound(Next(s, Create(i)))
  {
  }

  lemma FindIsSound(s: State, i: nat)
    requires Sound(s) && Enabled(s, Find(i))
    ensures Sound(Next(s, Find(i)))
  {
  }

  lemma NextIsSound(s: State, step: Step)
    requires Sound(s) && Enabled(s, step)
    ensures Sound(Next(s, step))
  {
    NextGrows(s, step);
    match step
    case Create(i) => CreateIsSound(s, i);
    case Find(i) => FindIsSound(s, i);
    case _ => assert forall i: nat :: Past(Next(s, step), i) ==> Past(s, i);
  }

  lemma {:induction false} AlwaysSound(states: seq<State>, steps: seq<Step>, n: nat)
    requires Run(states, steps) && n < |states|
    ensures Sound(states[n])
  {
    hide Next, Enabled;
    if n > 0 {
      AlwaysSound(states, steps, n - 1);
      NextIsSound(states[n - 1], steps[n - 1]);
    }
  }

  lemma GrowthIsTransitive(a: State, b: State, c: State)
    requires Grows(a, b) && Grows(b, c)
    ensures Grows(a, c)
  {
  }

  lemma {:induction false} RunGrows(states: seq<State>, steps: seq<Step>, m: nat, n: nat)
    requires Run(states, steps) && m <= n < |states|
    ensures Grows(states[m], states[n])
  {
    hide Next, Enabled;
    if m < n {
      RunGrows(states, steps, m, n - 1);
      NextGrows(states[n - 1], steps[n - 1]);
      GrowthIsTransitive(states[m], states[n - 1], states[n]);
    }
  }

  // ----- when an id gets two queues

  /** Two clients of one id are both between find and append. */
  ghost predicate BothBetween(s: State, i: nat, j: nat) {
    i != j && AtStage(s, i, Creating) && AtStage(s, j, Creating) && s.clients[i].id == s.clients[j].id
  }

  /** At some state up to `n` two clients of the id were, and by now both have appended. */
  ghost predicate Overlaps(states: seq<State>, n: nat, m: nat, i: nat, j: nat, id: int)
    requires n < |states|
  {
    m <= n && BothBetween(states[m], i, j) && states[m].clients[i].id == id && Past(states[n], i) && Past(states[n], j)
  }

  ghost predicate Overlapped(states: seq<State>, n: nat, id: int)
    requires n < |states|
  {
    exists m: nat, i: nat, j: nat :: Overlaps(states, n, m, i, j, id)
  }

  /** Two such clients will not use one queue. */
  ghost predicate Apart(s: State, i: nat, j: nat) {
    && i < |s.clients| && j < |s.clients|
    && (AtStage(s, i, Creating) || Past(s, i)) && (AtStage(s, j, Creating) || Past(s, j))
    && (Past(s, i) && Past(s, j) ==> s.clients[i].queue != s.clients[j].queue)
  }

  lemma NextKeepsApart(s: State, step: Step, i: nat, j: nat)
    requires Sound(s) && Enabled(s, step) && i != j && Apart(s, i, j)
    ensures Apart(Next(s, step), i, j)
  {
    if step.Create? {
      CreateKeepsApart(s, step.i, i, j);
    } else {
      StaysBetween(s, step, i);
      StaysBetween(s, step, j);
      hide Next, Sound;
    }
  }

  lemma CreateKeepsApart(s: State, c: nat, i: nat, j: nat)
    requires Sound(s) && Enabled(s, Create(c)) && i != j && Apart(s, i, j)
    ensures Apart(Next(s, Create(c)), i, j)
  {
  }

  lemma StaysBetween(s: State, step: Step, i: nat)
    requires Enabled(s, step) && !step.Create? && (AtStage(s, i, Creating) || Past(s, i))
    ensures AtStage(s, i, Creating) ==> AtStage(Next(s, step), i, Creating)
    ensures Past(s, i) ==> Past(Next(s, step), i) && Next(s, step).clients[i].queue == s.clients[i].queue
  {
  }

  lemma {:induction false} BothBetweenGrowApart(states: seq<State>, steps: seq<Step>, m: nat, n: nat, i: nat, j: nat)
    requires Run(states, steps) && m <= n < |states| && BothBetween(states[m], i, j)
    ensures Apart(states[n], i, j)
  {
    hide Next, Enabled;
    if m < n {
      BothBetweenGrowApart(states, steps, m, n - 1, i, j);
      AlwaysSound(states, steps, n - 1);
      NextKeepsApart(states[n - 1], steps[n - 1], i, j);
    }
  }

  lemma AnOverlapSplits(states: seq<State>, steps: seq<Step>, n: nat, m: nat, i: nat, j: nat, id: int)
    requires Run(states, steps) && n < |states| && Overlaps(states, n, m, i, j, id)
    ensures states[n].clients[i].id == states[n].clients[j].id == id
    ensures states[n].clients[i].queue != states[n].clients[j].queue
    ensures !Unique(states[n].pool, id)
  {
    hide Next, Enabled;
    BothBetweenGrowApart(states, steps, m, n, i, j);
    RunGrows(states, steps, m, n);
    AlwaysSound(states, steps, n);
    var a, b := states[n].clients[i].queue, states[n].clients[j].queue;
    assert states[n].pool[a].id == id && states[n].pool[b].id == id;
    assert a < b || b < a;
  }

  /** A client about to append an id that the pool has by now overlapped with the one that appended it. */
  lemma {:induction false} StaleFindOverlaps(states: seq<State>, steps: seq<Step>, n: nat, j: nat) returns (m: nat, i: nat)
    requires Run(states, steps) && n < |states| && AtStage(states[n], j, Creating)
    requires Position(states[n].pool, states[n].clients[j].id) < |states[n].pool|
    ensures m <= n && BothBetween(states[m], i, j) && Past(states[n], i)
    ensures states[m].clients[j].id == states[n].clients[j].id
  {
    assert n > 0;
    hide Next, Enabled;
    var s, step := states[n - 1], steps[n - 1];
    NextGrows(s, step);
    if AtStage(s, j, Creating) && Position(s.pool, s.clients[j].id) < |s.pool| {
      m, i := StaleFindOverlaps(states, steps, n - 1, j);
    } else {
      i := AppendedByOther(s, step, j);
      m := n - 1;
    }
  }

  lemma AppendedByOther(s: State, step: Step, j: nat) returns (i: nat)
    requires Enabled(s, step) && AtStage(Next(s, step), j, Creating)
    requires var t := Next(s, step); Position(t.pool, t.clients[j].id) < |t.pool|
    requires !(AtStage(s, j, Creating) && Position(s.pool, s.clients[j].id) < |s.pool|)
    ensures BothBetween(s, i, j) && Past(Next(s, step), i) && s.clients[j].id == Next(s, step).clients[j].id
  {
    var t := Next(s, step);
    var id := t.clients[j].id;
    if step.Create? {
      i := step.i;
      assert t.pool[|s.pool|].id == id by {
        assert t.pool[Position(t.pool, id)].id == id;
      }
    } else {
      i := j;
      assert false;
    }
  }

  /** The append of a second queue for an id. */
  lemma SecondAppendOverlaps(states: seq<State>, steps: seq<Step>, n: nat, id: int)
    requires Run(states, steps) && n < |steps|
    requires Unique(states[n].pool, id) && !Unique(states[n + 1].pool, id)
    ensures Overlapped(states, n + 1, id)
  {
    var s, step, t := states[n], steps[n], states[n + 1];
    NextGrows(s, step);
    var a, b :| 0 <= a < b < |t.pool| && t.pool[a].id == id && t.pool[b].id == id;
    assert step.Create? && b == |s.pool| && s.pool[a].id == id;
    var j := step.i;
    assert s.clients[j].id == id && Position(s.pool, id) <= a;
    var m, i := StaleFindOverlaps(states, steps, n, j);
    assert Overlaps(states, n + 1, m, i, j, id);
  }

  lemma {:induction false} ARepeatedIdOverlapped(states: seq<State>, steps: seq<Step>, n: nat, id: int)
    requires Run(states, steps) && n < |states| && !Unique(states[n].pool, id)
    ensures Overlapped(states, n, id)
  {
    assert n > 0;
    hide Next, Enabled;
    if !Unique(states[n - 1].pool, id) {
      ARepeatedIdOverlapped(states, steps, n - 1, id);
      var m: nat, i: nat, j: nat :| Overlaps(states, n - 1, m, i, j, id);
      NextGrows(states[n - 1], steps[n - 1]);
      assert Overlaps(states, n, m, i, j, id);
    } else {
      SecondAppendOverlaps(states, steps, n - 1, id);
    }
  }

  /**
   In every run, timeouts included: an id has two queues in the pool exactly when two clients of that
   id were between find and append at one time and both appended.
   */
  lemma AnIdIsUniqueUnlessOverlapped(states: seq<State>, steps: seq<Step>, n: nat, id: int)
    requires Run(states, steps) && n < |states|
    ensures Unique(states[n].pool, id) <==> !Overlapped(states, n, id)
  {
    hide Run;
    if Overlapped(states, n, id) {
      var m: nat, i: nat, j: nat :| Overlaps(states, n, m, i, j, id);
      AnOverlapSplits(states, steps, n, m, i, j, id);
    } else if !Unique(states[n].pool, id) {
      ARepeatedIdOverlapped(states, steps, n, id);
    }
  }

  /** All clients of the id that are past their search use one queue. */
  ghost predicate ShareAQueue(s: State, id: int) {
    forall i: nat, j: nat :: Past(s, i) && Past(s, j) && s.clients[i].id == s.clients[j].id == id ==>
      s.clients[i].queue == s.clients[j].queue
  }

  /**
   In every run: clients of different ids never use one queue, and the clients of an id all share one
   exactly when no two of them overlapped.
   */
  lemma ClientsOfAnIdShareAQueue(states: seq<State>, steps: seq<Step>, n: nat, id: int)
    requires Run(states, steps) && n < |states|
    ensures forall i: nat, j: nat :: Past(states[n], i) && Past(states[n], j) && states[n].clients[i].queue == states[n].clients[j].queue ==>
              states[n].clients[i].id == states[n].clients[j].id
    ensures ShareAQueue(states[n], id) <==> !Overlapped(states, n, id)
  {
    hide Run;
    AlwaysSound(states, steps, n);
    AnIdIsUniqueUnlessOverlapped(states, steps, n, id);
    if Overlapped(states, n, id) {
      var m: nat, i: nat, j: nat :| Overlaps(states, n, m, i, j, id);
      AnOverlapSplits(states, steps, n, m, i, j, id);
    } else {
      UniqueIsShared(states[n], id);
    }
  }

  lemma UniqueIsShared(s: State, id: int)
    requires Sound(s) && Unique(s.pool, id)
    ensures ShareAQueue(s, id)
  {
    forall i: nat, j: nat | Past(s, i) && Past(s, j) && s.clients[i].id == s.clients[j].id == id
      ensures s.clients[i].queue == s.clients[j].queue
    {
      var a, b := s.clients[i].queue, s.clients[j].queue;
      assert s.pool[a].id == id && s.pool[b].id == id;
    }
  }

  // ----- the queues

  /** What was moved through the queue at one position. */
  function Through(log: seq<Moved>, k: nat): seq<int> {
    if log == [] then []
    else
      var before, last := Through(log[..|log| - 1], k), log[|log| - 1];
      if last.queue == k then before + [last.item] else before
  }

  /** What clients of one id moved. */
  function Only(log: seq<Moved>, id: int): seq<int> {
    if log == [] then []
    else
      var before, last := Only(log[..|log| - 1], id), log[|log| - 1];
      if last.id == id then before + [last.item] else before
  }

  lemma ThroughOfLast(log: seq<Moved>, x: Moved)
    ensures forall k :: Through(log + [x], k) == Through(log, k) + if x.queue == k then [x.item] else []
  {
    assert (log + [x])[..|log|] == log;
  }

  function ItemsAt(pool: seq<Queue<int>>, k: nat): seq<int> {
    if k < |pool| then pool[k].items else []
  }

  /** Every move went through a queue of the client's id. */
  ghost predicate Tagged(log: seq<Moved>, pool: seq<Queue<int>>) {
    forall x :: 0 <= x < |log| ==> log[x].queue < |pool| && pool[log[x].queue].id == log[x].id
  }

  ghost predicate FifoOf(pushed: seq<Moved>, popped: seq<Moved>, pool: seq<Queue<int>>) {
    && Tagged(pushed, pool) && Tagged(popped, pool)
    && forall k: nat :: Through(pushed, k) == Through(popped, k) + ItemsAt(pool, k)
  }

  ghost predicate Fifo(s: State) {
    FifoOf(s.pushed, s.popped, s.pool)
  }

  lemma TaggedStays(log: seq<Moved>, pool: seq<Queue<int>>, q: nat, items: seq<int>)
    requires Tagged(log, pool) && q < |pool|
    ensures Tagged(log, pool[q := pool[q].(items := items)])
  {
  }

  lemma TaggedOfLast(log: seq<Moved>, pool: seq<Queue<int>>, x: Moved)
    requires Tagged(log, pool) && x.queue < |pool| && pool[x.queue].id == x.id
    ensures Tagged(log + [x], pool)
  {
  }

  lemma PushIsFifo(pushed: seq<Moved>, popped: seq<Moved>, pool: seq<Queue<int>>, q: nat, item: int)
    requires FifoOf(pushed, popped, pool) && q < |pool|
    ensures FifoOf(pushed + [Moved(q, pool[q].id, item)], popped, pool[q := pool[q].(items := pool[q].items + [item])])
  {
    var x, items := Moved(q, pool[q].id, item), pool[q].items + [item];
    ThroughOfLast(pushed, x);
    TaggedOfLast(pushed, pool, x);
    TaggedStays(pushed + [x], pool, q, items);
    TaggedStays(popped, pool, q, items);
    hide Through, Tagged;
  }

  lemma PopAt(before: seq<int>, pool: seq<Queue<int>>, q: nat, k: nat)
    requires q < |pool| && pool[q].items != []
    ensures before + ItemsAt(pool, k) ==
            before + (if q == k then [pool[q].items[0]] else []) + ItemsAt(pool[q := pool[q].(items := pool[q].items[1..])], k)
  {
    if q == k {
      assert pool[q].items == [pool[q].items[0]] + pool[q].items[1..];
    }
  }

  lemma PopIsFifo(pushed: seq<Moved>, popped: seq<Moved>, pool: seq<Queue<int>>, q: nat)
    requires FifoOf(pushed, popped, pool) && q < |pool| && pool[q].items != []
    ensures FifoOf(pushed, popped + [Moved(q, pool[q].id, pool[q].items[0])], pool[q := pool[q].(items := pool[q].items[1..])])
  {
    var x, items := Moved(q, pool[q].id, pool[q].items[0]), pool[q].items[1..];
    ThroughOfLast(popped, x);
    TaggedOfLast(popped, pool, x);
    TaggedStays(popped + [x], pool, q, items);
    TaggedStays(pushed, pool, q, items);
    hide Through, Tagged, ItemsAt;
    forall k: nat {
      PopAt(Through(popped, k), pool, q, k);
    }
  }

  lemma PushKeepsFifo(s: State, i: nat, item: int)
    requires Sound(s) && Fifo(s) && Enabled(s, Push(i, item))
    ensures Fifo(Next(s, Push(i, item)))
  {
    hide FifoOf;
    assert s.pool[s.clients[i].queue].id == s.clients[i].id by { assert Past(s, i); }
    PushIsFifo(s.pushed, s.popped, s.pool, s.clients[i].queue, item);
  }

  lemma PopKeepsFifo(s: State, i: nat)
    requires Sound(s) && Fifo(s) && Enabled(s, Pop(i))
    ensures Fifo(Next(s, Pop(i)))
  {
    hide FifoOf;
    assert s.pool[s.clients[i].queue].id == s.clients[i].id by { assert Past(s, i); }
    PopIsFifo(s.pushed, s.popped, s.pool, s.clients[i].queue);
  }

  lemma NewQueueKeepsFifo(s: State, i: nat)
    requires Fifo(s) && Enabled(s, Create(i))
    ensures Fifo(Next(s, Create(i)))
  {
    assert forall k: nat :: ItemsAt(Next(s, Create(i)).pool, k) == ItemsAt(s.pool, k);
  }

  lemma SameQueuesKeepFifo(s: State, t: State)
    requires Fifo(s) && t.pool == s.pool && t.pushed == s.pushed && t.popped == s.popped
    ensures Fifo(t)
  {
  }

  lemma OthersKeepFifo(s: State, step: Step)
    requires Fifo(s) && Enabled(s, step) && !step.Push? && !step.Pop? && !step.Create?
    ensures Fifo(Next(s, step))
  {
    hide Fifo;
    SameQueuesKeepFifo(s, Next(s, step));
  }

  lemma {:induction false} AlwaysFifo(states: seq<State>, steps: seq<Step>, n: nat)
    requires Run(states, steps) && n < |states|
    ensures Fifo(states[n])
  {
    hide Next, Sound;
    if n > 0 {
      AlwaysFifo(states, steps, n - 1);
      AlwaysSound(states, steps, n - 1);
      match steps[n - 1]
      case Push(i, item) => PushKeepsFifo(states[n - 1], i, item);
      case Pop(i) => PopKeepsFifo(states[n - 1], i);
      case Create(i) => NewQueueKeepsFifo(states[n - 1], i);
      case step => OthersKeepFifo(states[n - 1], step);
    }
  }

  /**
   In every run, for every queue: what was pushed is what was popped followed by what waits, and
   nobody but the clients of the queue's id touched it.
   */
  lemma EveryQueueIsFifo(states: seq<State>, steps: seq<Step>, n: nat, k: nat)
    requires Run(states, steps) && n < |states| && k < |states[n].pool|
    ensures Through(states[n].pushed, k) == Through(states[n].popped, k) + states[n].pool[k].items
    ensures forall x :: 0 <= x < |states[n].pushed| && states[n].pushed[x].queue == k ==> states[n].pushed[x].id == states[n].pool[k].id
    ensures forall x :: 0 <= x < |states[n].popped| && states[n].popped[x].queue == k ==> states[n].popped[x].id == states[n].pool[k].id
  {
    hide Run;
    AlwaysFifo(states, steps, n);
    assert ItemsAt(states[n].pool, k) == states[n].pool[k].items;
  }

  /** With one queue for the id, its position tells the same as the id. */
  lemma {:induction false} OnlyIsThrough(log: seq<Moved>, pool: seq<Queue<int>>, id: int)
    requires Tagged(log, pool) && Unique(pool, id)
    ensures Only(log, id) == Through(log, Position(pool, id))
  {
    if log != [] {
      OnlyIsThrough(log[..|log| - 1], pool, id);
      var last := log[|log| - 1];
      assert last.queue < |pool| && pool[last.queue].id == last.id;
      assert last.id == id <==> last.queue == Position(pool, id);
    }
  }

  /** So an id that never overlapped is served first in, first out, over all its clients. */
  lemma QueuesAreFifoPerId(states: seq<State>, steps: seq<Step>, n: nat, id: int)
    requires Run(states, steps) && n < |states| && !Overlapped(states, n, id)
    ensures Only(states[n].pushed, id) == Only(states[n].popped, id) + Contents(states[n].pool, id)
  {
    hide Run;
    var s := states[n];
    AlwaysFifo(states, steps, n);
    AnIdIsUniqueUnlessOverlapped(states, steps, n, id);
    OnlyIsThrough(s.pushed, s.pool, id);
    OnlyIsThrough(s.popped, s.pool, id);
    assert ItemsAt(s.pool, Position(s.pool, id)) == Contents(s.pool, id);
  }

  // ----- what the steps say

  datatype Requested = Requested(id: int, kind: Kind)

  function RequestsOf(steps: seq<Step>): seq<Requested> {
    if steps == [] then []
    else
      var before, last := RequestsOf(steps[..|steps| - 1]), steps[|steps| - 1];
      if last.Request? then before + [Requested(last.id, last.kind)] else before
  }

  /** The port that client `i` opened. */
  function PortOf(steps: seq<Step>, i: nat): Option<int> {
    if steps == [] then None
    else
      var last := steps[|steps| - 1];
      if last.Open? && last.i == i then Some(last.port) else PortOf(steps[..|steps| - 1], i)
  }

  /** Who pushed what. */
  datatype Given = Given(client: nat, item: int)

  function PushesOf(steps: seq<Step>): seq<Given> {
    if steps == [] then []
    else
      var before, last := PushesOf(steps[..|steps| - 1]), steps[|steps| - 1];
      if last.Push? then before + [Given(last.i, last.item)] else before
  }

  /** Who popped. */
  function PopsOf(steps: seq<Step>): seq<nat> {
    if steps == [] then []
    else
      var before, last := PopsOf(steps[..|steps| - 1]), steps[|steps| - 1];
      if last.Pop? then before + [last.i] else before
  }

  ghost predicate ClientsFollow(s: State, requests: seq<Requested>) {
    && |s.clients| == |requests|
    && (forall i :: 0 <= i < |requests| ==> s.clients[i].id == requests[i].id && s.clients[i].kind == requests[i].kind)
  }

  ghost predicate PortsFollow(s: State, steps: seq<Step>) {
    forall i: nat :: i < |s.clients| && (Opened(s.clients[i]) || s.clients[i].stage == Gone) ==> PortOf(steps, i) == Some(s.clients[i].port)
  }

  ghost predicate MovesFollow(s: State, pushes: seq<Given>, pops: seq<nat>) {
    && |s.pushed| == |pushes| && |s.popped| == |pops|
    && (forall x :: 0 <= x < |pushes| ==>
          && pushes[x].client < |s.clients| && s.clients[pushes[x].client].kind.PushClient?
          && s.pushed[x].id == s.clients[pushes[x].client].id && s.pushed[x].item == pushes[x].item)
    && (forall x :: 0 <= x < |pops| ==>
          && pops[x] < |s.clients| && s.clients[pops[x]].kind.PullClient?
          && s.popped[x].id == s.clients[pops[x]].id)
  }

  /** Only a request adds a client, and nothing changes whose it is. */
  lemma ClientsStay(s: State, step: Step)
    requires Enabled(s, step)
    ensures var t := Next(s, step);
            && |t.clients| == |s.clients| + (if step.Request? then 1 else 0)
            && (step.Request? ==> t.clients[|s.clients|].id == step.id && t.clients[|s.clients|].kind == step.kind)
            && forall i :: 0 <= i < |s.clients| ==> t.clients[i].id == s.clients[i].id && t.clients[i].kind == s.clients[i].kind
  {
  }

  lemma NextClientsFollow(s: State, step: Step, steps: seq<Step>)
    requires Enabled(s, step) && ClientsFollow(s, RequestsOf(steps))
    ensures ClientsFollow(Next(s, step), RequestsOf(steps + [step]))
  {
    hide Next, Enabled;
    ClientsStay(s, step);
    assert (steps + [step])[..|steps|] == steps;
  }

  lemma NextPortsFollow(s: State, step: Step, steps: seq<Step>)
    requires Enabled(s, step) && PortsFollow(s, steps)
    ensures PortsFollow(Next(s, step), steps + [step])
  {
    assert (steps + [step])[..|steps|] == steps;
  }

  lemma PushFollows(s: State, step: Step, pushes: seq<Given>, pops: seq<nat>)
    requires Enabled(s, step) && step.Push? && MovesFollow(s, pushes, pops)
    ensures MovesFollow(Next(s, step), pushes + [Given(step.i, step.item)], pops)
  {
  }

  lemma PopFollows(s: State, step: Step, pushes: seq<Given>, pops: seq<nat>)
    requires Enabled(s, step) && step.Pop? && MovesFollow(s, pushes, pops)
    ensures MovesFollow(Next(s, step), pushes, pops + [step.i])
  {
  }

  lemma MovesStay(s: State, step: Step)
    requires Enabled(s, step) && !step.Push? && !step.Pop?
    ensures Next(s, step).pushed == s.pushed && Next(s, step).popped == s.popped
  {
  }

  lemma NextMovesFollow(s: State, step: Step, steps: seq<Step>)
    requires Enabled(s, step) && MovesFollow(s, PushesOf(steps), PopsOf(steps))
    ensures MovesFollow(Next(s, step), PushesOf(steps + [step]), PopsOf(steps + [step]))
  {
    assert (steps + [step])[..|steps|] == steps;
    hide Next;
    if step.Push? {
      PushFollows(s, step, PushesOf(steps), PopsOf(steps));
    } else if step.Pop? {
      PopFollows(s, step, PushesOf(steps), PopsOf(steps));
    } else {
      MovesStay(s, step);
      ClientsStay(s, step);
    }
  }

  /**
   In every run the clients are the requests, in order; a client serves the port it opened; what was pushed are
   the items of the pushes, by push clients, and what was popped was popped by pull clients.
   */
  lemma {:induction false} ClientsFollowTheSteps(states: seq<State>, steps: seq<Step>, n: nat)
    requires Run(states, steps) && n < |states|
    ensures ClientsFollow(states[n], RequestsOf(steps[..n])) && PortsFollow(states[n], steps[..n])
    ensures MovesFollow(states[n], PushesOf(steps[..n]), PopsOf(steps[..n]))
  {
    hide Next, Enabled;
    if n > 0 {
      ClientsFollowTheSteps(states, steps, n - 1);
      hide ClientsFollow, PortsFollow, MovesFollow;
      NextClientsFollow(states[n - 1], steps[n - 1], steps[..n - 1]);
      NextPortsFollow(states[n - 1], steps[n - 1], steps[..n - 1]);
      NextMovesFollow(states[n - 1], steps[n - 1], steps[..n - 1]);
      assert steps[..n] == steps[..n - 1] + [steps[n - 1]];
    }
  }

  // ----- the mutex

  predicate InCriticalSection(s: State, o: Owner) {
    match o
    case MainLoop => s.main == Locked || s.main == Holding
    case Thread(i) => AtStage(s, i, Writing) || AtStage(s, i, Unlocking)
  }

  ghost predicate Exclusive(s: State) {
    forall o :: InCriticalSection(s, o) <==> s.mutex == Some(o)
  }

  lemma MainStaysExclusive(s: State, step: Step)
    requires Exclusive(s) && Enabled(s, step) && MainStep(step)
    ensures Exclusive(Next(s, step))
  {
    assert InCriticalSection(s, MainLoop) <==> s.mutex == Some(MainLoop);
    forall o ensures InCriticalSection(Next(s, step), o) <==> Next(s, step).mutex == Some(o) {
      assert InCriticalSection(s, o) <==> s.mutex == Some(o);
    }
  }

  lemma ThreadStaysExclusive(s: State, step: Step)
    requires Exclusive(s) && Enabled(s, step) && !MainStep(step)
    ensures Exclusive(Next(s, step))
  {
    assert InCriticalSection(s, MainLoop) <==> s.mutex == Some(MainLoop);
    assert InCriticalSection(s, Thread(step.i)) <==> s.mutex == Some(Thread(step.i));
    forall o ensures InCriticalSection(Next(s, step), o) <==> Next(s, step).mutex == Some(o) {
      assert InCriticalSection(s, o) <==> s.mutex == Some(o);
    }
  }

  lemma NextStaysExclusive(s: State, step: Step)
    requires Exclusive(s) && Enabled(s, step)
    ensures Exclusive(Next(s, step))
  {
    hide Next, Enabled, Exclusive;
    if MainStep(step) {
      MainStaysExclusive(s, step);
    } else {
      ThreadStaysExclusive(s, step);
    }
  }

  /** In every run exactly the holder of the mutex is in its critical section, so the shared response has one user at a time. */
  lemma {:induction false} MutualExclusion(states: seq<State>, steps: seq<Step>, n: nat, o: Owner)
    requires Run(states, steps) && n < |states|
    ensures InCriticalSection(states[n], o) <==> states[n].mutex == Some(o)
  {
    AlwaysExclusive(states, steps, n);
  }

  lemma {:induction false} AlwaysExclusive(states: seq<State>, steps: seq<Step>, n: nat)
    requires Run(states, steps) && n < |states|
    ensures Exclusive(states[n])
  {
    hide Next, Enabled;
    if n > 0 {
      AlwaysExclusive(states, steps, n - 1);
      NextStaysExclusive(states[n - 1], steps[n - 1]);
    }
  }

  // ----- the response

  /** Its port is open. */
  predicate Opened(c: Client) {
    c.stage in {Locking, Writing, Unlocking, Signalling, Serving}
  }

  /** The client that wrote the response last. */
  function LastWriter(steps: seq<Step>): Option<nat> {
    if steps == [] then None
    else if steps[|steps| - 1].Write? then Some(steps[|steps| - 1].i)
    else LastWriter(steps[..|steps| - 1])
  }

  ghost predicate Written(s: State, writer: Option<nat>) {
    && (forall i :: 0 <= i < |s.clients| && Opened(s.clients[i]) ==> s.clients[i].port in s.ports)
    && (forall i, j :: 0 <= i < j < |s.clients| && Opened(s.clients[i]) && Opened(s.clients[j]) ==>
          s.clients[i].port != s.clients[j].port)
    && match writer
       case None => s.resp == None
       case Some(i) =>
         && i < |s.clients| && s.clients[i].stage in {Unlocking, Signalling, Serving, Gone}
         && s.resp == Some(Response(s.clients[i].id, s.clients[i].port))
  }

  lemma OpenKeepsWritten(s: State, i: nat, port: int, writer: Option<nat>)
    requires Written(s, writer) && Enabled(s, Open(i, port))
    ensures Written(Next(s, Open(i, port)), writer)
  {
  }

  lemma WriteIsWritten(s: State, i: nat, writer: Option<nat>)
    requires Written(s, writer) && Enabled(s, Write(i))
    ensures Written(Next(s, Write(i)), Some(i))
  {
  }

  lemma MainKeepsWritten(s: State, step: Step, writer: Option<nat>)
    requires Written(s, writer) && Enabled(s, step) && MainStep(step)
    ensures Written(Next(s, step), writer)
  {
  }

  lemma UpdateKeepsWritten(s: State, t: State, i: nat, c: Client, writer: Option<nat>)
    requires Written(s, writer) && i < |s.clients|
    requires t.clients == s.clients[i := c] && t.ports == s.ports && t.resp == s.resp
    requires c.id == s.clients[i].id && c.port == s.clients[i].port && (Opened(c) ==> Opened(s.clients[i]))
    requires s.clients[i].stage in {Unlocking, Signalling, Serving, Gone} ==> c.stage in {Unlocking, Signalling, Serving, Gone}
    ensures Written(t, writer)
  {
  }

  lemma OthersKeepWritten(s: State, step: Step, writer: Option<nat>)
    requires Written(s, writer) && Enabled(s, step) && !MainStep(step) && !step.Open? && !step.Write?
    ensures Written(Next(s, step), writer)
  {
    hide Written;
    var t := Next(s, step);
    UpdateKeepsWritten(s, t, step.i, t.clients[step.i], writer);
  }

  lemma NextKeepsWritten(s: State, step: Step, writer: Option<nat>)
    requires Written(s, writer) && Enabled(s, step)
    ensures Written(Next(s, step), if step.Write? then Some(step.i) else writer)
  {
    if MainStep(step) {
      MainKeepsWritten(s, step, writer);
    } else {
      match step
      case Open(i, port) => OpenKeepsWritten(s, i, port, writer);
      case Write(i) => WriteIsWritten(s, i, writer);
      case _ => OthersKeepWritten(s, step, writer);
    }
  }

  lemma {:induction false} AlwaysWritten(states: seq<State>, steps: seq<Step>, n: nat)
    requires Run(states, steps) && n < |states|
    ensures Written(states[n], LastWriter(steps[..n]))
  {
    hide Next, Enabled;
    if n > 0 {
      AlwaysWritten(states, steps, n - 1);
      NextKeepsWritten(states[n - 1], steps[n - 1], LastWriter(steps[..n - 1]));
      assert steps[..n][..n - 1] == steps[..n - 1];
    }
  }

  /** Every open port is some client's. */
  ghost predicate PortsAreHeld(s: State) {
    forall p :: p in s.ports ==> Holder(s, p)
  }

  ghost predicate Holder(s: State, p: int) {
    exists i :: 0 <= i < |s.clients| && Opened(s.clients[i]) && s.clients[i].port == p
  }

  /** A step opens its own port or closes its own, and moves no other client. */
  lemma PortStep(s: State, step: Step)
    requires Enabled(s, step)
    ensures var t := Next(s, step);
            && |s.clients| <= |t.clients|
            && (step.Open? ==> t.ports == s.ports + {step.port} && step.i < |s.clients| && Opened(t.clients[step.i])
                               && t.clients[step.i].port == step.port)
            && (step.Leave? ==> step.i < |s.clients| && t.ports == s.ports - {s.clients[step.i].port})
            && (!step.Open? && !step.Leave? ==> t.ports == s.ports)
            && forall i :: 0 <= i < |s.clients| && Opened(s.clients[i]) && (step.Leave? ==> step.i != i) ==>
                 Opened(t.clients[i]) && t.clients[i].port == s.clients[i].port
  {
  }

  lemma NextKeepsHolders(s: State, step: Step)
    requires PortsAreHeld(s) && Enabled(s, step)
    ensures PortsAreHeld(Next(s, step))
  {
    hide Next, Enabled, Opened;
    var t := Next(s, step);
    PortStep(s, step);
    forall p | p in t.ports ensures Holder(t, p) {
      if step.Open? && p == step.port {
        assert t.clients[step.i].port == p;
      } else {
        var i :| 0 <= i < |s.clients| && Opened(s.clients[i]) && s.clients[i].port == p;
        assert Opened(t.clients[i]) && t.clients[i].port == p;
      }
    }
  }

  lemma {:induction false} AlwaysHeld(states: seq<State>, steps: seq<Step>, n: nat)
    requires Run(states, steps) && n < |states|
    ensures PortsAreHeld(states[n])
  {
    hide Next, Enabled;
    if n > 0 {
      AlwaysHeld(states, steps, n - 1);
      NextKeepsHolders(states[n - 1], steps[n - 1]);
    }
  }

  /** In every run a port is open exactly as long as one client, and no other, serves it. */
  lemma OpenPortsAreServed(states: seq<State>, steps: seq<Step>, n: nat, p: int)
    requires Run(states, steps) && n < |states|
    ensures var clients := states[n].clients;
            && (p in states[n].ports <==> exists i :: 0 <= i < |clients| && Opened(clients[i]) && clients[i].port == p)
            && forall i, j :: 0 <= i < j < |clients| && Opened(clients[i]) && Opened(clients[j]) ==> clients[i].port != clients[j].port
  {
    hide Run;
    AlwaysHeld(states, steps, n);
    AlwaysWritten(states, steps, n);
  }

  /** The response names the client and the port that the client opened. */
  ghost predicate Names(resp: Option<Response>, c: Client) {
    Opened(c) && resp == Some(Response(c.id, c.port))
  }

  /** Client `w` has left, and `c` has its id and opened its port again. */
  predicate Replaces(s: State, c: Client, w: nat) {
    w < |s.clients| && s.clients[w].stage == Gone && Opened(c) && c.id == s.clients[w].id && c.port == s.clients[w].port
  }

  /** The client wrote last, or it replaces the one that did. */
  predicate StandsFor(s: State, i: nat, writer: Option<nat>)
    requires i < |s.clients|
  {
    writer.Some? && ((writer.value == i && s.clients[i].stage != Gone) || Replaces(s, s.clients[i], writer.value))
  }

  lemma NamesTheLastWriter(s: State, writer: Option<nat>)
    requires Written(s, writer) && s.clients != []
    ensures Names(s.resp, s.clients[|s.clients| - 1]) <==> StandsFor(s, |s.clients| - 1, writer)
  {
  }

  /**
   In every run: a response names the client it answers, the newest one, and the port it serves exactly
   when no other client's write followed that client's own, or else the last one to write has left and
   the newest client has its id and opened its port again.
   */
  lemma AResponseIsOfTheLastWriter(states: seq<State>, steps: seq<Step>, n: nat)
    requires Run(states, steps) && n < |steps| && steps[n].Respond?
    ensures var s := states[n];
            && s.clients != [] && states[n + 1].sent == s.sent + [Sent(|s.clients| - 1, s.resp)]
            && (Names(s.resp, s.clients[|s.clients| - 1]) <==> StandsFor(s, |s.clients| - 1, LastWriter(steps[..n])))
  {
    AlwaysSound(states, steps, n);
    AlwaysWritten(states, steps, n);
    NamesTheLastWriter(states[n], LastWriter(steps[..n]));
    hide Written, Names, StandsFor;
  }

  // ----- one client at a time

  predicate Done(c: Client) {
    c.stage == Serving || c.stage == Failed || c.stage == Gone
  }

  predicate AllDone(s: State) {
    forall i :: 0 <= i < |s.clients| ==> Done(s.clients[i])
  }

  /** No request is accepted while an earlier client is still on its way. */
  ghost predicate OneAtATime(states: seq<State>, steps: seq<Step>) {
    |steps| <= |states| && forall i :: 0 <= i < |steps| && steps[i].Request? ==> AllDone(states[i])
  }

  /** Every wait ends by a signal. */
  ghost predicate NoTimeouts(steps: seq<Step>) {
    forall i :: 0 <= i < |steps| ==> !steps[i].Timeout?
  }

  /** What the shared state says while the newest thread is at its stage; after a timeout the main loop is idle early. */
  ghost predicate Handshake(s: State) {
    && (forall i :: 0 <= i < |s.clients| - 1 ==> Done(s.clients[i]))
    && (s.main != Idle ==> s.clients != [])
    && (s.clients == [] ==> s.mutex == None)
    && (s.clients != [] ==>
          var last := |s.clients| - 1;
          var c := s.clients[last];
          var held := if c.stage in {Writing, Unlocking} then Some(Thread(last)) else None;
          var own := s.resp == Some(Response(c.id, c.port));
          match s.main
          case Idle => s.mutex == held
          case Locked => c.stage in {Finding, Creating, Opening, Locking, Failed} && s.mutex == Some(MainLoop)
          case Waiting => c.stage != Serving && c.stage != Gone && s.mutex == held && (c.stage in {Unlocking, Signalling} ==> own)
          case Woken => s.mutex == None && (c.stage == Failed || (Done(c) && own))
          case Holding => s.mutex == Some(MainLoop) && (c.stage == Failed || (Done(c) && own)))
  }

  lemma MainKeepsHandshake(s: State, step: Step)
    requires Handshake(s) && Enabled(s, step) && MainStep(step) && (step.Request? ==> AllDone(s))
    ensures Handshake(Next(s, step))
  {
  }

  lemma OnlyTheNewestMoves(s: State, step: Step)
    requires Handshake(s) && Enabled(s, step) && !MainStep(step)
    ensures s.clients != [] && step.i == |s.clients| - 1
  {
  }

  lemma LockingKeepsHandshake(s: State, step: Step)
    requires Handshake(s) && Enabled(s, step) && (step.Lock? || step.Write? || step.Unlock? || step.Signal?)
    ensures Handshake(Next(s, step))
  {
    OnlyTheNewestMoves(s, step);
  }

  lemma OpeningKeepsHandshake(s: State, step: Step)
    requires Handshake(s) && Enabled(s, step) && (step.Open? || step.OpenFails?)
    ensures Handshake(Next(s, step))
  {
    OnlyTheNewestMoves(s, step);
  }

  lemma SearchKeepsHandshake(s: State, step: Step)
    requires Handshake(s) && Enabled(s, step) && (step.Find? || step.Create?)
    ensures Handshake(Next(s, step))
  {
    OnlyTheNewestMoves(s, step);
  }

  lemma HandshakeStays(s: State, step: Step)
    requires Handshake(s) && Enabled(s, step) && (step.Request? ==> AllDone(s))
    ensures Handshake(Next(s, step))
  {
    hide Handshake, Next;
    if MainStep(step) {
      MainKeepsHandshake(s, step);
    } else if step.Lock? || step.Write? || step.Unlock? || step.Signal? {
      LockingKeepsHandshake(s, step);
    } else if step.Open? || step.OpenFails? {
      OpeningKeepsHandshake(s, step);
    } else {
      SearchKeepsHandshake(s, step);
    }
  }

  lemma InitialHandshake(s: State)
    requires Initial(s)
    ensures Handshake(s)
  {
  }

  lemma {:induction false} AlwaysHandshake(states: seq<State>, steps: seq<Step>, n: nat)
    requires Run(states, steps) && OneAtATime(states, steps) && n < |states|
    ensures Handshake(states[n])
  {
    hide Next, Enabled, Handshake;
    assert Handshake(states[0]) by { InitialHandshake(states[0]); }
    if n > 0 {
      AlwaysHandshake(states, steps, n - 1);
      HandshakeStays(states[n - 1], steps[n - 1]);
    }
  }

  /** The answer names the client and its port, unless the client could not open one. */
  ghost predicate IsAnswer(c: Client, resp: Option<Response>) {
    c.stage == Failed || ((c.stage == Serving || c.stage == Gone) && resp == Some(Response(c.id, c.port)))
  }

  ghost predicate Answers(s: State) {
    forall k :: 0 <= k < |s.sent| ==> s.sent[k].client < |s.clients| && IsAnswer(s.clients[s.sent[k].client], s.sent[k].resp)
  }

  lemma NextKeepsAnswers(s: State, step: Step)
    requires Handshake(s) && Answers(s) && Enabled(s, step)
    ensures Answers(Next(s, step))
  {
    var t := Next(s, step);
    assert forall i, resp :: 0 <= i < |s.clients| && IsAnswer(s.clients[i], resp) ==> IsAnswer(t.clients[i], resp);
    if step.Respond? {
      assert t.sent == s.sent + [Sent(|s.clients| - 1, s.resp)];
    } else {
      assert t.sent == s.sent;
    }
  }

  /** One client at a time: every response names its client and the port, if the client could open one. */
  lemma {:induction false} ResponsesNameTheirClient(states: seq<State>, steps: seq<Step>, n: nat)
    requires Run(states, steps) && OneAtATime(states, steps) && n < |states|
    ensures Answers(states[n])
  {
    hide Next, Enabled, Handshake;
    if n > 0 {
      ResponsesNameTheirClient(states, steps, n - 1);
      AlwaysHandshake(states, steps, n - 1);
      NextKeepsAnswers(states[n - 1], steps[n - 1]);
    }
  }

  /** One client at a time: no id ever gets two queues. */
  lemma OneAtATimeNeverOverlaps(states: seq<State>, steps: seq<Step>, n: nat, id: int)
    requires Run(states, steps) && OneAtATime(states, steps) && n < |states|
    ensures !Overlapped(states, n, id)
  {
    forall m: nat, i: nat, j: nat ensures !Overlaps(states, n, m, i, j, id) {
      if m <= n {
        AlwaysHandshake(states, steps, m);
      }
    }
  }

  /**
   One client at a time: the signal of a client that opened its port finds the main loop waiting for
   it exactly when no wait has timed out since the client's request.
   */
  lemma NoSignalIsLost(states: seq<State>, steps: seq<Step>, r: nat, n: nat)
    requires Run(states, steps) && OneAtATime(states, steps) && r < n < |states|
    requires steps[r].Request? && Enabled(states[n], Signal(|states[r].clients|))
    ensures states[n].main == Waiting <==> forall j :: r < j < n ==> !steps[j].Timeout?
  {
    AlwaysHandshake(states, steps, n);
    WaitsUnlessTimedOut(states, steps, r, n);
  }

  /** The client of request `r` is not done: the main loop is still with it unless it timed out. */
  lemma {:induction false} WaitsUnlessTimedOut(states: seq<State>, steps: seq<Step>, r: nat, n: nat)
    requires Run(states, steps) && OneAtATime(states, steps) && r < n < |states| && steps[r].Request?
    requires |states[r].clients| < |states[n].clients| && !Done(states[n].clients[|states[r].clients|])
    ensures |states[n].clients| == |states[r].clients| + 1
    ensures states[n].main in {Locked, Waiting} <==> forall j :: r < j < n ==> !steps[j].Timeout?
    ensures states[n].main in {Locked, Waiting, Idle}
  {
    hide Next, Enabled, Handshake;
    var c := |states[r].clients|;
    RequestStarts(states[r], steps[r]);
    if r + 1 < n {
      var s, step := states[n - 1], steps[n - 1];
      RunGrows(states, steps, r + 1, n - 1);
      DoneStays(s, step, c);
      WaitsUnlessTimedOut(states, steps, r, n - 1);
      AlwaysHandshake(states, steps, n - 1);
      AlwaysHandshake(states, steps, n);
      NotDoneStep(s, step);
    }
  }

  lemma RequestStarts(s: State, step: Step)
    requires Enabled(s, step) && step.Request?
    ensures |Next(s, step).clients| == |s.clients| + 1 && Next(s, step).main == Locked
  {
  }

  /** A step after which the newest client is not yet done. */
  lemma NotDoneStep(s: State, step: Step)
    requires Handshake(s) && Enabled(s, step) && s.clients != [] && !Done(s.clients[|s.clients| - 1])
    requires Handshake(Next(s, step)) && !Done(Next(s, step).clients[|s.clients| - 1])
    requires s.main in {Locked, Waiting, Idle} && !step.Request?
    ensures |Next(s, step).clients| == |s.clients|
    ensures Next(s, step).main in {Locked, Waiting, Idle}
    ensures Next(s, step).main in {Locked, Waiting} <==> s.main in {Locked, Waiting} && !step.Timeout?
  {
    if !MainStep(step) {
      OnlyTheNewestMoves(s, step);
    }
  }

  lemma DoneStays(s: State, step: Step, i: nat)
    requires Enabled(s, step) && i < |s.clients| && !Done(Next(s, step).clients[i])
    ensures !Done(s.clients[i])
  {
  }

  // ----- no timeouts

  ghost predicate IdleMeansDone(s: State) {
    && (s.main == Idle ==> AllDone(s))
    && (forall k :: 0 <= k < |s.lost| ==> AtStage(s, s.lost[k], Failed))
  }

  lemma IdleMeansDoneStays(s: State, step: Step)
    requires Handshake(s) && IdleMeansDone(s) && Enabled(s, step) && !step.Timeout?
    ensures IdleMeansDone(Next(s, step))
  {
    if !MainStep(step) {
      OnlyTheNewestMoves(s, step);
    }
  }

  lemma RequestMeansIdle(s: State, step: Step)
    requires Enabled(s, step)
    ensures step.Request? ==> s.main == Idle
  {
  }

  lemma {:induction false} NoTimeoutsMeansDone(states: seq<State>, steps: seq<Step>, n: nat)
    requires Run(states, steps) && NoTimeouts(steps) && n < |states|
    ensures Handshake(states[n]) && IdleMeansDone(states[n])
  {
    hide Next, Enabled, Handshake;
    if n == 0 {
      InitialHandshake(states[0]);
    } else {
      NoTimeoutsMeansDone(states, steps, n - 1);
      assert steps[n - 1].Request? ==> AllDone(states[n - 1]) by { RequestMeansIdle(states[n - 1], steps[n - 1]); }
      HandshakeStays(states[n - 1], steps[n - 1]);
      IdleMeansDoneStays(states[n - 1], steps[n - 1]);
    }
  }

  /** Without timeouts clients come one at a time, and only a client that could not open a port loses its signal. */
  lemma NoTimeoutsMeansOneAtATime(states: seq<State>, steps: seq<Step>)
    requires Run(states, steps) && NoTimeouts(steps)
    ensures OneAtATime(states, steps)
    ensures forall n, k :: 0 <= n < |states| && 0 <= k < |states[n].lost| ==> AtStage(states[n], states[n].lost[k], Failed)
  {
    forall n | 0 <= n < |states| ensures IdleMeansDone(states[n]) {
      NoTimeoutsMeansDone(states, steps, n);
    }
  }

  // ----- what a timeout can do

  ghost predicate Reachable(s: State) {
    exists states, steps :: Run(states, steps) && states[|steps|] == s
  }

  lemma Extend(s: State, step: Step)
    requires Reachable(s) && Enabled(s, step)
    ensures Reachable(Next(s, step))
  {
    var states, steps :| Run(states, steps) && states[|steps|] == s;
    assert Run(states + [Next(s, step)], steps + [step]);
  }

  /** One timeout, and the pool holds one id twice. */
  lemma ATimeoutCanSplitAQueue() returns (s: State)
    ensures Reachable(s) && |s.pool| == 2 && s.pool[0].id == s.pool[1].id
  {
    var s0 := State(Idle, None, [], [], None, {}, [], [], [], []);
    assert Run([s0], []);
    Extend(s0, Request(5, PushClient));
    var c := Client(5, PushClient, Finding, 0, 0);
    var s1 := s0.(main := Locked, mutex := Some(MainLoop), clients := [c]);
    Extend(s1, Wait);
    var s2 := s1.(main := Waiting, mutex := None);
    Extend(s2, Find(0));
    var s3 := s2.(clients := [c.(stage := Creating)]);
    Extend(s3, Timeout);
    s := SecondClientSplits(s3.(main := Idle), c);
  }

  lemma SecondClientSplits(s4: State, c: Client) returns (s: State)
    requires Reachable(s4) && c == Client(5, PushClient, Finding, 0, 0)
    requires s4 == State(Idle, None, [c.(stage := Creating)], [], None, {}, [], [], [], [])
    ensures Reachable(s) && |s.pool| == 2 && s.pool[0].id == s.pool[1].id
  {
    var d := c.(kind := PullClient);
    Extend(s4, Request(5, PullClient));
    var s5 := s4.(main := Locked, mutex := Some(MainLoop), clients := [c.(stage := Creating), d]);
    assert Next(s4, Request(5, PullClient)) == s5;
    Extend(s5, Find(1));
    var s6 := s5.(clients := [c.(stage := Creating), d.(stage := Creating)]);
    assert Next(s5, Find(1)) == s6;
    s := BothCreate(s6, c);
  }

  lemma BothCreate(s6: State, c: Client) returns (s: State)
    requires Reachable(s6) && c == Client(5, PushClient, Finding, 0, 0)
    requires s6.clients == [c.(stage := Creating), c.(kind := PullClient, stage := Creating)] && s6.pool == []
    ensures Reachable(s) && |s.pool| == 2 && s.pool[0].id == s.pool[1].id
  {
    Extend(s6, Create(0));
    var s7 := Next(s6, Create(0));
    assert s7.clients == [c.(stage := Opening), c.(kind := PullClient, stage := Creating)];
    Extend(s7, Create(1));
    s := Next(s7, Create(1));
  }

  /** One timeout, and client 1 of id 6 is sent the id and port of client 0: the late signal of client 0 wakes its wait. */
  lemma ATimeoutCanMisdirectAResponse() returns (s: State)
    ensures Reachable(s) && |s.clients| == 2 && s.clients[1].id == 6
    ensures s.sent == [Sent(1, Some(Response(5, 80)))]
  {
    var s0 := State(Idle, None, [], [], None, {}, [], [], [], []);
    assert Run([s0], []);
    Extend(s0, Request(5, PushClient));
    var c := Client(5, PushClient, Finding, 0, 0);
    var s1 := s0.(main := Locked, mutex := Some(MainLoop), clients := [c]);
    assert Next(s0, Request(5, PushClient)) == s1;
    Extend(s1, Wait);
    var s2 := s1.(main := Waiting, mutex := None);
    s := FirstClientOpens(s2, c);
  }

  lemma FirstClientOpens(s2: State, c: Client) returns (s: State)
    requires Reachable(s2) && c == Client(5, PushClient, Finding, 0, 0)
    requires s2 == State(Waiting, None, [c], [], None, {}, [], [], [], [])
    ensures Reachable(s) && |s.clients| == 2 && s.clients[1].id == 6 && s.sent == [Sent(1, Some(Response(5, 80)))]
  {
    Extend(s2, Find(0));
    Extend(s2.(clients := [c.(stage := Creating)]), Create(0));
    var s4 := s2.(clients := [c.(stage := Opening)], pool := [Queue(5, [])]);
    Extend(s4, Open(0, 80));
    s := LateSignalMisdirects(s4.(clients := [c.(stage := Locking, port := 80)], ports := {80}), c);
  }

  lemma LateSignalMisdirects(s5: State, c: Client) returns (s: State)
    requires Reachable(s5) && c == Client(5, PushClient, Finding, 0, 0)
    requires s5 == State(Waiting, None, [c.(stage := Locking, port := 80)], [Queue(5, [])], None, {80}, [], [], [], [])
    ensures Reachable(s) && |s.clients| == 2 && s.clients[1].id == 6 && s.sent == [Sent(1, Some(Response(5, 80)))]
  {
    var d := c.(port := 80);
    Extend(s5, Lock(0));
    var s6 := s5.(mutex := Some(Thread(0)), clients := [d.(stage := Writing)]);
    assert Next(s5, Lock(0)) == s6;
    Extend(s6, Write(0));
    var s7 := s6.(resp := Some(Response(5, 80)), clients := [d.(stage := Unlocking)]);
    assert Next(s6, Write(0)) == s7;
    Extend(s7, Unlock(0));
    var s8 := s7.(mutex := None, clients := [d.(stage := Signalling)]);
    assert Next(s7, Unlock(0)) == s8;
    Extend(s8, Timeout);
    s := SecondWaitIsWoken(s8.(main := Idle), d);
  }

  lemma SecondWaitIsWoken(s9: State, d: Client) returns (s: State)
    requires Reachable(s9) && s9.main == Idle && s9.mutex == None && s9.sent == [] && s9.resp == Some(Response(5, 80))
    requires s9.clients == [d.(stage := Signalling)]
    ensures Reachable(s) && |s.clients| == 2 && s.clients[1].id == 6 && s.sent == [Sent(1, Some(Response(5, 80)))]
  {
    Extend(s9, Request(6, PullClient));
    var t := Next(s9, Request(6, PullClient));
    Extend(t, Wait);
    s := WokenResponds(Next(t, Wait), d);
  }

  lemma WokenResponds(t: State, d: Client) returns (s: State)
    requires Reachable(t) && t.main == Waiting && t.mutex == None && t.sent == [] && t.resp == Some(Response(5, 80))
    requires t.clients == [d.(stage := Signalling), Client(6, PullClient, Finding, 0, 0)]
    ensures Reachable(s) && |s.clients| == 2 && s.clients[1].id == 6 && s.sent == [Sent(1, Some(Response(5, 80)))]
  {
    Extend(t, Signal(0));
    var u := Next(t, Signal(0));
    assert u.main == Woken && u.mutex == None;
    Extend(u, Wake);
    s := AwakeResponds(Next(u, Wake));
  }

  lemma AwakeResponds(v: State) returns (s: State)
    requires Reachable(v) && v.main == Holding && v.sent == [] && v.resp == Some(Response(5, 80))
    requires |v.clients| == 2 && v.clients[1].id == 6
    ensures Reachable(s) && |s.clients| == 2 && s.clients[1].id == 6 && s.sent == [Sent(1, Some(Response(5, 80)))]
  {
    Extend(v, Respond);
    s := Next(v, Respond);
  }
}
