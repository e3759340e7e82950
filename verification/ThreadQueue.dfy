/**
 The per-thread promise queue `enqueueThreadTurn` of apps/cli/src/connectors/chat-runtime.ts. A
 turn waits for the promise found in the map, runs, removes itself from the map if it is still
 the entry, and then settles. Enqueues and the steps of all turns interleave freely.
 */
module ThreadQueue {
  import opened Prelude

  datatype Phase =
    | Queued
    | Running
    | Finishing(ok: bool)   // the work has settled, the finally handler has not run
    | Settled(ok: bool)

  /** `previous` is the turn whose promise was found in the map, `None` for a resolved one. */
  datatype Turn = Turn(key: string, previous: Option<nat>, phase: Phase)

  datatype State = State(turns: seq<Turn>, queues: map<string, nat>)

  datatype Event = Enqueue(key: string) | Start(n: nat) | Finish(n: nat, ok: bool) | Settle(n: nat)

  const EMPTY := State([], map[])

  predicate Enabled(s: State, e: Event) {
    match e
    case Enqueue(_) => true
    case Start(n) =>
      && n < |s.turns| && s.turns[n].phase.Queued?
      && (s.turns[n].previous.Some? ==>
            s.turns[n].previous.value < |s.turns| && s.turns[s.turns[n].previous.value].phase.Settled?)
    case Finish(n, _) => n < |s.turns| && s.turns[n].phase.Running?
    case Settle(n) => n < |s.turns| && s.turns[n].phase.Finishing?
  }

  function SetPhase(s: State, n: nat, phase: Phase): State
    requires n < |s.turns|
  {
    s.(turns := s.turns[n := s.turns[n].(phase := phase)])
  }

  function Apply(s: State, e: Event): State
    requires Enabled(s, e)
  {
    match e
    case Enqueue(key) =>
      var previous := if key in s.queues then Some(s.queues[key]) else None;
      State(s.turns + [Turn(key, previous, Queued)], s.queues[key := |s.turns|])
    case Start(n) => SetPhase(s, n, Running)
    case Finish(n, ok) => SetPhase(s, n, Finishing(ok))
    case Settle(n) =>
      var t := SetPhase(s, n, Settled(s.turns[n].phase.ok));
      var key := s.turns[n].key;
      if key in s.queues && s.queues[key] == n then t.(queues := t.queues - {key}) else t
  }

  function Run(s: State, es: seq<Event>): Option<State>
    decreases |es|
  {
    if es == [] then Some(s)
    else if Enabled(s, es[0]) then Run(Apply(s, es[0]), es[1..])
    else None
  }

  /** Turn `i` was enqueued for the same thread as turn `j`, earlier. */
  predicate Before(s: State, i: int, j: int) {
    0 <= i < j < |s.turns| && s.turns[i].key == s.turns[j].key
  }

  predicate Unsettled(s: State, n: int) {
    0 <= n < |s.turns| && !s.turns[n].phase.Settled?
  }

  /** What a turn waits for is the last of the unsettled turns enqueued before it. */
  ghost predicate ChainInv(s: State) {
    && (forall j :: 0 <= j < |s.turns| && s.turns[j].previous.Some? ==> Before(s, s.turns[j].previous.value, j))
    && (forall i, j :: Before(s, i, j) && s.turns[j].previous.Some? ==> i <= s.turns[j].previous.value)
    && (forall i, j :: Before(s, i, j) && s.turns[j].previous.None? ==> s.turns[i].phase.Settled?)
    && (forall i, j :: Before(s, i, j) && !s.turns[j].phase.Queued? ==> s.turns[i].phase.Settled?)
  }

  /** The map holds the last turn of each thread that has an unsettled one. */
  ghost predicate MapInv(s: State) {
    && (forall k :: k in s.queues ==> Unsettled(s, s.queues[k]) && s.turns[s.queues[k]].key == k)
    && (forall k, j :: k in s.queues && 0 <= j < |s.turns| && s.turns[j].key == k ==> j <= s.queues[k])
    && (forall j :: Unsettled(s, j) ==> s.turns[j].key in s.queues)
  }

  ghost predicate Inv(s: State) {
    ChainInv(s) && MapInv(s)
  }

  lemma InitialInv()
    ensures Inv(EMPTY)
  {}

  lemma EnqueueInv(s: State, key: string)
    requires Inv(s)
    ensures Inv(Apply(s, Enqueue(key)))
  {
    var t := Apply(s, Enqueue(key));
    assert forall j :: 0 <= j < |s.turns| ==> t.turns[j] == s.turns[j];
    forall i, j | Before(t, i, j) ensures j < |s.turns| ==> Before(s, i, j) {}
  }

  lemma PhaseChain(s: State, n: nat, phase: Phase)
    requires ChainInv(s) && Unsettled(s, n) && !phase.Queued?
    requires forall i :: Before(s, i, n) ==> s.turns[i].phase.Settled?
    ensures ChainInv(SetPhase(s, n, phase))
  {
    forall i, j | Before(SetPhase(s, n, phase), i, j) ensures Before(s, i, j) {}
  }

  lemma PhaseInv(s: State, n: nat, phase: Phase)
    requires ChainInv(s) && MapInv(s) && Unsettled(s, n) && !phase.Settled? && !phase.Queued?
    requires forall i :: Before(s, i, n) ==> s.turns[i].phase.Settled?
    ensures Inv(SetPhase(s, n, phase))
  {
    PhaseChain(s, n, phase);
    hide ChainInv, Before;
    assert forall j :: Unsettled(SetPhase(s, n, phase), j) ==> Unsettled(s, j);
  }

  lemma SettleMap(s: State, n: nat)
    requires MapInv(s) && Enabled(s, Settle(n))
    requires forall i :: Before(s, i, n) ==> s.turns[i].phase.Settled?
    ensures MapInv(Apply(s, Settle(n)))
  {
    forall j | Unsettled(Apply(s, Settle(n)), j) && s.turns[j].key == s.turns[n].key
      ensures n < j
    {
      assert Unsettled(s, j) && !Before(s, j, n);
    }
  }

  lemma SameChain(s: State, t: State)
    requires ChainInv(s) && t.turns == s.turns
    ensures ChainInv(t)
  {
    forall i, j | Before(t, i, j) ensures Before(s, i, j) {}
  }

  lemma SettleInv(s: State, n: nat)
    requires Inv(s) && Enabled(s, Settle(n))
    ensures Inv(Apply(s, Settle(n)))
  {
    PhaseChain(s, n, Settled(s.turns[n].phase.ok));
    SettleMap(s, n);
    SameChain(SetPhase(s, n, Settled(s.turns[n].phase.ok)), Apply(s, Settle(n)));
  }

  lemma EventInv(s: State, e: Event)
    requires Inv(s) && Enabled(s, e)
    ensures Inv(Apply(s, e))
  {
    match e
    case Enqueue(key) => EnqueueInv(s, key);
    case Start(n) =>
      if s.turns[n].previous.Some? {
        var p := s.turns[n].previous.value;
        forall i | Before(s, i, n) ensures s.turns[i].phase.Settled? {
          assert i < p ==> Before(s, i, p);
        }
      }
      PhaseInv(s, n, Running);
    case Finish(n, ok) => PhaseInv(s, n, Finishing(ok));
    case Settle(n) => SettleInv(s, n);
  }

  lemma {:induction false} RunInv(s: State, es: seq<Event>)
    requires Inv(s) && Run(s, es).Some?
    ensures Inv(Run(s, es).value)
    decreases |es|
  {
    if es != [] {
      EventInv(s, es[0]);
      RunInv(Apply(s, es[0]), es[1..]);
    }
  }

  /**
   In every interleaving, a turn that has started finds every earlier turn of its thread settled,
   however those ended: one at a time, in the order they were enqueued. The map has an entry for
   a thread exactly while one of its turns is unsettled.
   */
  lemma OneAtATimeInOrder(es: seq<Event>, s: State)
    requires Run(EMPTY, es) == Some(s)
    ensures forall i, j :: Before(s, i, j) && !s.turns[j].phase.Queued? ==> s.turns[i].phase.Settled?
    ensures forall k :: k in s.queues <==>
      exists n :: Unsettled(s, n) && s.turns[n].key == k
  {
    InitialInv();
    RunInv(EMPTY, es);
  }

  /** The first unsettled turn from position `n` on of thread `k`. */
  lemma {:induction false} FirstUnsettled(s: State, k: string, n: nat) returns (m: nat)
    requires n < |s.turns| && s.turns[n].key == k && !s.turns[n].phase.Settled?
    ensures m <= n && s.turns[m].key == k && !s.turns[m].phase.Settled?
    ensures forall i :: Before(s, i, m) ==> s.turns[i].phase.Settled?
    decreases n
  {
    if i :| Before(s, i, n) && !s.turns[i].phase.Settled? {
      m := FirstUnsettled(s, k, i);
    } else {
      m := n;
    }
  }

  /**
   The queue itself holds nothing up, and no failure blocks the thread: while a thread has an entry,
   its first unsettled turn can take its next step, where the step of a running turn is that its
   work settles, in whatever way. `TurnDispatch.StopsExactly` says when that work cannot.
   */
  lemma Progress(es: seq<Event>, s: State, k: string) returns (n: nat, e: Event)
    requires Run(EMPTY, es) == Some(s) && k in s.queues
    ensures n < |s.turns| && s.turns[n].key == k && !s.turns[n].phase.Settled?
    ensures forall i :: Before(s, i, n) ==> s.turns[i].phase.Settled?
    ensures Enabled(s, e) && (e == Start(n) || e == Finish(n, true) || e == Settle(n))
  {
    InitialInv();
    RunInv(EMPTY, es);
    n := FirstUnsettled(s, k, s.queues[k]);
    e := match s.turns[n].phase
      case Queued => Start(n)
      case Running => Finish(n, true)
      case _ => Settle(n);
  }

  /** The thread an event is about. */
  function Key(s: State, e: Event): string
    requires Enabled(s, e)
  {
    if e.Enqueue? then e.key else s.turns[e.n].key
  }

  /**
   Threads do not wait for each other: what can happen in one thread still can after any event of
   another one, and two steps of turns lead to the same state in either order.
   */
  lemma ThreadsAreIndependent(s: State, e: Event, f: Event)
    requires Enabled(s, e) && Enabled(s, f) && Key(s, e) != Key(s, f)
    ensures Enabled(Apply(s, e), f) && Enabled(Apply(s, f), e)
    ensures !e.Enqueue? && !f.Enqueue? ==> Apply(Apply(s, e), f) == Apply(Apply(s, f), e)
  {
    StaysEnabled(s, e, f);
    StaysEnabled(s, f, e);
    if !e.Enqueue? && !f.Enqueue? {
      StepsCommute(s, e, f);
    }
  }

  /** A step of a turn sets its phase, and settling it may drop its thread's entry. */
  lemma StepShape(s: State, e: Event)
    requires Enabled(s, e) && !e.Enqueue?
    ensures var t := Apply(s, e);
      && t.turns == s.turns[e.n := s.turns[e.n].(phase := t.turns[e.n].phase)]
      && t.turns[e.n].phase == (match e
                                case Start(_) => Running
                                case Finish(_, ok) => Finishing(ok)
                                case Settle(_) => Settled(s.turns[e.n].phase.ok))
      && t.queues == if e.Settle? && Key(s, e) in s.queues && s.queues[Key(s, e)] == e.n
                     then s.queues - {Key(s, e)} else s.queues
  {}

  lemma StepsCommute(s: State, e: Event, f: Event)
    requires Enabled(s, e) && Enabled(s, f) && Key(s, e) != Key(s, f) && !e.Enqueue? && !f.Enqueue?
    requires Enabled(Apply(s, e), f) && Enabled(Apply(s, f), e)
    ensures Apply(Apply(s, e), f) == Apply(Apply(s, f), e)
  {
    StepShape(s, e);
    StepShape(s, f);
    StepShape(Apply(s, e), f);
    StepShape(Apply(s, f), e);
    hide Apply, Enabled;
    assert Apply(Apply(s, e), f).turns == Apply(Apply(s, f), e).turns;
    assert Apply(Apply(s, e), f).queues == Apply(Apply(s, f), e).queues;
  }

  lemma StaysEnabled(s: State, e: Event, f: Event)
    requires Enabled(s, e) && Enabled(s, f) && Key(s, e) != Key(s, f)
    ensures Enabled(Apply(s, e), f)
  {}

  /** The map and the promise chains as the source keeps them. */
  class ThreadQueues {
    var threadQueues: map<string, nat>
    var turns: seq<Turn>

    ghost function View(): State
      reads this
    {
      State(turns, threadQueues)
    }

    ghost predicate Valid()
      reads this
    {
      Inv(View())
    }

    constructor ()
      ensures Valid() && View() == EMPTY
    {
      threadQueues, turns := map[], [];
      new;
      InitialInv();
    }

    method EnqueueThreadTurn(threadId: string) returns (current: nat)
      requires Valid()
      modifies this
      ensures Valid() && View() == Apply(old(View()), Enqueue(threadId)) && current == |old(turns)|
    {
      EventInv(View(), Enqueue(threadId));
      var previous := if threadId in threadQueues then Some(threadQueues[threadId]) else None;
      current := |turns|;
      turns := turns + [Turn(threadId, previous, Queued)];
      threadQueues := threadQueues[threadId := current];
    }

    /** The finally handler of turn `n`. */
    method OnFinally(n: nat)
      requires Valid() && Enabled(View(), Settle(n))
      modifies this
      ensures Valid() && View() == Apply(old(View()), Settle(n))
    {
      EventInv(View(), Settle(n));
      var threadId := turns[n].key;
      if threadId in threadQueues && threadQueues[threadId] == n {
        threadQueues := threadQueues - {threadId};
      }
      turns := turns[n := turns[n].(phase := Settled(turns[n].phase.ok))];
    }
  }
}
