/**
 How the connector adapters (apps/cli/src/connectors/adapters, the same in each, for instance
 gchat.ts) and apps/cli/src/connectors/connector-host.ts decide where a message is handled: in the
 turn queue of its thread, or beside it when a turn is active. Messages, the queue of `ThreadQueue`
 and the active turns are one state; messages of all threads interleave freely.

 An active turn of another key is never steered: a thread has one key, so the search by thread and
 session finds what the search by key finds.
 */
module TurnDispatch {
  import opened Prelude
  import Bindings
  import Q = ThreadQueue

  datatype Phase =
    | Waiting(n: nat, recovering: bool)   // its queue turn n has not started
    | Handling                            // in the handler, before it looks for an active turn
    | Steering(target: nat)               // awaiting the hub's answer to a steer of that run
    | Preparing                           // finding a session for a run
    | Running
    | Leaving
    | Over

  /**
   `turns` are the queue turns the message is being handled in, `run` its latest run. `bypassed`
   and `steered` record that it found an active turn when it arrived, and in its handler.
   */
  datatype Message = Message(key: string, phase: Phase, turns: seq<nat>, run: nat, bypassed: bool, steered: bool)

  datatype State = State(
    queue: Q.State, owners: seq<nat>, msgs: seq<Message>, active: map<string, nat>, runs: nat)

  datatype Ending = Finished | Retried | TypingFailed

  datatype Event =
    | Arrive(key: string)
    | Begin(m: nat)
    | Check(m: nat)
    | SteerEnds(m: nat, unusable: bool)
    | Launch(m: nat)
    | RunEnds(m: nat, how: Ending)
    | Quit(m: nat)       // the handler returns early, or throws
    | Leave(m: nat)

  const EMPTY := State(Q.EMPTY, [], [], map[], 0)

  predicate Enabled(s: State, e: Event) {
    e.Arrive? ||
    (e.m < |s.msgs| &&
     var p := s.msgs[e.m].phase;
     match e
     case Begin(m) => p.Waiting? && Q.Enabled(s.queue, Q.Start(p.n))
     case Check(m) => p.Handling?
     case SteerEnds(m, _) => p.Steering?
     case Launch(m) => p.Preparing?
     case RunEnds(m, _) => p.Running?
     case Quit(m) => p.Handling? || p.Preparing?
     case Leave(m) => p.Leaving? && (s.msgs[m].turns != [] ==> CanSettle(s, Innermost(s.msgs[m]))))
  }

  function Innermost(msg: Message): nat
    requires msg.turns != []
  {
    msg.turns[|msg.turns| - 1]
  }

  predicate CanSettle(s: State, n: nat) {
    n < |s.queue.turns| && s.queue.turns[n].phase.Running?
  }

  /** The turn's work and its finally handler are over. */
  function Settled(q: Q.State, n: nat): Q.State
    requires n < |q.turns| && q.turns[n].phase.Running?
  {
    Q.Apply(Q.Apply(q, Q.Finish(n, true)), Q.Settle(n))
  }

  function Set(s: State, m: nat, msg: Message): State
    requires m < |s.msgs|
  {
    s.(msgs := s.msgs[m := msg])
  }

  function Drop(active: map<string, nat>, key: string, run: nat): map<string, nat> {
    if key in active && active[key] == run then active - {key} else active
  }

  function Apply(s: State, e: Event): State
    requires Enabled(s, e)
  {
    match e
    case Arrive(key) =>
      var m, n := |s.msgs|, |s.queue.turns|;
      if key in s.active then s.(msgs := s.msgs + [Message(key, Handling, [], 0, true, false)])
      else
        s.(msgs := s.msgs + [Message(key, Waiting(n, false), [], 0, false, false)],
           queue := Q.Apply(s.queue, Q.Enqueue(key)), owners := s.owners + [m])
    case Begin(m) =>
      var msg := s.msgs[m];
      Set(s, m, msg.(turns := msg.turns + [msg.phase.n],
                     phase := if msg.phase.recovering then Preparing else Handling))
      .(queue := Q.Apply(s.queue, Q.Start(msg.phase.n)))
    case Check(m) =>
      var msg := s.msgs[m];
      Set(s, m, if msg.key in s.active then msg.(phase := Steering(s.active[msg.key]), steered := true)
                else msg.(phase := Preparing))
    case SteerEnds(m, unusable) =>
      var msg := s.msgs[m];
      if !unusable then Set(s, m, msg.(phase := Leaving))
      else
        Set(s, m, msg.(phase := Waiting(|s.queue.turns|, true)))
        .(active := Drop(s.active, msg.key, msg.phase.target),
          queue := Q.Apply(s.queue, Q.Enqueue(msg.key)), owners := s.owners + [m])
    case Launch(m) =>
      var msg := s.msgs[m];
      Set(s, m, msg.(phase := Running, run := s.runs))
      .(active := s.active[msg.key := s.runs], runs := s.runs + 1)
    case RunEnds(m, how) =>
      var msg := s.msgs[m];
      var t := Set(s, m, msg.(phase := if how.Retried? then Preparing else Leaving));
      if how.TypingFailed? then t else t.(active := Drop(s.active, msg.key, msg.run))
    case Quit(m) => Set(s, m, s.msgs[m].(phase := Leaving))
    case Leave(m) =>
      var msg := s.msgs[m];
      if msg.turns == [] then Set(s, m, msg.(phase := Over))
      else
        Set(s, m, msg.(turns := msg.turns[..|msg.turns| - 1])).(queue := Settled(s.queue, Innermost(msg)))
  }

  function Run(s: State, es: seq<Event>): Option<State>
    decreases |es|
  {
    if es == [] then Some(s)
    else if Enabled(s, es[0]) then Run(Apply(s, es[0]), es[1..])
    else None
  }

  // ---------------------------------------------------------------- invariant

  /** Message `m` is being handled in turn `n`. */
  predicate Owns(s: State, m: int, n: int) {
    && 0 <= n < |s.queue.turns| && n < |s.owners| && s.owners[n] == m
    && 0 <= m < |s.msgs| && s.queue.turns[n].key == s.msgs[m].key
  }

  predicate GoodMessage(s: State, m: int)
    requires 0 <= m < |s.msgs|
  {
    var msg := s.msgs[m];
    && |msg.turns| <= 1
    && (msg.turns != [] ==> Owns(s, m, msg.turns[0]) && s.queue.turns[msg.turns[0]].phase.Running?)
    && (match msg.phase
        case Waiting(n, recovering) =>
          && Owns(s, m, n) && s.queue.turns[n].phase.Queued?
          && msg.steered == recovering && (!recovering ==> !msg.bypassed && msg.turns == [])
          && (recovering ==> (msg.turns == [] <==> msg.bypassed))
          && (msg.turns != [] ==> msg.turns[0] < n)
        case Handling => !msg.steered && (msg.turns == [] <==> msg.bypassed)
        case Steering(_) => msg.steered && (msg.turns == [] <==> msg.bypassed)
        case Preparing => msg.turns == [] <==> msg.bypassed && !msg.steered
        case Running => msg.turns == [] <==> msg.bypassed && !msg.steered
        case Leaving => true
        case Over => msg.turns == [])
  }

  ghost predicate Inv(s: State) {
    && Q.Inv(s.queue) && |s.owners| == |s.queue.turns|
    && (forall m {:trigger GoodMessage(s, m)} :: 0 <= m < |s.msgs| ==> GoodMessage(s, m))
  }

  /** What a step of another message leaves as it was. */
  ghost predicate Extends(s: State, t: State, m: nat) {
    && |s.msgs| <= |t.msgs| && (forall k :: 0 <= k < |s.msgs| && k != m ==> t.msgs[k] == s.msgs[k])
    && s.owners <= t.owners && |s.owners| == |s.queue.turns| <= |t.queue.turns|
    && (forall n :: 0 <= n < |s.queue.turns| ==> t.queue.turns[n].key == s.queue.turns[n].key)
    && (forall n :: 0 <= n < |s.queue.turns| && s.owners[n] != m ==> t.queue.turns[n] == s.queue.turns[n])
  }

  lemma OthersGood(s: State, t: State, m: nat, k: nat)
    requires Inv(s) && Extends(s, t, m) && k < |s.msgs| && k != m
    ensures GoodMessage(t, k)
  {
    assert GoodMessage(s, k);
    hide Q.Inv;
  }

  lemma KeepInv(s: State, t: State, m: nat)
    requires Inv(s) && Extends(s, t, m) && Q.Inv(t.queue) && |t.owners| == |t.queue.turns|
    requires |t.msgs| <= |s.msgs| + 1 && (|t.msgs| > |s.msgs| ==> m == |s.msgs|) && m < |t.msgs|
    requires GoodMessage(t, m)
    ensures Inv(t)
  {
    forall k | 0 <= k < |t.msgs| ensures GoodMessage(t, k) {
      if k != m {
        OthersGood(s, t, m, k);
      }
    }
    hide Q.Inv;
  }

  /** A recovery that waits behind a turn of its own message cannot start. */
  lemma OwnTurnBlocks(s: State, m: nat)
    requires Inv(s) && m < |s.msgs| && s.msgs[m].phase.Waiting? && s.msgs[m].turns != []
    ensures !Enabled(s, Begin(m))
  {
    assert GoodMessage(s, m);
    var o, n := s.msgs[m].turns[0], s.msgs[m].phase.n;
    assert Q.Before(s.queue, o, n);
    if s.queue.turns[n].previous.Some? {
      var p := s.queue.turns[n].previous.value;
      assert o <= p;
      if o < p && p < |s.queue.turns| && s.queue.turns[p].phase.Settled? {
        assert Q.Before(s.queue, o, p);
      }
    }
  }

  lemma QueueInv(q: Q.State, e: Q.Event)
    requires Q.Inv(q) && Q.Enabled(q, e)
    ensures Q.Inv(Q.Apply(q, e))
  {
    Q.EventInv(q, e);
  }

  lemma ArriveInv(s: State, key: string)
    requires Inv(s)
    ensures Inv(Apply(s, Arrive(key)))
  {
    hide Q.Inv;
    QueueInv(s.queue, Q.Enqueue(key));
    KeepInv(s, Apply(s, Arrive(key)), |s.msgs|);
  }

  lemma BeginGood(s: State, m: nat)
    requires Inv(s) && Enabled(s, Begin(m))
    ensures GoodMessage(Apply(s, Begin(m)), m)
  {
    if s.msgs[m].turns != [] {
      OwnTurnBlocks(s, m);
    }
    assert GoodMessage(s, m);
    hide Q.Inv;
  }

  lemma BeginInv(s: State, m: nat)
    requires Inv(s) && Enabled(s, Begin(m))
    ensures Inv(Apply(s, Begin(m)))
  {
    assert GoodMessage(s, m);
    BeginGood(s, m);
    hide Q.Inv, GoodMessage;
    QueueInv(s.queue, Q.Start(s.msgs[m].phase.n));
    KeepInv(s, Apply(s, Begin(m)), m);
  }

  lemma SettledTurn(q: Q.State, n: nat)
    requires Q.Inv(q) && n < |q.turns| && q.turns[n].phase.Running?
    ensures Q.Inv(Settled(q, n)) && Settled(q, n).turns == q.turns[n := q.turns[n].(phase := Q.Settled(true))]
  {
    hide Q.Inv;
    QueueInv(q, Q.Finish(n, true));
    QueueInv(Q.Apply(q, Q.Finish(n, true)), Q.Settle(n));
  }

  /** The state after a message has left its queue turn. */
  lemma LeftTurn(s: State, m: nat)
    requires Inv(s) && Enabled(s, Leave(m)) && s.msgs[m].turns != []
    ensures var t := Apply(s, Leave(m)); var n := s.msgs[m].turns[0];
      && n < |s.queue.turns| && s.owners[n] == m
      && t == s.(queue := t.queue, msgs := s.msgs[m := s.msgs[m].(turns := [])])
      && t.queue.turns == s.queue.turns[n := s.queue.turns[n].(phase := Q.Settled(true))]
      && Q.Inv(t.queue)
  {
    assert GoodMessage(s, m);
    hide Q.Inv, Settled;
    SettledTurn(s.queue, Innermost(s.msgs[m]));
    assert s.msgs[m].turns[..0] == [];
  }

  lemma LeaveExtends(s: State, m: nat)
    requires Inv(s) && Enabled(s, Leave(m)) && s.msgs[m].turns != []
    ensures Extends(s, Apply(s, Leave(m)), m) && Q.Inv(Apply(s, Leave(m)).queue)
    ensures GoodMessage(Apply(s, Leave(m)), m)
  {
    LeftTurn(s, m);
    assert GoodMessage(s, m);
    hide Inv, Q.Inv, Settled, Apply;
  }

  lemma LeaveInv(s: State, m: nat)
    requires Inv(s) && Enabled(s, Leave(m))
    ensures Inv(Apply(s, Leave(m)))
  {
    if s.msgs[m].turns != [] {
      LeaveExtends(s, m);
      hide Extends, GoodMessage, Q.Inv, Settled;
      KeepInv(s, Apply(s, Leave(m)), m);
    } else {
      assert GoodMessage(s, m);
      hide Q.Inv;
      KeepInv(s, Apply(s, Leave(m)), m);
    }
  }

  lemma SteerEndsGood(s: State, m: nat)
    requires Inv(s) && Enabled(s, SteerEnds(m, true))
    ensures GoodMessage(Apply(s, SteerEnds(m, true)), m)
  {
    assert GoodMessage(s, m);
    hide Q.Inv, Drop;
  }

  lemma SteerEndsInv(s: State, m: nat)
    requires Inv(s) && Enabled(s, SteerEnds(m, true))
    ensures Inv(Apply(s, SteerEnds(m, true)))
  {
    SteerEndsGood(s, m);
    hide Q.Inv, GoodMessage, Drop;
    QueueInv(s.queue, Q.Enqueue(s.msgs[m].key));
    KeepInv(s, Apply(s, SteerEnds(m, true)), m);
  }

  lemma AsideGood(s: State, e: Event)
    requires Inv(s) && Enabled(s, e)
    requires e.Check? || (e.SteerEnds? && !e.unusable) || e.Launch? || e.RunEnds? || e.Quit?
    ensures GoodMessage(Apply(s, e), e.m)
  {
    assert GoodMessage(s, e.m);
    hide Q.Inv, Drop;
  }

  /** A step that touches no queue turn. */
  lemma AsideInv(s: State, e: Event)
    requires Inv(s) && Enabled(s, e)
    requires e.Check? || (e.SteerEnds? && !e.unusable) || e.Launch? || e.RunEnds? || e.Quit?
    ensures Inv(Apply(s, e))
  {
    AsideGood(s, e);
    hide Q.Inv, GoodMessage, Drop;
    KeepInv(s, Apply(s, e), e.m);
  }

  lemma EventInv(s: State, e: Event)
    requires Inv(s) && Enabled(s, e)
    ensures Inv(Apply(s, e))
  {
    hide Inv, Enabled, Apply;
    match e
    case Arrive(key) => ArriveInv(s, key);
    case Begin(m) => BeginInv(s, m);
    case Leave(m) => LeaveInv(s, m);
    case SteerEnds(m, unusable) => if unusable { SteerEndsInv(s, m); } else { AsideInv(s, e); }
    case _ => AsideInv(s, e);
  }

  lemma InitialInv()
    ensures Inv(EMPTY)
  {
    Q.InitialInv();
  }

  lemma {:induction false} RunInv(s: State, es: seq<Event>)
    requires Inv(s) && Run(s, es).Some?
    ensures Inv(Run(s, es).value)
    decreases |es|
  {
    if es != [] {
      EventInv(s, es[0]);
      RunInv(Apply(s, es[0]), es[1..]);
    }
  }

  // ------------------------------------------------------------- main results

  /** A message is in a run, or finding a session for one. */
  predicate InRun(msg: Message) {
    msg.phase.Preparing? || msg.phase.Running?
  }

  /**
   A run is started outside the queue exactly if the message found an active turn when it arrived,
   and none any more in its handler.
   */
  lemma OutsideExactly(es: seq<Event>, s: State, m: nat)
    requires Run(EMPTY, es) == Some(s) && m < |s.msgs| && InRun(s.msgs[m])
    ensures s.msgs[m].turns == [] <==> s.msgs[m].bypassed && !s.msgs[m].steered
    ensures s.msgs[m].turns != [] ==>
      var n := s.msgs[m].turns[0];
      n < |s.queue.turns| && s.queue.turns[n].phase.Running? && s.queue.turns[n].key == s.msgs[m].key
  {
    InitialInv();
    RunInv(EMPTY, es);
    assert GoodMessage(s, m);
  }

  /** Two messages of one key are never both handled in the queue: it runs one turn at a time. */
  lemma QueuedAlone(s: State, i: nat, j: nat)
    requires Inv(s) && i < |s.msgs| && j < |s.msgs| && s.msgs[i].key == s.msgs[j].key
    requires s.msgs[i].turns != [] && s.msgs[j].turns != []
    ensures i == j
  {
    assert GoodMessage(s, i) && GoodMessage(s, j);
    var a, b := s.msgs[i].turns[0], s.msgs[j].turns[0];
    assert a < b ==> Q.Before(s.queue, a, b);
    assert b < a ==> Q.Before(s.queue, b, a);
  }

  /**
   Threads that share a stored conversation run at the same time only if one of the runs was started
   outside the queue: its message found an active turn on arrival, and none in its handler.
   */
  lemma SharedSessionRuns(dir: Bindings.Directory, bs: seq<Bindings.Event>, store: Bindings.Store,
                          t: Bindings.Thread, o: seq<string>, u: Bindings.Thread, p: seq<string>,
                          es: seq<Event>, s: State, i: nat, j: nat)
    requires Bindings.Run(dir, map[], bs) == Some(store)
    requires Bindings.Known(dir, t) && Bindings.Known(dir, u)
    requires Bindings.Enumerates(o, store) && Bindings.Enumerates(p, store)
    requires Bindings.Find(store, o, t).Some? && Bindings.Find(store, o, t) == Bindings.Find(store, p, u)
    requires Run(EMPTY, es) == Some(s) && i < |s.msgs| && j < |s.msgs| && i != j
    requires s.msgs[i].key == Bindings.TurnQueueKey(t) && s.msgs[j].key == Bindings.TurnQueueKey(u)
    requires InRun(s.msgs[i]) && InRun(s.msgs[j])
    ensures (s.msgs[i].bypassed && !s.msgs[i].steered) || (s.msgs[j].bypassed && !s.msgs[j].steered)
  {
    Bindings.SharedBindingSharesQueue(dir, bs, store, t, o, u, p);
    InitialInv();
    RunInv(EMPTY, es);
    OutsideExactly(es, s, i);
    OutsideExactly(es, s, j);
    hide Inv;
    if s.msgs[i].turns != [] && s.msgs[j].turns != [] {
      QueuedAlone(s, i, j);
    }
  }

  /** A message waits for a queue turn behind one it is being handled in. */
  predicate WaitsForItself(msg: Message) {
    msg.phase.Waiting? && msg.turns != []
  }

  /**
   That happens exactly to the recoveries of messages that were queued on arrival: a message that
   found an active turn on arrival is handled in no turn when it recovers.
   */
  lemma WaitsForItselfExactly(es: seq<Event>, s: State, m: nat)
    requires Run(EMPTY, es) == Some(s) && m < |s.msgs| && s.msgs[m].phase.Waiting?
    ensures WaitsForItself(s.msgs[m]) <==> s.msgs[m].phase.recovering && !s.msgs[m].bypassed
  {
    InitialInv();
    RunInv(EMPTY, es);
    assert GoodMessage(s, m);
  }

  lemma StuckStep(s: State, m: nat, e: Event)
    requires Inv(s) && m < |s.msgs| && WaitsForItself(s.msgs[m]) && Enabled(s, e)
    ensures m < |Apply(s, e).msgs| && Apply(s, e).msgs[m] == s.msgs[m]
  {
    if !e.Arrive? && e.m == m && e.Begin? {
      OwnTurnBlocks(s, m);
    }
    hide Inv;
  }

  /** From then on the message never moves, and no later turn of its key ever starts. */
  lemma {:induction false} StuckForever(s: State, m: nat, es: seq<Event>, t: State)
    requires Inv(s) && m < |s.msgs| && WaitsForItself(s.msgs[m]) && Run(s, es) == Some(t)
    ensures m < |t.msgs| && t.msgs[m] == s.msgs[m]
    ensures forall j :: Q.Before(t.queue, s.msgs[m].turns[0], j) ==> t.queue.turns[j].phase.Queued?
    decreases |es|
  {
    if es == [] {
      assert GoodMessage(s, m);
    } else {
      StuckStep(s, m, es[0]);
      EventInv(s, es[0]);
      hide Inv, Apply, Q.Before;
      StuckForever(Apply(s, es[0]), m, es[1..], t);
    }
  }

  /** A message that has left its last turn is over: no event of it ever comes again. */
  lemma {:induction false} OverForGood(s: State, m: nat, es: seq<Event>)
    requires m < |s.msgs| && (s.msgs[m].phase.Over? || (Enabled(s, Leave(m)) && s.msgs[m].turns == []))
    requires var t := if s.msgs[m].phase.Over? then s else Apply(s, Leave(m)); Run(t, es).Some?
    ensures forall e :: e in es ==> e.Arrive? || e.m != m
    decreases |es|
  {
    hide Settled, Drop;
    var t := if s.msgs[m].phase.Over? then s else Apply(s, Leave(m));
    if es != [] {
      assert t.msgs[m].phase.Over?;
      OverForGood(Apply(t, es[0]), m, es[1..]);
      assert es == [es[0]] + es[1..];
    }
  }

  // -------------------------------------------------- what else stops a key

  /** Who a queue turn waits for: it is the next step, or the present place, of its message. */
  predicate HeldAt(s: State, n: int)
    requires 0 <= n < |s.queue.turns| && |s.owners| == |s.queue.turns|
  {
    && Owns(s, s.owners[n], n)
    && match s.queue.turns[n].phase
       case Queued => s.msgs[s.owners[n]].phase.Waiting? && s.msgs[s.owners[n]].phase.n == n
       case Running => s.msgs[s.owners[n]].turns == [n]
       case Finishing(_) => false
       case Settled(_) => true
  }

  ghost predicate Held(s: State) {
    && |s.owners| == |s.queue.turns|
    && forall n {:trigger HeldAt(s, n)} :: 0 <= n < |s.queue.turns| ==> HeldAt(s, n)
  }

  /** Turns of other messages stay held; it remains to look at those of `m`. */
  lemma KeepHeld(s: State, t: State, m: nat)
    requires Held(s) && Extends(s, t, m) && |t.owners| == |t.queue.turns|
    requires forall n {:trigger HeldAt(t, n)} :: 0 <= n < |t.queue.turns| && t.owners[n] == m ==> HeldAt(t, n)
    requires forall n :: |s.queue.turns| <= n < |t.queue.turns| ==> t.owners[n] == m
    ensures Held(t)
  {
    forall n | 0 <= n < |t.queue.turns| ensures HeldAt(t, n) {
      if t.owners[n] != m {
        assert HeldAt(s, n);
      }
    }
  }

  lemma ArriveHeld(s: State, key: string)
    requires Inv(s) && Held(s)
    ensures Held(Apply(s, Arrive(key)))
  {
    hide Q.Inv;
    var t, m := Apply(s, Arrive(key)), |s.msgs|;
    forall n | 0 <= n < |t.queue.turns| && t.owners[n] == m ensures HeldAt(t, n) {
      assert n < |s.queue.turns| ==> HeldAt(s, n);
    }
    KeepHeld(s, t, m);
  }

  lemma BeginHeld(s: State, m: nat)
    requires Inv(s) && Held(s) && Enabled(s, Begin(m))
    ensures Held(Apply(s, Begin(m)))
  {
    if s.msgs[m].turns != [] {
      OwnTurnBlocks(s, m);
    }
    assert GoodMessage(s, m);
    hide Q.Inv;
    var t := Apply(s, Begin(m));
    forall n | 0 <= n < |t.queue.turns| && t.owners[n] == m ensures HeldAt(t, n) {
      assert HeldAt(s, n);
    }
    KeepHeld(s, t, m);
  }

  lemma SteerEndsHeld(s: State, m: nat)
    requires Inv(s) && Held(s) && Enabled(s, SteerEnds(m, true))
    ensures Held(Apply(s, SteerEnds(m, true)))
  {
    hide Q.Inv, GoodMessage, Drop;
    var t := Apply(s, SteerEnds(m, true));
    forall n | 0 <= n < |t.queue.turns| && t.owners[n] == m ensures HeldAt(t, n) {
      assert n < |s.queue.turns| ==> HeldAt(s, n);
    }
    KeepHeld(s, t, m);
  }

  lemma LeaveTurnHeld(s: State, m: nat)
    requires Inv(s) && Held(s) && Enabled(s, Leave(m)) && s.msgs[m].turns != []
    ensures Held(Apply(s, Leave(m)))
  {
    LeftTurn(s, m);
    LeaveExtends(s, m);
    hide Inv, Q.Inv, Apply, Extends, GoodMessage;
    var t := Apply(s, Leave(m));
    forall n | 0 <= n < |t.queue.turns| && t.owners[n] == m ensures HeldAt(t, n) {
      assert HeldAt(s, n);
    }
    KeepHeld(s, t, m);
  }

  lemma LeaveHeld(s: State, m: nat)
    requires Inv(s) && Held(s) && Enabled(s, Leave(m))
    ensures Held(Apply(s, Leave(m)))
  {
    hide Inv, Q.Inv, Settled;
    if s.msgs[m].turns != [] {
      LeaveTurnHeld(s, m);
    } else {
      var t := Apply(s, Leave(m));
      forall n | 0 <= n < |t.queue.turns| && t.owners[n] == m ensures HeldAt(t, n) {
        assert HeldAt(s, n);
      }
      KeepHeld(s, t, m);
    }
  }

  lemma AsideHeld(s: State, e: Event)
    requires Held(s) && Enabled(s, e)
    requires e.Check? || (e.SteerEnds? && !e.unusable) || e.Launch? || e.RunEnds? || e.Quit?
    ensures Held(Apply(s, e))
  {
    hide Drop;
    var t := Apply(s, e);
    forall n | 0 <= n < |t.queue.turns| && t.owners[n] == e.m ensures HeldAt(t, n) {
      assert HeldAt(s, n);
    }
    KeepHeld(s, t, e.m);
  }

  lemma EventHeld(s: State, e: Event)
    requires Inv(s) && Held(s) && Enabled(s, e)
    ensures Held(Apply(s, e))
  {
    hide Inv, Held, Enabled, Apply;
    match e
    case Arrive(key) => ArriveHeld(s, key);
    case Begin(m) => BeginHeld(s, m);
    case Leave(m) => LeaveHeld(s, m);
    case SteerEnds(m, unusable) => if unusable { SteerEndsHeld(s, m); } else { AsideHeld(s, e); }
    case _ => AsideHeld(s, e);
  }

  lemma {:induction false} RunHeld(s: State, es: seq<Event>)
    requires Inv(s) && Held(s) && Run(s, es).Some?
    ensures Held(Run(s, es).value)
    decreases |es|
  {
    hide Inv, Held, Apply, Enabled;
    if es != [] {
      EventInv(s, es[0]);
      EventHeld(s, es[0]);
      RunHeld(Apply(s, es[0]), es[1..]);
    }
  }

  /** Turn `n` has not settled, and every earlier turn of its key has. */
  ghost predicate FirstUnsettled(s: State, n: nat) {
    && n < |s.queue.turns| && !s.queue.turns[n].phase.Settled?
    && forall i :: Q.Before(s.queue, i, n) ==> s.queue.turns[i].phase.Settled?
  }

  /** A step of message `m` is possible. */
  ghost predicate CanMove(s: State, m: nat) {
    exists e: Event :: !e.Arrive? && e.m == m && Enabled(s, e)
  }

  /** Whose turn it is can start it, or can go on, if it does not wait for itself. */
  lemma OwnerMoves(s: State, n: nat) returns (e: Event)
    requires Inv(s) && Held(s) && FirstUnsettled(s, n)
    requires s.owners[n] < |s.msgs| && !WaitsForItself(s.msgs[s.owners[n]])
    ensures Enabled(s, e) && !e.Arrive? && e.m == s.owners[n]
    ensures e == (match s.msgs[s.owners[n]].phase
                  case Waiting(_, _) => Begin(s.owners[n])
                  case Handling => Quit(s.owners[n])
                  case Steering(_) => SteerEnds(s.owners[n], false)
                  case Preparing => Quit(s.owners[n])
                  case Running => RunEnds(s.owners[n], Finished)
                  case _ => Leave(s.owners[n]))
  {
    var m := s.owners[n];
    assert HeldAt(s, n) && GoodMessage(s, m);
    e := match s.msgs[m].phase
      case Waiting(_, _) => Begin(m)
      case Handling => Quit(m)
      case Steering(_) => SteerEnds(m, false)
      case Preparing => Quit(m)
      case Running => RunEnds(m, Finished)
      case _ => Leave(m);
    if e.Begin? {
      StartsFirst(s.queue, n);
    }
    hide Q.Inv;
  }

  lemma StartsFirst(q: Q.State, n: nat)
    requires Q.Inv(q) && n < |q.turns| && q.turns[n].phase.Queued?
    requires forall i :: Q.Before(q, i, n) ==> q.turns[i].phase.Settled?
    ensures Q.Enabled(q, Q.Start(n))
  {}

  /**
   Whatever has happened, the message whose turn it is can take a step exactly if it does not wait
   for itself.
   */
  lemma MovesExactly(es: seq<Event>, s: State, n: nat)
    requires Run(EMPTY, es) == Some(s) && FirstUnsettled(s, n)
    ensures n < |s.owners| && s.owners[n] < |s.msgs|
    ensures CanMove(s, s.owners[n]) <==> !WaitsForItself(s.msgs[s.owners[n]])
  {
    InitialInv();
    RunInv(EMPTY, es);
    RunHeld(EMPTY, es);
    assert HeldAt(s, n);
    var m := s.owners[n];
    if WaitsForItself(s.msgs[m]) {
      OwnTurnBlocks(s, m);
    } else {
      var e := OwnerMoves(s, n);
    }
  }
  /** Some continuation settles turn `n`. */
  ghost predicate SettlesLater(s: State, n: nat) {
    exists es, t :: Run(s, es) == Some(t) && n < |t.queue.turns| && t.queue.turns[n].phase.Settled?
  }

  /** How many steps are left before the message leaves its turn. */
  function StepsLeft(p: Phase): nat {
    if p.Waiting? then 2 else if p.Leaving? || p.Over? then 0 else 1
  }

  /** A step of its owner settles the first unsettled turn, or brings it nearer. */
  lemma OwnerStep(s: State, n: nat, e: Event)
    requires Inv(s) && Held(s) && FirstUnsettled(s, n)
    requires s.owners[n] < |s.msgs| && !WaitsForItself(s.msgs[s.owners[n]])
    requires Enabled(s, e) && !e.Arrive? && e.m == s.owners[n] && !e.Check? && !e.Launch?
    requires (e.SteerEnds? ==> !e.unusable) && (e.RunEnds? ==> e.how.Finished?)
    ensures var t := Apply(s, e); var m := s.owners[n];
      && n < |t.queue.turns| && n < |t.owners| && t.owners[n] == m < |t.msgs|
      && (e.Leave? ==> t.queue.turns[n].phase.Settled?)
      && (!e.Leave? ==>
            && FirstUnsettled(t, n) && !WaitsForItself(t.msgs[m])
            && StepsLeft(t.msgs[m].phase) < StepsLeft(s.msgs[m].phase))
  {
    var m, t := s.owners[n], Apply(s, e);
    assert HeldAt(s, n) && GoodMessage(s, m);
    if e.Leave? {
      LeftTurn(s, m);
      hide Inv, Q.Inv, Apply;
    } else {
      hide Inv, Q.Inv, Drop;
      forall i | Q.Before(t.queue, i, n) ensures t.queue.turns[i].phase.Settled? {
        assert Q.Before(s.queue, i, n);
      }
    }
  }

  /** A turn whose message does not wait for itself can be settled. */
  lemma SettlesInTime(s: State, n: nat) returns (es: seq<Event>, t: State)
    requires Inv(s) && Held(s) && FirstUnsettled(s, n)
    requires s.owners[n] < |s.msgs| && !WaitsForItself(s.msgs[s.owners[n]])
    ensures Run(s, es) == Some(t) && n < |t.queue.turns| && t.queue.turns[n].phase.Settled?
    decreases StepsLeft(s.msgs[s.owners[n]].phase)
  {
    var e := OwnerMoves(s, n);
    OwnerStep(s, n, e);
    EventInv(s, e);
    EventHeld(s, e);
    hide Inv, Held, FirstUnsettled, Apply, Enabled;
    var next := Apply(s, e);
    var rest: seq<Event> := [];
    if e.Leave? {
      t := next;
    } else {
      rest, t := SettlesInTime(next, n);
    }
    es := [e] + rest;
    assert es[1..] == rest;
  }

  /** A message that waits for itself holds the first unsettled turn of its key. */
  lemma StuckTurn(s: State, n: nat)
    requires Inv(s) && Held(s) && FirstUnsettled(s, n)
    requires s.owners[n] < |s.msgs| && WaitsForItself(s.msgs[s.owners[n]])
    ensures s.msgs[s.owners[n]].turns == [n]
  {
    var m := s.owners[n];
    assert HeldAt(s, n) && GoodMessage(s, m);
    var o := s.msgs[m].turns[0];
    hide Q.Inv;
    assert o < n ==> Q.Before(s.queue, o, n);
    assert s.msgs[m].turns == [o];
  }

  /**
   A key stops exactly when the message whose turn it is waits for itself: the first unsettled turn
   then never settles, and in every other case it can. What is queued behind it waits for that turn.
   */
  lemma StopsExactly(es: seq<Event>, s: State, n: nat)
    requires Run(EMPTY, es) == Some(s) && FirstUnsettled(s, n)
    ensures n < |s.owners| && s.owners[n] < |s.msgs|
    ensures SettlesLater(s, n) <==> !WaitsForItself(s.msgs[s.owners[n]])
  {
    InitialInv();
    RunInv(EMPTY, es);
    RunHeld(EMPTY, es);
    assert HeldAt(s, n);
    var m := s.owners[n];
    if WaitsForItself(s.msgs[m]) {
      StuckTurn(s, n);
      forall fs, t | Run(s, fs) == Some(t) ensures n < |t.queue.turns| && !t.queue.turns[n].phase.Settled? {
        StuckForever(s, m, fs, t);
        RunInv(s, fs);
        assert GoodMessage(t, m);
      }
    } else {
      var fs, t := SettlesInTime(s, n);
    }
  }

  // ---------------------------------------------------------------- witnesses

  lemma {:induction false} RunAppend(s: State, es: seq<Event>, e: Event)
    requires Run(s, es).Some? && Enabled(Run(s, es).value, e)
    ensures Run(s, es + [e]) == Some(Apply(Run(s, es).value, e))
    decreases |es|
  {
    hide Apply, Enabled;
    if es == [] {
      assert ([] + [e])[1..] == [];
    } else {
      RunAppend(Apply(s, es[0]), es[1..], e);
      assert (es + [e])[1..] == es[1..] + [e];
    }
  }

  lemma Extend(es: seq<Event>, s: State, e: Event) returns (es': seq<Event>, t: State)
    requires Run(EMPTY, es) == Some(s) && Enabled(s, e)
    ensures t == Apply(s, e) && Run(EMPTY, es') == Some(t)
  {
    hide Apply, Enabled;
    RunAppend(EMPTY, es, e);
    es', t := es + [e], Apply(s, e);
  }

  const KEY := "dm:1"

  /** The first message of a key is running in the queue. */
  lemma FirstRuns() returns (es: seq<Event>, s: State)
    ensures Run(EMPTY, es) == Some(s)
    ensures s == State(Q.State([Q.Turn(KEY, None, Q.Running)], map[KEY := 0]), [0],
                       [Message(KEY, Running, [0], 0, false, false)], map[KEY := 0], 1)
  {
    hide Run;
    es, s := [], EMPTY;
    RunNothing();
    es, s := Extend(es, s, Arrive(KEY));
    es, s := Extend(es, s, Begin(0));
    assert s.queue.turns == [Q.Turn(KEY, None, Q.Running)] && s.owners == [0];
    assert s.msgs == [Message(KEY, Handling, [0], 0, false, false)];
    es, s := Extend(es, s, Check(0));
    es, s := Extend(es, s, Launch(0));
    assert s.msgs == [Message(KEY, Running, [0], 0, false, false)];
  }

  lemma RunNothing()
    ensures Run(EMPTY, []) == Some(EMPTY)
  {}

  /** The first run is over while a second message, handled beside it, has not looked yet. */
  lemma FirstEnds() returns (es: seq<Event>, s: State)
    ensures Run(EMPTY, es) == Some(s)
    ensures s == State(Q.State([Q.Turn(KEY, None, Q.Settled(true))], map[]), [0],
                       [Message(KEY, Leaving, [], 0, false, false), Message(KEY, Handling, [], 0, true, false)],
                       map[], 1)
  {
    hide Run;
    es, s := FirstRuns();
    es, s := Extend(es, s, Arrive(KEY));
    es, s := Extend(es, s, RunEnds(0, Finished));
    es, s := Extend(es, s, Leave(0));
  }

  lemma SecondAndThird() returns (es: seq<Event>, s: State)
    ensures Run(EMPTY, es) == Some(s)
    ensures |s.msgs| == 3 && s.msgs[1] == Message(KEY, Preparing, [], 0, true, false)
    ensures s.msgs[2] == Message(KEY, Handling, [1], 0, false, false) && s.active == map[]
  {
    hide Run;
    es, s := FirstEnds();
    es, s := Extend(es, s, Check(1));
    es, s := Extend(es, s, Arrive(KEY));
    es, s := Extend(es, s, Begin(2));
  }

  /** Two runs of one key at the same time: one beside the queue, the other in it. */
  lemma TwoRunsOverlap() returns (es: seq<Event>, s: State)
    ensures Run(EMPTY, es) == Some(s) && |s.msgs| == 3
    ensures s.msgs[1].key == s.msgs[2].key && s.msgs[1].phase.Running? && s.msgs[2].phase.Running?
  {
    hide Run;
    es, s := SecondAndThird();
    es, s := Extend(es, s, Check(2));
    es, s := Extend(es, s, Launch(2));
    es, s := Extend(es, s, Launch(1));
  }

  /** Two messages are queued before the first is active; the first then fails to show that it types. */
  lemma TypingFails() returns (es: seq<Event>, s: State)
    ensures Run(EMPTY, es) == Some(s)
    ensures |s.msgs| == 2 && s.msgs[0] == Message(KEY, Leaving, [0], 0, false, false)
    ensures s.msgs[1] == Message(KEY, Waiting(1, false), [], 0, false, false) && s.active == map[KEY := 0]
    ensures s.queue == Q.State([Q.Turn(KEY, None, Q.Running), Q.Turn(KEY, Some(0), Q.Queued)], map[KEY := 1])
  {
    hide Run;
    es, s := [], EMPTY;
    RunNothing();
    es, s := Extend(es, s, Arrive(KEY));
    es, s := Extend(es, s, Arrive(KEY));
    es, s := Extend(es, s, Begin(0));
    es, s := Extend(es, s, Check(0));
    es, s := Extend(es, s, Launch(0));
    es, s := Extend(es, s, RunEnds(0, TypingFailed));
  }

  /**
   The second then steers the turn that stayed listed, finds its session unusable, and waits in the
   queue for itself.
   */
  lemma MessageWaitsForItself() returns (es: seq<Event>, s: State)
    ensures Run(EMPTY, es) == Some(s) && |s.msgs| == 2 && WaitsForItself(s.msgs[1])
  {
    hide Run;
    es, s := TypingFails();
    es, s := Extend(es, s, Leave(0));
    es, s := Extend(es, s, Begin(1));
    es, s := Extend(es, s, Check(1));
    es, s := Extend(es, s, SteerEnds(1, true));
  }
}
