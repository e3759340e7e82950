/**
 One user message in apps/cli/src/connectors/connector-host.ts and session-runtime.ts: steering an
 active turn or running a new one, and replacing an unusable session at most once.

 Everything outside the message is the environment: what the hub answers and what other code does
 to the stored session ids and the active turns while the message awaits, all indexed by a clock
 that ticks at every await. What is proved holds for every environment. The session id of a thread
 is stored in two places, the thread's state and its binding, which are read and written at
 different moments.
 */
module TurnRecovery {
  import opened Prelude
  import Bindings

  datatype SendResult = Sent | Unusable | OtherError

  datatype Send = Send(session: string, steer: bool, result: SendResult)

  /** `tag` tells apart active-turn objects with equal fields. */
  datatype ActiveTurn = ActiveTurn(session: string, threadId: string, tag: nat)

  datatype Outcome = Success | Threw

  datatype Lookup = Reusable | NotReusable | Fails

  datatype Env = Env(
    thread: nat -> Option<Option<string>>,              // other code sets the thread's state
    bound: nat -> Option<Option<string>>,               // other code sets the binding
    actives: nat -> Option<map<string, ActiveTurn>>,    // other code sets the active turns
    typing: nat -> bool,                                // startTyping succeeds
    send: nat -> SendResult,
    lookup: nat -> Lookup,                              // getSession
    start: nat -> Option<string>)                       // startRuntimeSession: an id, or it throws

  datatype Host = Host(
    thread: Option<string>, bound: Option<string>, turns: map<string, ActiveTurn>, clock: nat)

  datatype Found = Found(host: Host, session: Option<string>)

  datatype Forgotten = Forgotten(host: Host, done: bool)

  datatype Ran = Ran(host: Host, result: SendResult, sent: bool)

  /** What a message did; `failedAt` is the world when its failed session was to be forgotten. */
  datatype Done = Done(host: Host, sends: seq<Send>, outcome: Outcome, failedAt: Option<Host>)

  /** The session id that `mergeThreadState` gives. */
  function Mapping(h: Host): Option<string> {
    if h.thread.Some? then h.thread else h.bound
  }

  /** One await. */
  function Tick(env: Env, h: Host): Host {
    Host(env.thread(h.clock).GetOr(h.thread), env.bound(h.clock).GetOr(h.bound),
         env.actives(h.clock).GetOr(h.turns), h.clock + 1)
  }

  /** `loadThreadState`: the thread's state is read one await before the binding. */
  function Load(env: Env, h: Host): Found {
    var read := Tick(env, h);
    var next := Tick(env, read);
    Found(next, if read.thread.Some? then read.thread else next.bound)
  }

  /** `persistMergedThreadState`: setState takes effect within its await, the binding after it. */
  function Store(env: Env, h: Host, session: Option<string>): Host {
    Tick(env, Tick(env, h).(thread := session)).(bound := session)
  }

  /** `forgetThreadSession`. */
  function Forget(env: Env, h: Host, expected: string): Forgotten {
    var l := Load(env, h);
    if l.session == Some(expected) then Forgotten(Store(env, l.host, None), true) else Forgotten(l.host, false)
  }

  /** The second half of `getOrCreateSessionId`. */
  function Start(env: Env, h: Host): Found {
    var id := env.start(h.clock);
    var started := Tick(env, h);
    if id.None? || id.value == "" then Found(started, None)
    else Found(Tick(env, Store(env, Tick(env, started), id)), id)
  }

  /** `getOrCreateSessionId`; both successful ways end with a hook that is awaited. */
  function Resolve(env: Env, h: Host): Found {
    var l := Load(env, h);
    if l.session.None? then Start(env, l.host)
    else
      var asked := Tick(env, l.host);
      match env.lookup(l.host.clock)
      case Fails => Found(asked, None)
      case Reusable => Found(Tick(env, Store(env, asked, l.session)), l.session)
      case NotReusable => Start(env, Store(env, asked, None))
  }

  function Drop(turns: map<string, ActiveTurn>, key: string, turn: ActiveTurn): map<string, ActiveTurn> {
    if key in turns && turns[key] == turn then turns - {key} else turns
  }

  /** `runConnectorRuntimeTurn`. */
  function RunOnce(env: Env, h: Host, threadId: string, key: string, session: string): Ran {
    var ready := Tick(env, h);
    var turn := ActiveTurn(session, threadId, ready.clock);
    var typing := Tick(env, ready.(turns := ready.turns[key := turn]));
    if !env.typing(ready.clock) then Ran(typing, OtherError, false)
    else
      var after := Tick(env, typing);
      Ran(after.(turns := Drop(after.turns, key, turn)), env.send(typing.clock), true)
  }

  /** The loop of `runConnectorRuntimeTurnWithRecovery`, entered with a session. */
  function Runs(env: Env, h: Host, threadId: string, key: string, session: string, retry: bool): Done
    decreases retry
  {
    var ran := RunOnce(env, h, threadId, key, session);
    var sends := if ran.sent then [Send(session, false, ran.result)] else [];
    if ran.result.Sent? then Done(Store(env, ran.host, Some(session)), sends, Success, None)
    else if !retry || !ran.result.Unusable? then Done(ran.host, sends, Threw, None)
    else
      var r := Resolve(env, Forget(env, ran.host, session).host);
      if r.session.None? then Done(r.host, sends, Threw, Some(ran.host))
      else
        var d := Runs(env, r.host, threadId, key, r.session.value, false);
        Done(d.host, sends + d.sends, d.outcome, Some(ran.host))
  }

  /** `runConnectorRuntimeTurnWithRecovery`; `stale` is the session a steer has failed on. */
  function Recover(env: Env, h: Host, threadId: string, key: string, stale: Option<string>): Done {
    var ready := Tick(env, h);
    var r := Resolve(env, if stale.Some? then Forget(env, ready, stale.value).host else ready);
    var failedAt := if stale.Some? then Some(ready) else None;
    if r.session.None? then Done(r.host, [], Threw, failedAt)
    else
      var d := Runs(env, r.host, threadId, key, r.session.value, stale.None?);
      if stale.Some? then d.(failedAt := failedAt) else d
  }

  /** The key of the first active turn of the session and thread, when the keys enumerate as `order`. */
  function FirstActive(turns: map<string, ActiveTurn>, order: seq<string>, session: string, threadId: string)
    : (key: Option<string>)
    ensures key.Some? ==> Serves(turns, key.value, session, threadId) && key.value in order
    ensures key.None? ==> forall k :: k in order ==> !Serves(turns, k, session, threadId)
  {
    if order == [] then None
    else if Serves(turns, order[0], session, threadId) then Some(order[0])
    else FirstActive(turns, order[1..], session, threadId)
  }

  predicate Serves(turns: map<string, ActiveTurn>, key: string, session: string, threadId: string) {
    key in turns && turns[key].session == session && turns[key].threadId == threadId
  }

  /** The active turn a message steers: the one of its key, or one of its thread and session. */
  function SteerKey(l: Found, threadId: string, key: string, order: seq<string>): (k: Option<string>)
    ensures k.Some? ==> k.value in l.host.turns && l.host.turns[k.value].session != ""
  {
    var k := if key in l.host.turns then Some(key)
             else if l.session.None? then None
             else FirstActive(l.host.turns, order, l.session.value, threadId);
    if k.Some? && l.host.turns[k.value].session == "" then None else k
  }

  /** The end of `handleConnectorUserTurn`. */
  function Handle(env: Env, h: Host, threadId: string, key: string, order: seq<string>): Done {
    var l := Load(env, h);
    var k := SteerKey(l, threadId, key, order);
    if k.None? then Recover(env, l.host, threadId, key, None)
    else
      var active := l.host.turns[k.value];
      var ready := Tick(env, l.host);
      var result := env.send(ready.clock);
      var after := Tick(env, ready);
      var sends := [Send(active.session, true, result)];
      if result.Sent? then Done(after, sends, Success, None)
      else if result.OtherError? then Done(after, sends, Threw, None)
      else
        var queued := Tick(env, after.(turns := Drop(after.turns, k.value, active)));
        var d := Recover(env, queued, threadId, key, Some(active.session));
        d.(sends := sends + d.sends)
  }

  // ------------------------------------------------------------- how many sends

  /** What runs send: at most so many, the second after an unusable session, success with the last. */
  predicate FineRuns(d: Done, most: nat) {
    && |d.sends| <= most <= 2
    && (|d.sends| == 2 ==> d.sends[0].result.Unusable?)
    && (forall i :: 0 <= i < |d.sends| ==> !d.sends[i].steer)
    && (d.outcome.Success? <==> d.sends != [] && d.sends[|d.sends| - 1].result.Sent?)
  }

  lemma {:induction false} RunsSends(env: Env, h: Host, threadId: string, key: string, session: string, retry: bool)
    ensures FineRuns(Runs(env, h, threadId, key, session, retry), if retry then 2 else 1)
    decreases retry
  {
    hide Resolve, Forget, Store;
    var ran := RunOnce(env, h, threadId, key, session);
    if retry && ran.result.Unusable? {
      var r := Resolve(env, Forget(env, ran.host, session).host);
      if r.session.Some? {
        RunsSends(env, r.host, threadId, key, r.session.value, false);
      }
    }
  }

  lemma RecoverSends(env: Env, h: Host, threadId: string, key: string, stale: Option<string>)
    ensures FineRuns(Recover(env, h, threadId, key, stale), if stale.None? then 2 else 1)
  {
    hide Runs, Resolve, Forget;
    var ready := Tick(env, h);
    var r := Resolve(env, if stale.Some? then Forget(env, ready, stale.value).host else ready);
    if r.session.Some? {
      RunsSends(env, r.host, threadId, key, r.session.value, stale.None?);
    }
  }

  /**
   One message causes at most two sends. The second comes only after an unusable session and is
   never a steer; the message succeeds exactly if its last send was accepted.
   */
  lemma AtMostTwoSends(env: Env, h: Host, threadId: string, key: string, order: seq<string>)
    ensures var d := Handle(env, h, threadId, key, order);
      && |d.sends| <= 2
      && (|d.sends| == 2 ==> d.sends[0].result.Unusable? && !d.sends[1].steer)
      && (d.outcome.Success? <==> d.sends != [] && d.sends[|d.sends| - 1].result.Sent?)
  {
    hide Recover, Load, SteerKey;
    var l := Load(env, h);
    var k := SteerKey(l, threadId, key, order);
    if k.None? {
      RecoverSends(env, l.host, threadId, key, None);
    } else {
      var after := Tick(env, Tick(env, l.host));
      var active := l.host.turns[k.value];
      RecoverSends(env, Tick(env, after.(turns := Drop(after.turns, k.value, active))), threadId, key, Some(active.session));
    }
  }

  // ------------------------------------------------------- which session is next

  /** What a place holds after the changes at `count` moments from `first` on. */
  function Last(change: nat -> Option<Option<string>>, first: nat, count: nat, value: Option<string>): Option<string> {
    if count == 0 then value else change(first + count - 1).GetOr(Last(change, first, count - 1, value))
  }

  function Merged(thread: Option<string>, bound: Option<string>): Option<string> {
    if thread.Some? then thread else bound
  }

  /** The mapping is the session of the merged thread state, when the two places name their sessions. */
  lemma MappingIsMerged(h: Host, own: Option<Bindings.ThreadState>, bound: Option<Bindings.ThreadState>,
                        base: Bindings.ThreadState)
    requires forall id :: h.thread == Some(id) <==> Bindings.Names(own, id)
    requires forall id :: h.bound == Some(id) <==> Bindings.Names(bound, id)
    ensures Mapping(h) == Bindings.Merge(own, bound, base).sessionId == Merged(h.thread, h.bound)
  {
    Bindings.MergedSession(own, bound, base);
    hide Bindings.Names, Bindings.Merge;
    if h.thread.Some? {
      assert Bindings.Names(own, h.thread.value);
    } else if h.bound.Some? {
      assert Bindings.Names(bound, h.bound.value);
    }
  }

  /** The session id the load finds: the thread's state one await on, or else the binding two on. */
  function Loaded(env: Env, h: Host): Option<string> {
    Merged(Last(env.thread, h.clock, 1, h.thread), Last(env.bound, h.clock, 2, h.bound))
  }

  predicate Issues(env: Env, moment: nat, session: string) {
    env.start(moment) == Some(session) && session != ""
  }

  /** The session: the loaded one if the hub can reuse it, or the one the hub issues. */
  predicate Picks(env: Env, loaded: Option<string>, moment: nat, session: string) {
    if loaded.None? then Issues(env, moment, session)
    else
      match env.lookup(moment)
      case Reusable => loaded == Some(session)
      case NotReusable => Issues(env, moment + 3, session)
      case Fails => false
  }

  lemma LoadExactly(env: Env, h: Host)
    ensures Load(env, h).session == Loaded(env, h) && Load(env, h).host.clock == h.clock + 2
    ensures Load(env, h).host.thread == Last(env.thread, h.clock, 2, h.thread)
    ensures Load(env, h).host.bound == Last(env.bound, h.clock, 2, h.bound)
  {
    assert Last(env.thread, h.clock, 0, h.thread) == h.thread && Last(env.bound, h.clock, 0, h.bound) == h.bound;
    assert Last(env.thread, h.clock, 1, h.thread) == env.thread(h.clock).GetOr(h.thread);
    assert Last(env.bound, h.clock, 1, h.bound) == env.bound(h.clock).GetOr(h.bound);
  }

  lemma StoreExactly(env: Env, h: Host, session: Option<string>)
    ensures var g := Store(env, h, session);
      && g.clock == h.clock + 2 && g.bound == session
      && g.thread == Last(env.thread, h.clock + 1, 1, session)
  {
    assert Last(env.thread, h.clock + 1, 0, session) == session;
  }

  /** `getOrCreateSessionId` gives a session exactly if it picks it. */
  lemma ResolveExactly(env: Env, h: Host, session: string)
    ensures Resolve(env, h).session == Some(session) <==> Picks(env, Loaded(env, h), h.clock + 2, session)
  {
    LoadExactly(env, h);
    hide Load, Loaded;
  }

  /**
   Afterwards the mapping is that session unless other code has changed it since the write of the
   thread's state: during the rest of that write, or during the hook that follows.
   */
  lemma ResolvedMapping(env: Env, h: Host)
    requires Resolve(env, h).session.Some?
    ensures var r := Resolve(env, h); var k := r.host.clock;
      && h.clock + 3 <= k
      && Mapping(r.host) == Merged(Last(env.thread, k - 2, 2, r.session), Last(env.bound, k - 1, 1, r.session))
  {
    var r := Resolve(env, h);
    LoadExactly(env, h);
    var l := Load(env, h);
    var asked := Tick(env, l.host);
    hide Load;
    var stored := if l.session.None? then Tick(env, asked)
                  else if env.lookup(l.host.clock).Reusable? then asked
                  else Tick(env, Tick(env, Store(env, asked, None)));
    StoreExactly(env, asked, None);
    hide Store;
    assert r.host == Tick(env, Store(env, stored, r.session));
    hide Resolve;
    StoreExactly(env, stored, r.session);
    LastTwo(env.thread, stored.clock + 1, r.session);
    assert Last(env.thread, stored.clock + 1, 0, r.session) == r.session;
    assert Last(env.bound, stored.clock + 2, 0, r.session) == r.session;
  }

  /**
   The session found after a failed one was to be forgotten. If the mapping still was the failed one
   and has been cleared, only what other code has stored since counts: in the thread's state after
   the clearing write, in the binding after its own.
   */
  predicate PicksNext(env: Env, failedAt: Host, failed: string, session: string) {
    Picks(env, Reloaded(env, failedAt, failed), ReloadedAt(env, failedAt, failed), session)
  }

  function Reloaded(env: Env, failedAt: Host, failed: string): Option<string> {
    var k := failedAt.clock;
    if Loaded(env, failedAt) == Some(failed) then
      Merged(Last(env.thread, k + 3, 2, None), Last(env.bound, k + 4, 2, None))
    else
      Merged(Last(env.thread, k, 3, failedAt.thread), Last(env.bound, k, 4, failedAt.bound))
  }

  /** The moment after that load. */
  function ReloadedAt(env: Env, failedAt: Host, failed: string): nat {
    if Loaded(env, failedAt) == Some(failed) then failedAt.clock + 6 else failedAt.clock + 4
  }

  /** The failed session is chosen again. */
  predicate ComesBack(env: Env, failedAt: Host, session: string) {
    PicksNext(env, failedAt, session, session)
  }

  lemma {:induction false} LastMore(change: nat -> Option<Option<string>>, first: nat, a: nat, b: nat, value: Option<string>)
    ensures Last(change, first, a + b, value) == Last(change, first + a, b, Last(change, first, a, value))
    decreases b
  {
    if b > 0 {
      LastMore(change, first, a, b - 1, value);
    }
  }

  lemma ForgetLoads(env: Env, h: Host, failed: string)
    ensures var f := Forget(env, h, failed).host;
      Loaded(env, f) == Reloaded(env, h, failed) && f.clock + 2 == ReloadedAt(env, h, failed)
  {
    var f := Forget(env, h, failed);
    var k := h.clock;
    LoadExactly(env, h);
    if f.done {
      StoreExactly(env, Load(env, h).host, None);
      LastMore(env.thread, k + 3, 1, 1, None);
    } else {
      LastMore(env.thread, k, 2, 1, h.thread);
      LastMore(env.bound, k, 2, 2, h.bound);
    }
    hide Load, Store, Last;
  }

  lemma NextSession(env: Env, h: Host, failed: string, session: string)
    ensures Resolve(env, Forget(env, h, failed).host).session == Some(session) <==> PicksNext(env, h, failed, session)
  {
    ForgetLoads(env, h, failed);
    ResolveExactly(env, Forget(env, h, failed).host, session);
    hide Forget, Resolve, Loaded, Reloaded, ReloadedAt, Picks;
  }

  lemma RunsSecond(env: Env, h: Host, threadId: string, key: string, session: string)
    ensures var d := Runs(env, h, threadId, key, session, true);
      |d.sends| == 2 ==>
        && d.failedAt.Some? && d.sends[0].session == session
        && (d.sends[1].session == session <==> ComesBack(env, d.failedAt.value, session))
  {
    hide Resolve, Forget, Store, PicksNext;
    var ran := RunOnce(env, h, threadId, key, session);
    if ran.result.Unusable? {
      NextSession(env, ran.host, session, session);
      var r := Resolve(env, Forget(env, ran.host, session).host);
      if r.session.Some? {
        RunsFirst(env, r.host, threadId, key, r.session.value, false);
        RunsSends(env, r.host, threadId, key, r.session.value, false);
      }
    }
  }

  lemma RunsFirst(env: Env, h: Host, threadId: string, key: string, session: string, retry: bool)
    ensures var d := Runs(env, h, threadId, key, session, retry); d.sends != [] ==> d.sends[0].session == session
  {
    hide Resolve, Forget, Store;
    var ran := RunOnce(env, h, threadId, key, session);
    if retry && ran.result.Unusable? {
      assert ran.sent;
    }
  }

  lemma RecoverSecond(env: Env, h: Host, threadId: string, key: string, stale: Option<string>)
    ensures var d := Recover(env, h, threadId, key, stale);
      && (stale.Some? && d.sends != [] ==>
            && d.failedAt.Some?
            && (d.sends[0].session == stale.value <==> ComesBack(env, d.failedAt.value, stale.value)))
      && (stale.None? && |d.sends| == 2 ==>
            && d.failedAt.Some?
            && (d.sends[1].session == d.sends[0].session <==> ComesBack(env, d.failedAt.value, d.sends[0].session)))
  {
    hide Runs, Resolve, Forget, PicksNext;
    var ready := Tick(env, h);
    if stale.Some? {
      NextSession(env, ready, stale.value, stale.value);
      var r := Resolve(env, Forget(env, ready, stale.value).host);
      if r.session.Some? {
        RunsFirst(env, r.host, threadId, key, r.session.value, false);
      }
    } else {
      var r := Resolve(env, ready);
      if r.session.Some? {
        RunsSecond(env, r.host, threadId, key, r.session.value);
      }
    }
  }

  /** The second send goes to the session that has failed exactly if that session comes back. */
  lemma SecondSessionExactly(env: Env, h: Host, threadId: string, key: string, order: seq<string>)
    ensures var d := Handle(env, h, threadId, key, order);
      |d.sends| == 2 ==>
        && d.failedAt.Some?
        && (d.sends[1].session == d.sends[0].session <==> ComesBack(env, d.failedAt.value, d.sends[0].session))
  {
    hide Recover, Load, SteerKey, PicksNext;
    var l := Load(env, h);
    var k := SteerKey(l, threadId, key, order);
    if k.None? {
      RecoverSecond(env, l.host, threadId, key, None);
    } else {
      var after := Tick(env, Tick(env, l.host));
      var active := l.host.turns[k.value];
      var queued := Tick(env, after.(turns := Drop(after.turns, k.value, active)));
      RecoverSecond(env, queued, threadId, key, Some(active.session));
    }
  }

  /**
   A session that comes back was stored again or issued again meanwhile, or stood in the binding
   behind another session in the thread's state.
   */
  lemma ComesBackHow(env: Env, h: Host, session: string)
    requires ComesBack(env, h, session)
    ensures (exists j :: h.clock <= j < h.clock + 6 && StoresAt(env, j, session))
         || (exists j :: h.clock < j < h.clock + 10 && Issues(env, j, session))
         || (h.bound == Some(session) && Loaded(env, h) != Some(session))
  {
    var k := h.clock;
    if forall j :: k <= j < k + 6 ==> !StoresAt(env, j, session) {
      NotStored(env.thread, env, k, 1, h.thread, session);
      NotStored(env.thread, env, k, 3, h.thread, session);
      NotStored(env.bound, env, k, 2, h.bound, session);
      NotStored(env.bound, env, k, 4, h.bound, session);
      NotStored(env.thread, env, k + 3, 2, None, session);
      NotStored(env.bound, env, k + 4, 2, None, session);
      LastMore(env.thread, k, 1, 2, h.thread);
      NotStored(env.thread, env, k + 1, 2, Last(env.thread, k, 1, h.thread), session);
      hide Last, Loaded;
    }
  }

  predicate StoresAt(env: Env, moment: nat, session: string) {
    env.thread(moment) == Some(Some(session)) || env.bound(moment) == Some(Some(session))
  }

  lemma {:induction false} NotStored(change: nat -> Option<Option<string>>, env: Env, first: nat, count: nat,
                                     value: Option<string>, session: string)
    requires change == env.thread || change == env.bound
    requires forall j :: first <= j < first + count ==> !StoresAt(env, j, session)
    ensures Last(change, first, count, value) == Some(session) ==> value == Some(session)
    decreases count
  {
    if count > 0 {
      assert !StoresAt(env, first + count - 1, session);
      NotStored(change, env, first, count - 1, value, session);
    }
  }

  // ------------------------------------------------------ when the sends happen

  /** The moment a run starts: when its session has been picked at `moment`, stored, and the hook awaited. */
  function RunsAt(env: Env, loaded: Option<string>, moment: nat): nat {
    if loaded.None? then moment + 5
    else
      match env.lookup(moment)
      case Reusable => moment + 4
      case _ => moment + 8
  }

  lemma ResolveClock(env: Env, h: Host)
    requires Resolve(env, h).session.Some?
    ensures Resolve(env, h).host.clock == RunsAt(env, Loaded(env, h), h.clock + 2)
  {
    LoadExactly(env, h);
    hide Load, Loaded;
  }

  /** A single run, from the moment on at which it starts: what is sent, and with what result. */
  lemma OneRun(env: Env, h: Host, threadId: string, key: string, session: string)
    ensures var d := Runs(env, h, threadId, key, session, false); var k := h.clock;
      && d.sends == (if env.typing(k + 1) then [Send(session, false, env.send(k + 2))] else [])
      && (d.outcome.Success? <==> env.typing(k + 1) && env.send(k + 2).Sent?)
  {
    hide Store, Resolve, Forget;
  }

  predicate PicksFrom(env: Env, h: Host, session: string) {
    Picks(env, Loaded(env, h), h.clock + 2, session)
  }

  /** The session that is picked, if any. */
  lemma PickedOnly(env: Env, h: Host)
    ensures Resolve(env, h).session.Some? <==> exists x :: PicksFrom(env, h, x)
    ensures forall x :: PicksFrom(env, h, x) <==> Resolve(env, h).session == Some(x)
  {
    forall x ensures PicksFrom(env, h, x) <==> Resolve(env, h).session == Some(x) {
      ResolveExactly(env, h, x);
    }
    hide PicksFrom, Resolve;
    if Resolve(env, h).session.Some? {
      assert PicksFrom(env, h, Resolve(env, h).session.value);
    }
  }

  /** What a recovery after a failed send does: a run of the session picked next, if there is one. */
  predicate RecoversBy(env: Env, failedAt: Host, failed: string, sends: seq<Send>, outcome: Outcome) {
    var k := RunsAt(env, Reloaded(env, failedAt, failed), ReloadedAt(env, failedAt, failed));
    && |sends| <= 1
    && (sends != [] ==> PicksNext(env, failedAt, failed, sends[0].session)
                        && sends[0] == Send(sends[0].session, false, env.send(k + 2)))
    && (outcome.Success? <==> sends != [] && env.send(k + 2).Sent?)
  }

  /** The recovery can run: a session is picked, and the typing indicator works when the run starts. */
  ghost predicate CanRecover(env: Env, failedAt: Host, failed: string) {
    && (exists x :: PicksNext(env, failedAt, failed, x))
    && env.typing(RunsAt(env, Reloaded(env, failedAt, failed), ReloadedAt(env, failedAt, failed)) + 1)
  }

  lemma ForgottenPicks(env: Env, h: Host, failed: string)
    ensures forall x :: PicksFrom(env, Forget(env, h, failed).host, x) <==> PicksNext(env, h, failed, x)
  {
    ForgetLoads(env, h, failed);
    hide Forget, Loaded, Reloaded, ReloadedAt, Picks;
  }

  lemma Recovers(env: Env, h: Host, threadId: string, key: string, failed: string)
    ensures var r := Resolve(env, Forget(env, h, failed).host);
      if r.session.None? then !CanRecover(env, h, failed)
      else
        var d := Runs(env, r.host, threadId, key, r.session.value, false);
        && RecoversBy(env, h, failed, d.sends, d.outcome)
        && (d.sends != [] <==> CanRecover(env, h, failed))
  {
    hide Forget, Resolve, Loaded, Reloaded, ReloadedAt, Picks, PicksFrom, PicksNext, Runs, RunsAt;
    var f := Forget(env, h, failed).host;
    ForgetLoads(env, h, failed);
    ForgottenPicks(env, h, failed);
    PickedOnly(env, f);
    var r := Resolve(env, f);
    if r.session.Some? {
      ResolveClock(env, f);
      OneRun(env, r.host, threadId, key, r.session.value);
      assert PicksNext(env, h, failed, r.session.value);
    }
  }

  /**
   A failed steer is made up for by a run, in all but two cases. After a steer on an unusable session
   there is a second send exactly if a session is picked once the failed one was to be forgotten, and
   the typing indicator works when its run starts; and the message succeeds exactly if that send is
   accepted.
   */
  lemma FailedSteerRecovers(env: Env, h: Host, threadId: string, key: string, order: seq<string>)
    ensures var d := Handle(env, h, threadId, key, order);
      var k := SteerKey(Load(env, h), threadId, key, order);
      k.Some? && env.send(h.clock + 3).Unusable? ==>
        && d.failedAt.Some? && d.sends != []
        && var failed := Load(env, h).host.turns[k.value].session; var at := d.failedAt.value;
        && d.sends[0] == Send(failed, true, Unusable)
        && at.clock == h.clock + 6
        && at.thread == Last(env.thread, h.clock, 6, h.thread) && at.bound == Last(env.bound, h.clock, 6, h.bound)
        && RecoversBy(env, at, failed, d.sends[1..], d.outcome)
        && (|d.sends| == 2 <==> CanRecover(env, at, failed))
  {
    LoadExactly(env, h);
    var l := Load(env, h);
    var k := SteerKey(l, threadId, key, order);
    if k.Some? && env.send(h.clock + 3).Unusable? {
      var active := l.host.turns[k.value];
      var after := Tick(env, Tick(env, l.host));
      var queued := Tick(env, after.(turns := Drop(after.turns, k.value, active)));
      var at := Tick(env, queued);
      Recovers(env, at, threadId, key, active.session);
      LastMore(env.thread, h.clock, 2, 4, h.thread);
      LastMore(env.bound, h.clock, 2, 4, h.bound);
      LastFour(env.thread, h.clock + 2, l.host.thread);
      LastFour(env.bound, h.clock + 2, l.host.bound);
      var d := Handle(env, h, threadId, key, order);
      var rest := Recover(env, queued, threadId, key, Some(active.session)).sends;
      assert d.sends == [Send(active.session, true, Unusable)] + rest && d.sends[1..] == rest;
      hide Last, Load, SteerKey, Resolve, Forget, Runs, CanRecover, RecoversBy;
    }
  }

  /**
   A message that steers no turn is run, and run again after an unusable session, in all but the
   same two cases: no session is picked, or the typing indicator fails when the run starts.
   */
  lemma FailedRunRecovers(env: Env, h: Host, threadId: string, key: string, order: seq<string>)
    ensures var d := Handle(env, h, threadId, key, order);
      SteerKey(Load(env, h), threadId, key, order).None? ==>
        var from := RunHost(env, h); var k := RunsAt(env, Loaded(env, from), from.clock + 2);
        && from.clock == h.clock + 3
        && (d.sends != [] <==> (exists x :: PicksFrom(env, from, x)) && env.typing(k + 1))
        && (d.sends != [] ==> PicksFrom(env, from, d.sends[0].session)
                              && d.sends[0] == Send(d.sends[0].session, false, env.send(k + 2)))
        && (d.sends != [] && d.sends[0].result.Unusable? ==>
              && d.failedAt.Some? && d.failedAt.value.clock == k + 3
              && RecoversBy(env, d.failedAt.value, d.sends[0].session, d.sends[1..], d.outcome)
              && (|d.sends| == 2 <==> CanRecover(env, d.failedAt.value, d.sends[0].session)))
        && (d.sends != [] && !d.sends[0].result.Unusable? ==>
              |d.sends| == 1 && (d.outcome.Success? <==> d.sends[0].result.Sent?))
        && (d.sends == [] ==> d.outcome.Threw?)
  {
    hide Load, SteerKey, Resolve, Loaded, RunsAt, PicksFrom, CanRecover, RecoversBy, Runs;
    var l := Load(env, h);
    LoadClock(env, h);
    if SteerKey(l, threadId, key, order).None? {
      var from := RunHost(env, h);
      PickedOnly(env, from);
      var r := Resolve(env, from);
      if r.session.Some? {
        ResolveClock(env, from);
        FirstRun(env, r.host, threadId, key, r.session.value);
      }
    }
  }

  /** The world when a message that steers no turn looks for its session. */
  function RunHost(env: Env, h: Host): Host {
    Tick(env, Load(env, h).host)
  }

  lemma LoadClock(env: Env, h: Host)
    ensures Load(env, h).host.clock == h.clock + 2
  {}

  /** A run that may be retried once. */
  lemma FirstRun(env: Env, h: Host, threadId: string, key: string, session: string)
    ensures var d := Runs(env, h, threadId, key, session, true); var k := h.clock;
      && (d.sends != [] <==> env.typing(k + 1))
      && (d.sends != [] ==> d.sends[0] == Send(session, false, env.send(k + 2)))
      && (d.sends != [] && d.sends[0].result.Unusable? ==>
            && d.failedAt.Some? && d.failedAt.value.clock == k + 3
            && RecoversBy(env, d.failedAt.value, session, d.sends[1..], d.outcome)
            && (|d.sends| == 2 <==> CanRecover(env, d.failedAt.value, session)))
      && (d.sends != [] && !d.sends[0].result.Unusable? ==>
            |d.sends| == 1 && (d.outcome.Success? <==> d.sends[0].result.Sent?))
      && (d.sends == [] ==> d.outcome.Threw?)
  {
    var ran := RunOnce(env, h, threadId, key, session);
    assert ran.sent <==> env.typing(h.clock + 1);
    assert ran.sent ==> ran.host.clock == h.clock + 3 && ran.result == env.send(h.clock + 2);
    hide RunOnce, Store, Resolve, Forget, CanRecover;
    if ran.result.Unusable? && ran.sent {
      Recovers(env, ran.host, threadId, key, session);
      var r := Resolve(env, Forget(env, ran.host, session).host);
      if r.session.Some? {
        var rest := Runs(env, r.host, threadId, key, r.session.value, false).sends;
        assert ([Send(session, false, ran.result)] + rest)[1..] == rest;
      } else {
        NotPicked(env, ran.host, session);
      }
    }
  }

  lemma NotPicked(env: Env, h: Host, failed: string)
    requires Resolve(env, Forget(env, h, failed).host).session.None?
    ensures RecoversBy(env, h, failed, [], Threw)
  {}

  lemma LastFour(change: nat -> Option<Option<string>>, first: nat, value: Option<string>)
    ensures Last(change, first, 4, value) == change(first + 3).GetOr(
      change(first + 2).GetOr(change(first + 1).GetOr(change(first).GetOr(value))))
  {
    LastMore(change, first, 2, 2, value);
    LastTwo(change, first, value);
    LastTwo(change, first + 2, Last(change, first, 2, value));
  }

  /**
   A message steers exactly if, when it has loaded its state, a turn with a session is listed under
   its key; or none is listed under its key, and a turn of its thread and its own session is listed.
   It then steers that turn's session.
   */
  lemma SteersExactly(env: Env, h: Host, threadId: string, key: string, order: seq<string>)
    requires forall k :: k in order <==> k in Load(env, h).host.turns
    ensures var d := Handle(env, h, threadId, key, order); var listed := Load(env, h).host.turns; var own := Loaded(env, h);
      && (d.sends != [] && d.sends[0].steer <==>
            if key in listed then listed[key].session != ""
            else own.Some? && own.value != ""
                 && exists k :: k in listed && listed[k].session == own.value && listed[k].threadId == threadId)
      && (d.sends != [] && d.sends[0].steer ==>
            d.sends[0].session == (if key in listed then listed[key].session else own.GetOr("")))
  {
    LoadExactly(env, h);
    var l := Load(env, h);
    var k := SteerKey(l, threadId, key, order);
    if k.None? {
      RecoverSends(env, l.host, threadId, key, None);
    }
    if key !in l.host.turns && l.session.Some? {
      forall x | x in l.host.turns && Serves(l.host.turns, x, l.session.value, threadId) ensures x in order {}
    }
    hide Load, Recover, RunOnce, Loaded;
  }

  // ------------------------------------------------------------ the active turns

  /** The active turns as other code leaves them at a moment. */
  function LeftAt(env: Env, moment: nat, turns: map<string, ActiveTurn>): map<string, ActiveTurn> {
    env.actives(moment).GetOr(turns)
  }

  /**
   A run lists itself under its key while it lasts, and takes off only itself; if the typing
   indicator fails it stays listed.
   */
  lemma RunListed(env: Env, h: Host, threadId: string, key: string, session: string)
    ensures var ran := RunOnce(env, h, threadId, key, session); var k := h.clock;
      var own := ActiveTurn(session, threadId, k + 1);
      var typing := LeftAt(env, k + 1, LeftAt(env, k, h.turns)[key := own]);
      var sent := LeftAt(env, k + 2, typing);
      if !env.typing(k + 1) then ran.host.turns == typing
      else
        && (key in sent && sent[key] == own ==> ran.host.turns.Keys == sent.Keys - {key})
        && (!(key in sent && sent[key] == own) ==> ran.host.turns == sent)
        && (forall x :: x in ran.host.turns ==> x in sent && ran.host.turns[x] == sent[x])
  {}

  /** The turn that a failed steer was aimed at is taken off, unless another one stands there by then. */
  lemma FailedSteerTakesOff(env: Env, h: Host, threadId: string, key: string, order: seq<string>)
    ensures var d := Handle(env, h, threadId, key, order); var l := Load(env, h).host;
      var k := SteerKey(Load(env, h), threadId, key, order);
      k.Some? && env.send(h.clock + 3).Unusable? ==>
        && d.failedAt.Some?
        && var sent := LeftAt(env, h.clock + 3, LeftAt(env, h.clock + 2, l.turns));
        var turns := if k.value in sent && sent[k.value] == l.turns[k.value] then sent - {k.value} else sent;
        d.failedAt.value.turns == LeftAt(env, h.clock + 5, LeftAt(env, h.clock + 4, turns))
  {
    LoadClock(env, h);
    hide Load, SteerKey, Resolve, Forget, Runs;
  }

  // -------------------------------------------------------------- the mapping

  lemma {:induction false} RunsStore(env: Env, h: Host, threadId: string, key: string, session: string, retry: bool)
    returns (g: Host)
    requires Runs(env, h, threadId, key, session, retry).outcome.Success?
    ensures var d := Runs(env, h, threadId, key, session, retry);
      d.sends != [] && d.host == Store(env, g, Some(d.sends[|d.sends| - 1].session))
    decreases retry
  {
    hide Resolve, Forget, Store;
    var ran := RunOnce(env, h, threadId, key, session);
    g := ran.host;
    if !ran.result.Sent? {
      var r := Resolve(env, Forget(env, ran.host, session).host);
      g := RunsStore(env, r.host, threadId, key, r.session.value, false);
    }
  }

  lemma RecoverStore(env: Env, h: Host, threadId: string, key: string, stale: Option<string>) returns (g: Host)
    requires Recover(env, h, threadId, key, stale).outcome.Success?
    ensures var d := Recover(env, h, threadId, key, stale);
      d.sends != [] && d.host == Store(env, g, Some(d.sends[|d.sends| - 1].session))
  {
    hide Resolve, Forget, Store, Runs;
    var ready := Tick(env, h);
    var r := Resolve(env, if stale.Some? then Forget(env, ready, stale.value).host else ready);
    g := RunsStore(env, r.host, threadId, key, r.session.value, stale.None?);
  }

  /**
   After a message that was served by a run the mapping is the session that served it, exactly
   unless other code stored another one in the thread's state at the last moment.
   */
  lemma MappingAfterRun(env: Env, h: Host, threadId: string, key: string, order: seq<string>)
    ensures var d := Handle(env, h, threadId, key, order);
      d.outcome.Success? ==>
        && d.sends != [] && d.host.clock > 0
        && var last := d.sends[|d.sends| - 1];
        (!last.steer ==>
           (Mapping(d.host) == Some(last.session)
            <==> forall other :: env.thread(d.host.clock - 1) == Some(Some(other)) ==> other == last.session))
  {
    hide Recover, Load, SteerKey, Store;
    var l := Load(env, h);
    var k := SteerKey(l, threadId, key, order);
    var d := Handle(env, h, threadId, key, order);
    if d.outcome.Success? {
      if k.None? {
        var g := RecoverStore(env, l.host, threadId, key, None);
        StoredMapping(env, g, d.sends[|d.sends| - 1].session);
      } else if !d.sends[0].result.Sent? {
        var after := Tick(env, Tick(env, l.host));
        var active := l.host.turns[k.value];
        var queued := Tick(env, after.(turns := Drop(after.turns, k.value, active)));
        var g := RecoverStore(env, queued, threadId, key, Some(active.session));
        StoredMapping(env, g, d.sends[|d.sends| - 1].session);
      }
    }
  }

  lemma StoredMapping(env: Env, g: Host, session: string)
    ensures var h := Store(env, g, Some(session));
      && h.clock > 0
      && (Mapping(h) == Some(session)
          <==> forall other :: env.thread(h.clock - 1) == Some(Some(other)) ==> other == session)
  {
    var change := env.thread(g.clock + 1);
    if change.Some? && change.value.Some? {
      assert env.thread(g.clock + 1) == Some(Some(change.value.value));
    }
  }

  /**
   A steer stores nothing. The mapping after one is the session that served it exactly if that is
   what other code has left there.
   */
  lemma MappingAfterSteer(env: Env, h: Host, threadId: string, key: string, order: seq<string>)
    ensures var d := Handle(env, h, threadId, key, order);
      d.outcome.Success? && d.sends != [] && d.sends[0].steer && |d.sends| == 1 ==>
        Mapping(d.host) == Merged(Last(env.thread, h.clock, 4, h.thread), Last(env.bound, h.clock, 4, h.bound))
  {
    LoadExactly(env, h);
    hide Recover, Load, SteerKey;
    var l := Load(env, h);
    var k := SteerKey(l, threadId, key, order);
    if k.Some? {
      LastMore(env.thread, h.clock, 2, 2, h.thread);
      LastMore(env.bound, h.clock, 2, 2, h.bound);
      LastTwo(env.thread, h.clock + 2, l.host.thread);
      LastTwo(env.bound, h.clock + 2, l.host.bound);
      var after := Tick(env, Tick(env, l.host));
      var active := l.host.turns[k.value];
      var queued := Tick(env, after.(turns := Drop(after.turns, k.value, active)));
      RecoverSends(env, queued, threadId, key, Some(active.session));
      hide Last;
    } else {
      RecoverSends(env, l.host, threadId, key, None);
    }
  }

  lemma LastTwo(change: nat -> Option<Option<string>>, first: nat, value: Option<string>)
    ensures Last(change, first, 2, value) == change(first + 1).GetOr(change(first).GetOr(value))
  {
    assert Last(change, first, 0, value) == value;
    assert Last(change, first, 1, value) == change(first).GetOr(value);
  }

  /** The world when the clearing write of `forgetThreadSession` takes effect. */
  function AtWrite(env: Env, h: Host): Host {
    Tick(env, Load(env, h).host)
  }

  /**
   `forgetThreadSession` clears the mapping only if it loaded the failed session. Then a newer
   session that was the mapping when the write took effect is lost, exactly unless it is stored
   again before the call returns; and what other code stores in the thread's state after that
   moment stays, although the binding is cleared later.
   */
  lemma NewerLostExactly(env: Env, h: Host, failed: string, newer: string)
    requires newer != failed && Mapping(AtWrite(env, h)) == Some(newer)
    ensures var f := Forget(env, h, failed);
      && (f.done <==> Loaded(env, h) == Some(failed))
      && (f.done ==>
            (Mapping(f.host) != Some(newer) <==> env.thread(h.clock + 3) != Some(Some(newer))))
      && (!f.done ==> f.host == Load(env, h).host)
  {
    LoadExactly(env, h);
    StoreExactly(env, Load(env, h).host, None);
    assert Last(env.thread, h.clock + 3, 0, None) == None;
    hide Load, Store, Loaded;
  }

  // ---------------------------------------------------------------- witnesses

  /** Nothing else happens, the typing indicator works and every session can be reused. */
  function Quiet(thread: nat -> Option<Option<string>>, send: nat -> SendResult): Env {
    Env(thread, _ => None, _ => None, _ => true, send, _ => Reusable, _ => None)
  }

  /** A newer session stored between the load and the write is lost. */
  lemma NewerSessionLost()
    ensures exists env, h ::
      && Mapping(AtWrite(env, h)) == Some("new")
      && Forget(env, h, "old").done && Mapping(Forget(env, h, "old").host) == None
  {
    var env := Quiet(k => if k == 2 then Some(Some("new")) else None, _ => Sent);
    var h := Host(Some("old"), Some("old"), map[], 0);
    assert Load(env, h) == Found(Host(Some("old"), Some("old"), map[], 2), Some("old"));
    assert AtWrite(env, h) == Host(Some("new"), Some("old"), map[], 3);
    assert Store(env, Load(env, h).host, None) == Host(None, None, map[], 4);
  }

  /** A message steers the active turn of its key although the mapping is another session. */
  lemma SteerLeavesMapping()
    ensures exists env, h, d ::
      && d == Handle(env, h, "thread", "key", []) && d.outcome.Success?
      && d.sends == [Send("a", true, Sent)] && Mapping(d.host) == Some("b")
  {
    var env := Quiet(_ => None, _ => Sent);
    var turns := map["key" := ActiveTurn("a", "thread", 0)];
    var h := Host(Some("b"), Some("b"), turns, 0);
    assert Load(env, h) == Found(Host(Some("b"), Some("b"), turns, 2), Some("b"));
    assert SteerKey(Load(env, h), "thread", "key", []) == Some("key");
    var after := Tick(env, Tick(env, Load(env, h).host));
    assert after == Host(Some("b"), Some("b"), turns, 4);
    var d := Done(after, [Send("a", true, Sent)], Success, None);
    assert Handle(env, h, "thread", "key", []) == d;
  }

  lemma QuietLoad(env: Env, h: Host)
    requires env.thread(h.clock) == None && env.thread(h.clock + 1) == None
    requires env.bound(h.clock) == None && env.bound(h.clock + 1) == None
    requires env.actives(h.clock) == None && env.actives(h.clock + 1) == None
    ensures Load(env, h) == Found(h.(clock := h.clock + 2), Mapping(h))
  {}

  /** A session that could be reused is taken again, when nobody interferes. */
  lemma QuietResolve(env: Env, h: Host)
    requires Mapping(h).Some? && env.lookup(h.clock + 2).Reusable?
    requires forall k :: h.clock <= k < h.clock + 6 ==>
      env.thread(k) == None && env.bound(k) == None && env.actives(k) == None
    ensures Resolve(env, h) == Found(Host(Mapping(h), Mapping(h), h.turns, h.clock + 6), Mapping(h))
  {
    QuietLoad(env, h);
    hide Load, Mapping;
    var asked := Tick(env, h.(clock := h.clock + 2));
    assert asked == h.(clock := h.clock + 3);
    assert Store(env, asked, Mapping(h)) == Host(Mapping(h), Mapping(h), h.turns, h.clock + 5);
  }

  lemma QuietRun(env: Env, h: Host, threadId: string, key: string, session: string)
    requires env.typing(h.clock + 1) && key !in h.turns
    requires forall k :: h.clock <= k < h.clock + 3 ==>
      env.thread(k) == None && env.bound(k) == None && env.actives(k) == None
    ensures RunOnce(env, h, threadId, key, session) == Ran(h.(clock := h.clock + 3), env.send(h.clock + 2), true)
  {
    var turn := ActiveTurn(session, threadId, h.clock + 1);
    assert Tick(env, h) == h.(clock := h.clock + 1);
    assert h.turns[key := turn] - {key} == h.turns;
  }

  /** A failed steer that ends well: the message runs on a new session. */
  lemma FailedSteerEndsWell()
    ensures exists env, h, d ::
      && d == Handle(env, h, "thread", "key", []) && d.outcome.Success?
      && d.sends == [Send("a", true, Unusable), Send("b", false, Sent)]
      && Mapping(d.host) == Some("b") && d.host.turns == map[]
  {
    var env := Quiet(_ => None, k => if k == 3 then Unusable else Sent).(start := _ => Some("b"));
    var turns := map["key" := ActiveTurn("a", "thread", 0)];
    var h := Host(Some("a"), None, turns, 0);
    hide RunOnce, Start;
    QuietLoad(env, h);
    assert SteerKey(Load(env, h), "thread", "key", []) == Some("key");
    var queued := Host(Some("a"), None, map[], 5);
    var after := Tick(env, Tick(env, Load(env, h).host));
    assert after == Host(Some("a"), None, turns, 4);
    assert Tick(env, after.(turns := Drop(after.turns, "key", turns["key"]))) == queued;
    var failed := Host(Some("a"), None, map[], 6);
    QuietLoad(env, failed);
    var cleared := Host(None, None, map[], 10);
    assert Forget(env, failed, "a") == Forgotten(cleared, true);
    QuietLoad(env, cleared);
    var looked := Host(None, None, map[], 12);
    QuietStart(env, looked, "b");
    var ready := Host(Some("b"), Some("b"), map[], 17);
    assert Resolve(env, cleared) == Found(ready, Some("b"));
    QuietRun(env, ready, "thread", "key", "b");
    hide Load, Forget, Resolve;
    var end := Host(Some("b"), Some("b"), map[], 22);
    assert Runs(env, ready, "thread", "key", "b", false) == Done(end, [Send("b", false, Sent)], Success, None);
    hide Runs;
    var d := Handle(env, h, "thread", "key", []);
    assert d.sends == [Send("a", true, Unusable)] + [Send("b", false, Sent)];
  }

  lemma QuietStart(env: Env, h: Host, session: string)
    requires env.start(h.clock) == Some(session) && session != ""
    requires forall k :: h.clock <= k < h.clock + 5 ==>
      env.thread(k) == None && env.bound(k) == None && env.actives(k) == None
    ensures Start(env, h) == Found(Host(Some(session), Some(session), h.turns, h.clock + 5), Some(session))
  {
    var asked := Tick(env, Tick(env, h));
    assert asked == h.(clock := h.clock + 2);
    assert Store(env, asked, Some(session)) == Host(Some(session), Some(session), h.turns, h.clock + 4);
  }

  /** The second send goes to the failed session when other code stores it again during the write. */
  lemma FailedSessionServesAgain()
    ensures exists env, h, d ::
      && d == Handle(env, h, "thread", "key", []) && d.outcome.Success?
      && d.sends == [Send("a", false, Unusable), Send("a", false, Sent)]
  {
    var env := Quiet(k => if k == 15 then Some(Some("a")) else None, k => if k == 11 then Unusable else Sent);
    var h := Host(Some("a"), None, map[], 0);
    hide Resolve, RunOnce;
    QuietLoad(env, h);
    var ready := Host(Some("a"), None, map[], 3);
    assert Tick(env, Load(env, h).host) == ready;
    QuietResolve(env, ready);
    var first := Host(Some("a"), Some("a"), map[], 9);
    QuietRun(env, first, "thread", "key", "a");
    var failed := Host(Some("a"), Some("a"), map[], 12);
    QuietLoad(env, failed);
    var again := Host(Some("a"), None, map[], 16);
    assert Forget(env, failed, "a") == Forgotten(again, true);
    QuietResolve(env, again);
    var second := Host(Some("a"), Some("a"), map[], 22);
    QuietRun(env, second, "thread", "key", "a");
    hide Load, Store, Forget;
    assert Runs(env, second, "thread", "key", "a", false).sends == [Send("a", false, Sent)];
    var d := Handle(env, h, "thread", "key", []);
    assert d.sends == [Send("a", false, Unusable)] + [Send("a", false, Sent)];
  }

  // ------------------------------------------------------------------ the code

  /** The variables of one connector process that the message reads and writes. */
  class ConnectorHost {
    const env: Env
    const threadId: string
    var threadState: Option<string>
    var binding: Option<string>
    var activeTurns: map<string, ActiveTurn>
    var clock: nat
    ghost var sends: seq<Send>

    ghost function View(): Host
      reads this
    {
      Host(threadState, binding, activeTurns, clock)
    }

    constructor (env: Env, threadId: string, h: Host)
      ensures this.env == env && this.threadId == threadId && View() == h && sends == []
    {
      this.env, this.threadId := env, threadId;
      threadState, binding, activeTurns, clock := h.thread, h.bound, h.turns, h.clock;
      sends := [];
    }

    method Await() returns (moment: nat)
      modifies this`threadState, this`binding, this`activeTurns, this`clock
      ensures moment == old(clock) && View() == Tick(env, old(View()))
    {
      moment := clock;
      threadState := env.thread(moment).GetOr(threadState);
      binding := env.bound(moment).GetOr(binding);
      activeTurns := env.actives(moment).GetOr(activeTurns);
      clock := clock + 1;
    }

    method LoadThreadState() returns (session: Option<string>)
      modifies this`threadState, this`binding, this`activeTurns, this`clock
      ensures Found(View(), session) == Load(env, old(View()))
    {
      var _ := Await();
      var own := threadState;
      var _ := Await();
      session := if own.Some? then own else binding;
    }

    method PersistMergedThreadState(session: Option<string>)
      modifies this`threadState, this`binding, this`activeTurns, this`clock
      ensures View() == Store(env, old(View()), session)
    {
      var _ := Await();
      threadState := session;
      var _ := Await();
      binding := session;
    }

    method ForgetThreadSession(expected: string) returns (forgotten: bool)
      modifies this`threadState, this`binding, this`activeTurns, this`clock
      ensures Forgotten(View(), forgotten) == Forget(env, old(View()), expected)
    {
      hide Load, Store;
      var session := LoadThreadState();
      if session != Some(expected) {
        return false;
      }
      PersistMergedThreadState(None);
      forgotten := true;
    }

    method GetOrCreateSessionId() returns (session: Option<string>)
      modifies this`threadState, this`binding, this`activeTurns, this`clock
      ensures Found(View(), session) == Resolve(env, old(View()))
    {
      hide Load, Store, Tick;
      var existing := LoadThreadState();
      if existing.Some? {
        var moment := Await();
        match env.lookup(moment)
        case Fails =>
          return None;
        case Reusable =>
          PersistMergedThreadState(existing);
          var _ := Await();
          return existing;
        case NotReusable =>
          PersistMergedThreadState(None);
      }
      var moment := Await();
      var started := env.start(moment);
      if started.None? || started.value == "" {
        return None;
      }
      var _ := Await();
      PersistMergedThreadState(started);
      var _ := Await();
      session := started;
    }

    method RunTurn(session: string, turnKey: string) returns (result: SendResult, ghost sent: bool)
      modifies this`threadState, this`binding, this`activeTurns, this`clock, this`sends
      ensures Ran(View(), result, sent) == RunOnce(env, old(View()), threadId, turnKey, session)
      ensures sends == old(sends) + if sent then [Send(session, false, result)] else []
    {
      var _ := Await();
      var turn := ActiveTurn(session, threadId, clock);
      activeTurns := activeTurns[turnKey := turn];
      var moment := Await();
      if !env.typing(moment) {
        return OtherError, false;
      }
      moment := Await();
      result, sent := env.send(moment), true;
      sends := sends + [Send(session, false, result)];
      if turnKey in activeTurns && activeTurns[turnKey] == turn {
        activeTurns := activeTurns - {turnKey};
      }
    }

    method RunWithRecovery(turnKey: string, stale: Option<string>) returns (outcome: Outcome)
      modifies this`threadState, this`binding, this`activeTurns, this`clock, this`sends
      ensures var d := Recover(env, old(View()), threadId, turnKey, stale);
        View() == d.host && outcome == d.outcome && sends == old(sends) + d.sends
    {
      hide Forget, Resolve, RunOnce, Store, Tick;
      var _ := Await();
      if stale.Some? {
        var _ := ForgetThreadSession(stale.value);
      }
      var resolved := GetOrCreateSessionId();
      if resolved.None? {
        return Threw;
      }
      var session := resolved.value;
      var allowRetry := stale.None?;
      ghost var d := Runs(env, View(), threadId, turnKey, session, allowRetry);
      var running := true;
      while running
        invariant running ==>
          var rest := Runs(env, View(), threadId, turnKey, session, allowRetry);
          rest.host == d.host && rest.outcome == d.outcome && sends + rest.sends == old(sends) + d.sends
        invariant !running ==>
          Store(env, View(), Some(session)) == d.host && d.outcome.Success? && sends == old(sends) + d.sends
        decreases running, allowRetry
      {
        var result, _ := RunTurn(session, turnKey);
        if result.Sent? {
          running := false;
        } else {
          if !allowRetry || !result.Unusable? {
            return Threw;
          }
          allowRetry := false;
          var _ := ForgetThreadSession(session);
          resolved := GetOrCreateSessionId();
          if resolved.None? {
            return Threw;
          }
          session := resolved.value;
        }
      }
      PersistMergedThreadState(Some(session));
      outcome := Success;
    }

    method HandleUserTurn(turnKey: string, order: seq<string>) returns (outcome: Outcome)
      modifies this`threadState, this`binding, this`activeTurns, this`clock, this`sends
      ensures var d := Handle(env, old(View()), threadId, turnKey, order);
        View() == d.host && outcome == d.outcome && sends == old(sends) + d.sends
    {
      hide Load, Recover, SteerKey, Tick;
      var session := LoadThreadState();
      var key := SteerKey(Found(Host(threadState, binding, activeTurns, clock), session), threadId, turnKey, order);
      if key.None? {
        outcome := RunWithRecovery(turnKey, None);
        return;
      }
      var active := activeTurns[key.value];
      var _ := Await();
      var moment := Await();
      var result := env.send(moment);
      sends := sends + [Send(active.session, true, result)];
      if result.Sent? {
        return Success;
      }
      if !result.Unusable? {
        return Threw;
      }
      if key.value in activeTurns && activeTurns[key.value] == active {
        activeTurns := activeTurns - {key.value};
      }
      var _ := Await();   // the turn waits for its place in the thread's queue
      outcome := RunWithRecovery(turnKey, Some(active.session));
    }
  }
}
