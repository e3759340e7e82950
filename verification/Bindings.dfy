/**
 The binding store of apps/cli/src/connectors/thread-bindings.ts: which stored conversation a chat
 thread belongs to, how a DM binding moves to the thread that used it last, and the key under
 which turns are serialised.

 A thread id determines its channel and whether it is a DM (`Directory`). The order in which the
 stored object enumerates its keys is a parameter, so what is proved holds for every order.
 */
module Bindings {
  import opened Prelude
  import opened JsText

  datatype Thread = Thread(id: string, channelId: string, isDM: bool)

  datatype Kind = Unset | Conversation | Participant | ThreadMute | ParticipantMute

  datatype ThreadState = ThreadState(
    sessionId: Option<string>, enableTools: Option<bool>, autoApproveTools: Option<bool>,
    cwd: Option<string>, workspaceRoot: Option<string>, systemPrompt: Option<string>,
    participantKey: Option<string>, participantLabel: Option<string>, welcomeSentAt: Option<string>)

  /** `serialized` is the thread that the stored JSON describes, if it can be read. */
  datatype Binding = Binding(
    kind: Kind, channelId: string, isDM: bool,
    participantKey: Option<string>, participantLabel: Option<string>,
    mutedKey: Option<string>, mutedAt: Option<string>,
    serialized: Option<Thread>, sessionId: Option<string>, state: Option<ThreadState>,
    updatedAt: string)

  type Store = map<string, Binding>

  predicate IsControl(b: Binding) {
    b.kind.ThreadMute? || b.kind.ParticipantMute?
  }

  /** The key under which turns of a thread are serialised. */
  function TurnQueueKey(t: Thread): string {
    if t.isDM then "dm:" + t.channelId else t.id
  }

  predicate Matches(s: Store, t: Thread, k: string) {
    k in s && !IsControl(s[k]) && s[k].channelId == t.channelId && s[k].isDM == t.isDM
  }

  predicate Exact(s: Store, t: Thread) {
    t.id in s && !IsControl(s[t.id])
  }

  function FirstMatch(s: Store, order: seq<string>, t: Thread): Option<string> {
    if order == [] then None
    else if Matches(s, t, order[0]) then Some(order[0])
    else FirstMatch(s, order[1..], t)
  }

  /** `findBindingForThread`: the key of the binding, when the keys enumerate as `order`. */
  function Find(s: Store, order: seq<string>, t: Thread): Option<string> {
    if Exact(s, t) then Some(t.id)
    else if !t.isDM then None
    else FirstMatch(s, order, t)
  }

  /** `order` enumerates the keys of the store. */
  ghost predicate Enumerates(order: seq<string>, s: Store) {
    forall k :: k in order <==> k in s
  }

  /** Some enumeration order makes the thread resolve to key `k`. */
  predicate CanResolve(s: Store, t: Thread, k: string) {
    if Exact(s, t) then k == t.id else t.isDM && Matches(s, t, k)
  }

  function StoredParticipant(b: Binding): Option<string> {
    Clean(if b.participantKey.Some? then b.participantKey
          else if b.state.Some? then b.state.value.participantKey else None)
  }

  predicate NeedsRefresh(k: string, b: Binding, t: Thread, participantKey: Option<string>) {
    k != t.id || b.serialized != Some(t) || StoredParticipant(b) != Clean(participantKey)
  }

  function Refreshed(b: Binding, t: Thread, participantKey: Option<string>, now: string): Binding {
    b.(channelId := t.channelId, isDM := t.isDM,
       participantKey := if Clean(participantKey).Some? then Clean(participantKey) else b.participantKey,
       serialized := Some(t), updatedAt := now)
  }

  /** The store after `readBindingForThread` found its binding under `k`. */
  function Rekeyed(s: Store, k: string, t: Thread, participantKey: Option<string>, now: string): Store
    requires k in s
  {
    if NeedsRefresh(k, s[k], t, participantKey) then
      (s - {k})[t.id := Refreshed(s[k], t, participantKey, now)]
    else s
  }

  function Load(s: Store, order: seq<string>, t: Thread, participantKey: Option<string>, now: string): Store
    requires Enumerates(order, s)
  {
    var k := Find(s, order, t);
    if k.None? then s else FindFound(s, order, t); Rekeyed(s, k.value, t, participantKey, now)
  }

  function Persist(s: Store, t: Thread, state: ThreadState, now: string): Store {
    s[t.id := Binding(Conversation, t.channelId, t.isDM, Clean(state.participantKey),
                      Clean(state.participantLabel), None, None, Some(t), state.sessionId, Some(state), now)]
  }

  function ThreadControlKey(t: Thread): string {
    "thread:" + t.id
  }

  function ParticipantControlKey(t: Thread, participant: string): string {
    "thread:" + t.id + ":participant:" + participant
  }

  function MuteThread(s: Store, t: Thread, muted: bool, now: string): Store {
    if muted then
      s[ThreadControlKey(t) := Binding(ThreadMute, t.channelId, t.isDM, None, None, None, Some(now),
                                       Some(t), None, None, now)]
    else s - {ThreadControlKey(t)}
  }

  function MuteParticipant(s: Store, t: Thread, participantKey: Option<string>, muted: bool, now: string): Store {
    var key := Clean(participantKey);
    if key.None? then s
    else if muted then
      s[ParticipantControlKey(t, key.value) :=
          Binding(ParticipantMute, t.channelId, t.isDM, None, None, key, Some(now), Some(t), None, None, now)]
    else s - {ParticipantControlKey(t, key.value)}
  }

  function WithoutSession(b: Binding): Binding {
    b.(sessionId := None,
       state := if b.state.Some? then Some(b.state.value.(sessionId := None)) else None)
  }

  /** `clearBindingSessionIds`. */
  function ClearSessions(s: Store): Store {
    map k | k in s :: WithoutSession(s[k])
  }

  /** `mergeThreadState`. */
  function Merge(own: Option<ThreadState>, bound: Option<ThreadState>, base: ThreadState): ThreadState {
    var none := ThreadState(None, None, None, None, None, None, None, None, None);
    var a := own.GetOr(none);
    var b := bound.GetOr(none);
    ThreadState(
      if Clean(a.sessionId).Some? then Clean(a.sessionId) else Clean(b.sessionId),
      if a.enableTools.Some? then a.enableTools
      else if b.enableTools.Some? then b.enableTools else base.enableTools,
      if a.autoApproveTools.Some? then a.autoApproveTools
      else if b.autoApproveTools.Some? then b.autoApproveTools else base.autoApproveTools,
      FirstText(a.cwd, FirstText(b.cwd, base.cwd)),
      FirstText(a.workspaceRoot, FirstText(b.workspaceRoot, base.workspaceRoot)),
      FirstText(a.systemPrompt, FirstText(b.systemPrompt, base.systemPrompt)),
      FirstText(a.participantKey, FirstText(b.participantKey, base.participantKey)),
      FirstText(a.participantLabel, FirstText(b.participantLabel, base.participantLabel)),
      FirstText(a.welcomeSentAt, FirstText(b.welcomeSentAt, base.welcomeSentAt)))
  }

  // --- Finding -------------------------------------------------------------------------------

  lemma {:induction false} FirstMatchFound(s: Store, order: seq<string>, t: Thread)
    ensures var k := FirstMatch(s, order, t);
      if k.Some? then k.value in order && Matches(s, t, k.value)
      else forall x :: x in order ==> !Matches(s, t, x)
  {
    if order != [] && !Matches(s, t, order[0]) {
      FirstMatchFound(s, order[1..], t);
    }
  }

  /** Finding returns a key the thread can resolve to, and fails only if there is none. */
  lemma FindFound(s: Store, order: seq<string>, t: Thread)
    requires Enumerates(order, s)
    ensures var k := Find(s, order, t);
      if k.Some? then k.value in s && CanResolve(s, t, k.value) else forall x :: !CanResolve(s, t, x)
  {
    FirstMatchFound(s, order, t);
  }

  // --- Runs ----------------------------------------------------------------------------------

  datatype Event =
    | LoadThread(t: Thread, participantKey: Option<string>, order: seq<string>, now: string)
    | PersistThread(t: Thread, state: ThreadState, now: string)
    | SetThreadMuted(t: Thread, muted: bool, now: string)
    | SetParticipantMuted(t: Thread, participantKey: Option<string>, muted: bool, now: string)
    | ClearAll

  /** What a thread id stands for. */
  type Directory = string -> (string, bool)

  predicate Known(dir: Directory, t: Thread) {
    dir(t.id) == (t.channelId, t.isDM)
  }

  ghost predicate Enabled(dir: Directory, s: Store, e: Event) {
    && (!e.ClearAll? ==> Known(dir, e.t))
    && (e.LoadThread? ==> Enumerates(e.order, s))
  }

  ghost function Apply(dir: Directory, s: Store, e: Event): Store
    requires Enabled(dir, s, e)
  {
    match e
    case LoadThread(t, participantKey, order, now) => Load(s, order, t, participantKey, now)
    case PersistThread(t, state, now) => Persist(s, t, state, now)
    case SetThreadMuted(t, muted, now) => MuteThread(s, t, muted, now)
    case SetParticipantMuted(t, participantKey, muted, now) => MuteParticipant(s, t, participantKey, muted, now)
    case ClearAll => ClearSessions(s)
  }

  ghost function Run(dir: Directory, s: Store, es: seq<Event>): Option<Store>
    decreases |es|
  {
    if es == [] then Some(s)
    else if Enabled(dir, s, es[0]) then Run(dir, Apply(dir, s, es[0]), es[1..])
    else None
  }

  /** Every conversation is stored under a thread of its own channel. */
  ghost predicate KeysFit(dir: Directory, s: Store) {
    forall k :: k in s && !IsControl(s[k]) ==> dir(k) == (s[k].channelId, s[k].isDM)
  }

  lemma EventKeysFit(dir: Directory, s: Store, e: Event)
    requires KeysFit(dir, s) && Enabled(dir, s, e)
    ensures KeysFit(dir, Apply(dir, s, e))
  {
    if e.LoadThread? {
      FindFound(s, e.order, e.t);
    }
  }

  lemma {:induction false} RunKeysFit(dir: Directory, s: Store, es: seq<Event>)
    requires KeysFit(dir, s) && Run(dir, s, es).Some?
    ensures KeysFit(dir, Run(dir, s, es).value)
    decreases |es|
  {
    if es != [] {
      EventKeysFit(dir, s, es[0]);
      RunKeysFit(dir, Apply(dir, s, es[0]), es[1..]);
    }
  }

  /**
   In every reachable store, two threads that resolve to the same conversation have the same
   turn-queue key, whatever orders the two look-ups enumerate the keys in.
   */
  lemma SharedBindingSharesQueue(dir: Directory, es: seq<Event>, s: Store,
                                 t: Thread, o: seq<string>, u: Thread, p: seq<string>)
    requires Run(dir, map[], es) == Some(s) && Known(dir, t) && Known(dir, u)
    requires Enumerates(o, s) && Enumerates(p, s)
    requires Find(s, o, t).Some? && Find(s, o, t) == Find(s, p, u)
    ensures TurnQueueKey(t) == TurnQueueKey(u)
  {
    RunKeysFit(dir, map[], es);
    FindFound(s, o, t);
    FindFound(s, p, u);
  }

  // --- One conversation per DM ---------------------------------------------------------------

  /** `k` holds the conversation of the DM in this channel. */
  predicate HoldsDM(s: Store, channelId: string, k: string) {
    k in s && !IsControl(s[k]) && s[k].isDM && s[k].channelId == channelId
  }

  ghost predicate OnePerDM(s: Store) {
    forall c, j, k :: HoldsDM(s, c, j) && HoldsDM(s, c, k) ==> j == k
  }

  /** With one conversation per DM the enumeration order does not matter. */
  lemma FindExactly(s: Store, order: seq<string>, t: Thread, k: string)
    requires OnePerDM(s) && Enumerates(order, s)
    ensures Find(s, order, t) == Some(k) <==> CanResolve(s, t, k)
  {
    FindFound(s, order, t);
    if CanResolve(s, t, k) && !Exact(s, t) {
      assert HoldsDM(s, t.channelId, k) && HoldsDM(s, t.channelId, Find(s, order, t).value);
    }
  }

  /**
   In every store, loading moves the conversation the thread resolves to under the thread's own id,
   keeps its session and state, and leaves every other entry alone.
   */
  lemma LoadRekeys(s: Store, order: seq<string>, t: Thread, participantKey: Option<string>, now: string)
    requires Enumerates(order, s)
    ensures var k := Find(s, order, t); var r := Load(s, order, t, participantKey, now);
      && (k.None? ==> r == s && !Exact(s, t))
      && (k.Some? ==>
            && k.value in s && Exact(r, t) && r[t.id].kind == s[k.value].kind
            && r[t.id].sessionId == s[k.value].sessionId && r[t.id].state == s[k.value].state
            && r.Keys == s.Keys - {k.value} + {t.id}
            && forall x :: x in s && x != t.id && x != k.value ==> r[x] == s[x])
  {
    FindFound(s, order, t);
  }

  /** Loading keeps one conversation per DM. */
  lemma LoadKeepsOne(dir: Directory, s: Store, order: seq<string>, t: Thread, participantKey: Option<string>, now: string)
    requires KeysFit(dir, s) && OnePerDM(s) && Known(dir, t) && Enumerates(order, s)
    ensures OnePerDM(Load(s, order, t, participantKey, now))
  {
    FindFound(s, order, t);
    var r := Load(s, order, t, participantKey, now);
    var k := Find(s, order, t);
    if k.Some? {
      assert t.isDM ==> HoldsDM(s, t.channelId, k.value);
      forall c, x | HoldsDM(r, c, x) ensures HoldsDM(s, c, if x == t.id then k.value else x) {}
    }
  }

  /** Persisting keeps one conversation per DM exactly if the DM's conversation is this thread's. */
  lemma PersistKeepsOne(dir: Directory, s: Store, t: Thread, state: ThreadState, now: string)
    requires KeysFit(dir, s) && OnePerDM(s) && Known(dir, t)
    ensures OnePerDM(Persist(s, t, state, now)) <==>
      (t.isDM ==> forall k :: HoldsDM(s, t.channelId, k) ==> k == t.id)
  {
    var r := Persist(s, t, state, now);
    assert t.isDM ==> HoldsDM(r, t.channelId, t.id);
    assert forall c, k :: k != t.id ==> (HoldsDM(r, c, k) <==> HoldsDM(s, c, k));
    assert forall c :: HoldsDM(r, c, t.id) ==> t.isDM && c == t.channelId;
  }

  /** After loading a thread of a DM, no other thread holds the DM's conversation. */
  lemma LoadedIsMine(dir: Directory, s: Store, order: seq<string>, t: Thread, participantKey: Option<string>, now: string)
    requires KeysFit(dir, s) && OnePerDM(s) && Known(dir, t) && Enumerates(order, s) && t.isDM
    ensures forall k :: HoldsDM(Load(s, order, t, participantKey, now), t.channelId, k) ==> k == t.id
  {
    var r := Load(s, order, t, participantKey, now);
    LoadRekeys(s, order, t, participantKey, now);
    LoadKeepsOne(dir, s, order, t, participantKey, now);
    EventKeysFit(dir, s, LoadThread(t, participantKey, order, now));
    FindFound(s, order, t);
    forall k | HoldsDM(r, t.channelId, k) ensures k == t.id {
      FindExactly(s, order, t, k);
      assert Exact(r, t) ==> HoldsDM(r, t.channelId, t.id);
    }
  }

  /** After loading a thread, persisting it keeps one conversation per DM. */
  lemma SerialisedTurnKeepsOne(dir: Directory, s: Store, order: seq<string>, t: Thread,
                               participantKey: Option<string>, state: ThreadState, now: string)
    requires KeysFit(dir, s) && OnePerDM(s) && Known(dir, t) && Enumerates(order, s)
    ensures OnePerDM(Persist(Load(s, order, t, participantKey, now), t, state, now))
  {
    var r := Load(s, order, t, participantKey, now);
    LoadRekeys(s, order, t, participantKey, now);
    LoadKeepsOne(dir, s, order, t, participantKey, now);
    EventKeysFit(dir, s, LoadThread(t, participantKey, order, now));
    if t.isDM {
      LoadedIsMine(dir, s, order, t, participantKey, now);
    }
    PersistKeepsOne(dir, r, t, state, now);
  }

  /**
   Without the serialisation it fails: when another message of the DM is loaded between the load
   and the persist of a turn, the turn's persist leaves two conversations for the DM.
   */
  lemma InterleavedLoadSplitsDM(dir: Directory, s: Store, order: seq<string>, t: Thread, u: Thread,
                                participantKey: Option<string>, state: ThreadState, now: string)
    requires KeysFit(dir, s) && OnePerDM(s) && Known(dir, t) && Known(dir, u) && Enumerates(order, s)
    requires t.isDM && u.isDM && t.channelId == u.channelId && t.id != u.id
    requires Exact(s, t)
    ensures !OnePerDM(Persist(Load(s, order, u, participantKey, now), t, state, now))
  {
    var r := Load(s, order, u, participantKey, now);
    assert HoldsDM(s, u.channelId, t.id) && Matches(s, u, t.id);
    assert dir(u.id) == (u.channelId, u.isDM);
    FindExactly(s, order, u, t.id);
    FindExactly(s, order, u, u.id);
    LoadRekeys(s, order, u, participantKey, now);
    LoadKeepsOne(dir, s, order, u, participantKey, now);
    EventKeysFit(dir, s, LoadThread(u, participantKey, order, now));
    assert HoldsDM(r, t.channelId, u.id);
    PersistKeepsOne(dir, r, t, state, now);
  }

  /** From the empty store: two threads of one DM, the second loaded in the middle of a turn of the first. */
  lemma TwoConversations() returns (dir: Directory, es: seq<Event>, s: Store)
    ensures Run(dir, map[], es) == Some(s)
    ensures HoldsDM(s, "dm", "a") && HoldsDM(s, "dm", "b")
  {
    var a, b := Thread("a", "dm", true), Thread("b", "dm", true);
    var state := ThreadState(None, None, None, None, None, None, None, None, None);
    dir := _ => ("dm", true);
    var e0, e1 := PersistThread(a, state, "1"), LoadThread(b, None, ["a"], "2");
    es := [e0, e1, e0];
    var first := Persist(map[], a, state, "1");
    assert "a" in ["a"];
    var second := Load(first, ["a"], b, None, "2");
    LoadRekeys(first, ["a"], b, None, "2");
    assert Matches(first, b, "a");
    s := Persist(second, a, state, "1");
    assert es[1..] == [e1, e0] && es[1..][1..] == [e0] && es[1..][1..][1..] == [];
    assert Run(dir, second, [e0]) == Some(s);
    assert Run(dir, first, [e1, e0]) == Some(s);
  }

  /** Which thread of each DM was loaded last. */
  type Holders = map<string, string>

  function Holding(last: Holders, e: Event): Holders {
    if e.LoadThread? && e.t.isDM then last[e.t.channelId := e.t.id] else last
  }

  /**
   The turns of each DM are serialised: a thread persists only what it loaded, as often as it likes
   and with loads of its own between, while no other thread of the DM is loaded. Turns of other
   threads, mutes and clears interleave freely.
   */
  predicate Serial(es: seq<Event>, last: Holders)
    decreases |es|
  {
    es == [] ||
    (var e := es[0];
     (e.PersistThread? && e.t.isDM ==> e.t.channelId in last && last[e.t.channelId] == e.t.id)
     && Serial(es[1..], Holding(last, e)))
  }

  /** The conversation of each DM is held by the thread loaded last, if any. */
  ghost predicate HeldByLast(s: Store, last: Holders) {
    forall c, k :: c in last && HoldsDM(s, c, k) ==> k == last[c]
  }

  lemma EventKeepsOne(dir: Directory, s: Store, e: Event, last: Holders)
    requires KeysFit(dir, s) && OnePerDM(s) && HeldByLast(s, last) && Enabled(dir, s, e) && Serial([e], last)
    ensures OnePerDM(Apply(dir, s, e)) && HeldByLast(Apply(dir, s, e), Holding(last, e))
  {
    var r := Apply(dir, s, e);
    match e
    case LoadThread(t, participantKey, order, now) =>
      LoadRekeys(s, order, t, participantKey, now);
      LoadKeepsOne(dir, s, order, t, participantKey, now);
      if t.isDM {
        LoadedIsMine(dir, s, order, t, participantKey, now);
      }
      LoadMovesOnly(dir, s, order, t, participantKey, now);
    case PersistThread(t, state, now) =>
      PersistKeepsOne(dir, s, t, state, now);
      assert forall c, k :: HoldsDM(r, c, k) ==> HoldsDM(s, c, k) || (k == t.id && t.isDM && c == t.channelId);
    case _ =>
      forall c, k | HoldsDM(r, c, k) ensures HoldsDM(s, c, k) {}
  }

  /** Loading moves no conversation of another DM. */
  lemma LoadMovesOnly(dir: Directory, s: Store, order: seq<string>, t: Thread, participantKey: Option<string>, now: string)
    requires KeysFit(dir, s) && Known(dir, t) && Enumerates(order, s)
    ensures forall c, k :: HoldsDM(Load(s, order, t, participantKey, now), c, k) ==>
      HoldsDM(s, c, k) || (t.isDM && c == t.channelId)
  {
    FindFound(s, order, t);
  }

  /** Serialised turns, with any mutes and clears between, keep one conversation per DM. */
  lemma {:induction false} SerialRunsKeepOne(dir: Directory, s: Store, es: seq<Event>, last: Holders)
    requires KeysFit(dir, s) && OnePerDM(s) && HeldByLast(s, last) && Serial(es, last) && Run(dir, s, es).Some?
    ensures OnePerDM(Run(dir, s, es).value)
    decreases |es|
  {
    hide KeysFit, OnePerDM, HeldByLast, Apply, Enabled;
    if es != [] {
      assert [es[0]][1..] == [];
      EventKeepsOne(dir, s, es[0], last);
      EventKeysFit(dir, s, es[0]);
      SerialRunsKeepOne(dir, Apply(dir, s, es[0]), es[1..], Holding(last, es[0]));
    }
  }

  /** From the empty store on. */
  lemma SerialStoresKeepOne(dir: Directory, es: seq<Event>, s: Store)
    requires Run(dir, map[], es) == Some(s) && Serial(es, map[])
    ensures OnePerDM(s)
  {
    SerialRunsKeepOne(dir, map[], es, map[]);
  }

  /**
   A session persisted by one thread is what the next load gives, to that thread and to every other
   thread of the same DM that has no session of its own.
   */
  lemma SessionCarriesOver(dir: Directory, s: Store, t: Thread, u: Thread, order: seq<string>,
                           participantKey: Option<string>, state: ThreadState, base: ThreadState, now: string)
    requires KeysFit(dir, s) && Known(dir, t) && Known(dir, u)
    requires u == t || (t.isDM && u.isDM && t.channelId == u.channelId && !Exact(s, u))
    requires OnePerDM(Persist(s, t, state, now)) && Enumerates(order, Persist(s, t, state, now))
    ensures var r := Load(Persist(s, t, state, now), order, u, participantKey, now);
      && Exact(r, u) && r[u.id].sessionId == state.sessionId && r[u.id].state == Some(state)
      && Merge(None, r[u.id].state, base).sessionId == Clean(state.sessionId)
  {
    var p := Persist(s, t, state, now);
    EventKeysFit(dir, s, PersistThread(t, state, now));
    FindExactly(p, order, u, t.id);
    LoadRekeys(p, order, u, participantKey, now);
    LoadKeepsOne(dir, p, order, u, participantKey, now);
  }

  // --- Merging thread state ------------------------------------------------------------------

  /** The stored state gives `id` as its session. */
  predicate Names(state: Option<ThreadState>, id: string) {
    && state.Some? && state.value.sessionId.Some?
    && id != [] && Trim(state.value.sessionId.value) == id
  }

  /** `r` is the first value that is present, if there is one. */
  ghost predicate FirstPresent(r: Option<bool>, list: seq<Option<bool>>) {
    if r.None? then forall i :: 0 <= i < |list| ==> list[i].None?
    else exists i :: 0 <= i < |list| && r == list[i] && forall j :: 0 <= j < i ==> list[j].None?
  }

  /** `r` is the first text that is present and not empty, or the last entry if there is none. */
  ghost predicate FirstNonEmpty(r: Option<string>, list: seq<Option<string>>) {
    exists i :: 0 <= i < |list| && r == list[i]
      && (forall j :: 0 <= j < i ==> list[j] == None || list[j] == Some(""))
      && (i == |list| - 1 || (list[i] != None && list[i] != Some("")))
  }

  /** One field of the thread's own state, of the binding's and of the base, in this order. */
  function Sources<T>(own: Option<ThreadState>, bound: Option<ThreadState>, base: ThreadState,
                      field: ThreadState -> Option<T>): seq<Option<T>> {
    [if own.Some? then field(own.value) else None, if bound.Some? then field(bound.value) else None, field(base)]
  }

  /** The session of the thread's own state wins, then that of the binding; the base has none to give. */
  lemma MergedSession(own: Option<ThreadState>, bound: Option<ThreadState>, base: ThreadState)
    ensures var session := Merge(own, bound, base).sessionId;
      && (forall id :: Names(own, id) ==> session == Some(id))
      && ((forall id :: !Names(own, id)) ==> forall id :: Names(bound, id) <==> session == Some(id))
  {
    if own.Some? && own.value.sessionId.Some? && Clean(own.value.sessionId).Some? {
      assert Names(own, Trim(own.value.sessionId.value));
    }
    hide Trim;
  }

  /** A switch is the first that is present; a text is the first that is not empty. */
  lemma MergedFields(own: Option<ThreadState>, bound: Option<ThreadState>, base: ThreadState)
    ensures var m := Merge(own, bound, base);
      && FirstPresent(m.enableTools, Sources(own, bound, base, (s: ThreadState) => s.enableTools))
      && FirstPresent(m.autoApproveTools, Sources(own, bound, base, (s: ThreadState) => s.autoApproveTools))
      && FirstNonEmpty(m.cwd, Sources(own, bound, base, (s: ThreadState) => s.cwd))
      && FirstNonEmpty(m.workspaceRoot, Sources(own, bound, base, (s: ThreadState) => s.workspaceRoot))
      && FirstNonEmpty(m.systemPrompt, Sources(own, bound, base, (s: ThreadState) => s.systemPrompt))
      && FirstNonEmpty(m.participantKey, Sources(own, bound, base, (s: ThreadState) => s.participantKey))
      && FirstNonEmpty(m.participantLabel, Sources(own, bound, base, (s: ThreadState) => s.participantLabel))
      && FirstNonEmpty(m.welcomeSentAt, Sources(own, bound, base, (s: ThreadState) => s.welcomeSentAt))
  {
    SwitchOfThree();
    TextOfThree();
    hide FirstPresent, FirstNonEmpty, Clean;
  }

  lemma SwitchOfThree()
    ensures forall a: Option<bool>, b: Option<bool>, c ::
      FirstPresent(if a.Some? then a else if b.Some? then b else c, [a, b, c])
  {
    forall a: Option<bool>, b: Option<bool>, c ensures FirstPresent(if a.Some? then a else if b.Some? then b else c, [a, b, c]) {
      var list := [a, b, c];
      assert list[0] == a && list[1] == b && list[2] == c;
    }
  }

  lemma TextOfThree()
    ensures forall a, b, c :: FirstNonEmpty(FirstText(a, FirstText(b, c)), [a, b, c])
  {
    forall a, b, c ensures FirstNonEmpty(FirstText(a, FirstText(b, c)), [a, b, c]) {
      var list := [a, b, c];
      assert list[0] == a && list[1] == b && list[2] == c;
    }
  }

  // --- Mutes ---------------------------------------------------------------------------------

  /**
   A mute record changes what some thread resolves to exactly if its key is already taken by a
   conversation, that is by a thread whose id has the form of a control key.
   */
  lemma MutesTakeNoPart(s: Store, t: Thread, muted: bool, now: string)
    ensures (forall u: Thread, k :: CanResolve(MuteThread(s, t, muted, now), u, k) <==> CanResolve(s, u, k))
      <==> (ThreadControlKey(t) in s ==> IsControl(s[ThreadControlKey(t)]))
  {
    var key := ThreadControlKey(t);
    var r := MuteThread(s, t, muted, now);
    if key in s && !IsControl(s[key]) {
      var u := Thread(key, s[key].channelId, false);
      assert CanResolve(s, u, key) && !CanResolve(r, u, key);
    } else {
      forall u: Thread, k ensures CanResolve(r, u, k) <==> CanResolve(s, u, k) {
        assert Exact(r, u) <==> Exact(s, u);
        assert Matches(r, u, k) <==> Matches(s, u, k);
      }
    }
  }

  /** The same for a participant's mute record. */
  lemma ParticipantMutesTakeNoPart(s: Store, t: Thread, participantKey: Option<string>, muted: bool, now: string)
    requires Clean(participantKey).Some?
    ensures (forall u: Thread, k ::
               CanResolve(MuteParticipant(s, t, participantKey, muted, now), u, k) <==> CanResolve(s, u, k))
      <==> var key := ParticipantControlKey(t, Clean(participantKey).value); key in s ==> IsControl(s[key])
  {
    var key := ParticipantControlKey(t, Clean(participantKey).value);
    var r := MuteParticipant(s, t, participantKey, muted, now);
    if key in s && !IsControl(s[key]) {
      var u := Thread(key, s[key].channelId, false);
      assert CanResolve(s, u, key) && !CanResolve(r, u, key);
    } else {
      forall u: Thread, k ensures CanResolve(r, u, k) <==> CanResolve(s, u, k) {
        assert Exact(r, u) <==> Exact(s, u);
        assert Matches(r, u, k) <==> Matches(s, u, k);
      }
    }
  }

  // --- The stored file -----------------------------------------------------------------------

  class BindingFile {
    var bindings: Store

    /** The loop of `findBindingForThread` over the entries. */
    method FindBinding(order: seq<string>, t: Thread) returns (key: Option<string>)
      ensures key == Find(bindings, order, t)
    {
      if t.id in bindings && !IsControl(bindings[t.id]) {
        return Some(t.id);
      }
      if !t.isDM {
        return None;
      }
      for i := 0 to |order|
        invariant FirstMatch(bindings, order, t) == FirstMatch(bindings, order[i..], t)
      {
        assert order[i..][1..] == order[i + 1..];
        if Matches(bindings, t, order[i]) {
          return Some(order[i]);
        }
      }
      key := None;
    }

    method ReadBindingForThread(order: seq<string>, t: Thread, participantKey: Option<string>, now: string)
      returns (found: Option<Binding>)
      requires Enumerates(order, bindings)
      modifies this
      ensures bindings == Load(old(bindings), order, t, participantKey, now)
      ensures Find(old(bindings), order, t).None? ==> found.None?
      ensures Find(old(bindings), order, t).Some? ==> t.id in bindings && found == Some(bindings[t.id])
    {
      FindFound(bindings, order, t);
      var key := FindBinding(order, t);
      if key.None? {
        return None;
      }
      var k := key.value;
      var binding := bindings[k];
      if NeedsRefresh(k, binding, t, participantKey) {
        bindings := bindings[t.id := Refreshed(binding, t, participantKey, now)];
        if k != t.id {
          bindings := bindings - {k};
        }
      }
      found := Some(bindings[t.id]);
    }

    /**
     Afterwards every look-up and load by the thread gives its own conversation with the session and
     state persisted, whatever the key order; nothing else has changed.
     */
    method PersistThreadBinding(t: Thread, state: ThreadState, now: string)
      modifies this
      ensures bindings == Persist(old(bindings), t, state, now)
      ensures bindings.Keys == old(bindings).Keys + {t.id}
      ensures forall k :: k in old(bindings) && k != t.id ==> bindings[k] == old(bindings)[k]
      ensures forall order :: Find(bindings, order, t) == Some(t.id)
      ensures forall order, participantKey, later :: Enumerates(order, bindings) ==>
        var r := Load(bindings, order, t, participantKey, later);
        && r.Keys == bindings.Keys
        && r[t.id].sessionId == state.sessionId && r[t.id].state == Some(state)
    {
      bindings := bindings[t.id := Binding(Conversation, t.channelId, t.isDM, Clean(state.participantKey),
                                           Clean(state.participantLabel), None, None, Some(t),
                                           state.sessionId, Some(state), now)];
    }

    method SetMuted(t: Thread, muted: bool, now: string) returns (mutedAt: Option<string>)
      modifies this
      ensures bindings == MuteThread(old(bindings), t, muted, now)
      ensures mutedAt == if muted then Some(now) else None
    {
      var key := ThreadControlKey(t);
      if !muted {
        if key in bindings {
          bindings := bindings - {key};
        }
        return None;
      }
      bindings := bindings[key := Binding(ThreadMute, t.channelId, t.isDM, None, None, None, Some(now),
                                          Some(t), None, None, now)];
      mutedAt := Some(now);
    }
  }
}
