/** What the records of `Bindings` hold after loading, persisting, muting and clearing. */
module BindingRecords {
  import opened Prelude
  import opened JsText
  import opened Bindings

  /** The participant a record is stored for: its own field if present, or that of its state. */
  ghost predicate StoredFor(b: Binding, participant: Option<string>) {
    if b.participantKey.Some? then Clean(b.participantKey) == participant
    else if b.state.Some? then Clean(b.state.value.participantKey) == participant
    else participant.None?
  }

  lemma StoredForExactly(b: Binding, participant: Option<string>)
    ensures StoredFor(b, participant) <==> StoredParticipant(b) == participant
  {}

  lemma CleanTwice(value: Option<string>)
    ensures Clean(Clean(value)) == Clean(value)
  {}

  /**
   The conversation that a load finds comes to stand for this thread and, if one is named, for this
   participant; it is dated anew exactly if it did not yet.
   */
  lemma LoadRefreshes(s: Store, order: seq<string>, t: Thread, participantKey: Option<string>, now: string, k: string)
    requires Enumerates(order, s) && Find(s, order, t) == Some(k)
    ensures var r := Load(s, order, t, participantKey, now);
      && k in s && t.id in r && r[t.id].serialized == Some(t)
      && (Clean(participantKey).Some? ==> StoredFor(r[t.id], Clean(participantKey)))
      && (Clean(participantKey).None? ==> r[t.id].participantKey == s[k].participantKey)
      && r[t.id].participantLabel == s[k].participantLabel
      && (if k == t.id && s[k].serialized == Some(t) && StoredFor(s[k], Clean(participantKey)) then r == s
          else r[t.id].updatedAt == now && r[t.id].channelId == t.channelId && r[t.id].isDM == t.isDM)
  {
    FindFound(s, order, t);
    StoredForExactly(s[k], Clean(participantKey));
    CleanTwice(participantKey);
    hide Find, Clean, StoredParticipant;
    var r := Load(s, order, t, participantKey, now);
    StoredForExactly(r[t.id], Clean(participantKey));
  }

  /**
   A second load by the same thread finds nothing to refresh, unless it names no participant and the
   conversation is stored for one: then every load dates it anew.
   */
  lemma LoadTwice(s: Store, order: seq<string>, t: Thread, participantKey: Option<string>, now: string,
                  again: seq<string>, later: string, k: string)
    requires Enumerates(order, s) && Find(s, order, t) == Some(k) && k in s && later != now && later != s[k].updatedAt
    requires Enumerates(again, Load(s, order, t, participantKey, now))
    ensures var r := Load(s, order, t, participantKey, now);
      Load(r, again, t, participantKey, later) == r <==>
        Clean(participantKey).Some? || StoredFor(s[k], None)
  {
    LoadRefreshes(s, order, t, participantKey, now, k);
    LoadRekeys(s, order, t, participantKey, now);
    var r := Load(s, order, t, participantKey, now);
    LoadRefreshes(r, again, t, participantKey, later, t.id);
    hide Load, Clean;
    assert r[t.id].updatedAt != later by {
      LoadDates(s, order, t, participantKey, now, k);
    }
  }

  lemma LoadDates(s: Store, order: seq<string>, t: Thread, participantKey: Option<string>, now: string, k: string)
    requires Enumerates(order, s) && Find(s, order, t) == Some(k)
    ensures k in s && t.id in Load(s, order, t, participantKey, now)
    ensures Load(s, order, t, participantKey, now)[t.id].updatedAt in {now, s[k].updatedAt}
  {
    FindFound(s, order, t);
    hide Clean, StoredParticipant;
  }

  /** A thread that loads what it has persisted finds all of it, and nothing to refresh. */
  lemma LoadAfterPersist(s: Store, order: seq<string>, t: Thread, state: ThreadState, now: string, later: string)
    requires Enumerates(order, Persist(s, t, state, now))
    ensures var p := Persist(s, t, state, now);
      && Load(p, order, t, state.participantKey, later) == p
      && p == s[t.id := p[t.id]] && p[t.id].kind == Conversation && p[t.id].updatedAt == now
      && p[t.id].channelId == t.channelId && p[t.id].isDM == t.isDM
      && p[t.id].sessionId == state.sessionId && p[t.id].state == Some(state)
      && p[t.id].participantLabel == Clean(state.participantLabel) && StoredFor(p[t.id], Clean(state.participantKey))
  {
    var p := Persist(s, t, state, now);
    CleanTwice(state.participantKey);
    StoredForExactly(p[t.id], Clean(state.participantKey));
    LoadRefreshes(p, order, t, state.participantKey, later, t.id);
  }

  // ------------------------------------------------------------------ mutes

  /** `isThreadMutedInBindings`. */
  predicate ThreadMuted(s: Store, t: Thread) {
    var key := ThreadControlKey(t);
    key in s && s[key].kind.ThreadMute? && s[key].mutedAt.Some? && s[key].mutedAt.value != ""
  }

  /** `isParticipantMutedInBindings`. */
  predicate ParticipantMuted(s: Store, t: Thread, participantKey: Option<string>) {
    var p := Clean(participantKey);
    p.Some? &&
    var key := ParticipantControlKey(t, p.value);
    key in s && s[key].kind.ParticipantMute? && s[key].mutedAt.Some? && s[key].mutedAt.value != ""
  }

  lemma ControlKeysDiffer(t: Thread, u: Thread)
    ensures ThreadControlKey(t) == ThreadControlKey(u) <==> t.id == u.id
  {
    assert ThreadControlKey(t)[7..] == t.id && ThreadControlKey(u)[7..] == u.id;
  }

  /** Muting a thread mutes it, unmuting ends that, and no other thread's mute is touched. */
  lemma ThreadMutedExactly(s: Store, t: Thread, muted: bool, now: string, u: Thread)
    requires now != ""
    ensures ThreadMuted(MuteThread(s, t, muted, now), u) <==> if u.id == t.id then muted else ThreadMuted(s, u)
    ensures MuteThread(s, t, muted, now) - {ThreadControlKey(t)} == s - {ThreadControlKey(t)}
  {
    ControlKeysDiffer(t, u);
  }

  /** The same for a participant. A muted participant of a thread is muted in no other thread. */
  lemma ParticipantMutedExactly(s: Store, t: Thread, participantKey: Option<string>, muted: bool, now: string, other: Option<string>)
    requires now != ""
    ensures ParticipantMuted(MuteParticipant(s, t, participantKey, muted, now), t, other) <==>
      if Clean(participantKey).Some? && Clean(other) == Clean(participantKey) then muted
      else ParticipantMuted(s, t, other)
    ensures Clean(participantKey).None? ==> MuteParticipant(s, t, participantKey, muted, now) == s
  {
    var p, q := Clean(participantKey), Clean(other);
    if p.Some? && q.Some? {
      var prefix := "thread:" + t.id + ":participant:";
      assert ParticipantControlKey(t, p.value) == prefix + p.value && ParticipantControlKey(t, q.value) == prefix + q.value;
      assert (prefix + p.value)[|prefix|..] == p.value && (prefix + q.value)[|prefix|..] == q.value;
    }
  }

  /**
   A thread whose id looks like a participant's key shares its record: muting that participant ends
   the mute of that thread.
   */
  lemma ParticipantMuteEndsThreadMute(s: Store, t: Thread, u: Thread, p: string, now: string)
    requires Clean(Some(p)) == Some(p) && u.id == t.id + ":participant:" + p
    ensures !ThreadMuted(MuteParticipant(s, t, Some(p), true, now), u)
  {
    assert ThreadControlKey(u) == ParticipantControlKey(t, p);
  }

  // -------------------------------------------------------------- clearing

  /** After a clear no load gives any thread a session, and everything else is found as before. */
  lemma ClearedForAll(s: Store, order: seq<string>, t: Thread, participantKey: Option<string>, base: ThreadState, now: string)
    requires Enumerates(order, s)
    ensures ClearSessions(s).Keys == s.Keys && Find(ClearSessions(s), order, t) == Find(s, order, t)
    ensures Find(s, order, t).Some? ==>
      var r, before := Load(ClearSessions(s), order, t, participantKey, now), Load(s, order, t, participantKey, now);
      && t.id in r && t.id in before && r[t.id].sessionId.None?
      && Merge(None, r[t.id].state, base).sessionId.None?
      && r[t.id] == before[t.id].(sessionId := None, state := r[t.id].state)
      && (r[t.id].state.Some? <==> before[t.id].state.Some?)
      && (r[t.id].state.Some? ==> r[t.id].state.value == before[t.id].state.value.(sessionId := None))
  {
    FindCleared(s, order, t);
    if Find(s, order, t).Some? {
      var k := Find(s, order, t).value;
      FindFound(s, order, t);
      ClearedRecord(s[k], base);
      hide Find, Clean, Merge, StoredParticipant;
      var r := Load(ClearSessions(s), order, t, participantKey, now);
      assert r[t.id] == WithoutSession(Load(s, order, t, participantKey, now)[t.id]);
      ClearedRecord(Load(s, order, t, participantKey, now)[t.id], base);
    }
  }

  lemma ClearedRecord(b: Binding, base: ThreadState)
    ensures StoredParticipant(WithoutSession(b)) == StoredParticipant(b)
    ensures WithoutSession(b).sessionId.None? && Merge(None, WithoutSession(b).state, base).sessionId.None?
  {}

  lemma {:induction false} FindCleared(s: Store, order: seq<string>, t: Thread)
    ensures Find(ClearSessions(s), order, t) == Find(s, order, t)
    ensures FirstMatch(ClearSessions(s), order, t) == FirstMatch(s, order, t)
    decreases |order|
  {
    if order != [] {
      FindCleared(s, order[1..], t);
    }
  }
}
