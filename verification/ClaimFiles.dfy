/**
 The claim functions of apps/cli/src/connectors/common.ts as methods over the files they change.
 Every file-system call is matched by one step of `ClaimProtocol`, so what a call does here is a
 run of one contender in the concurrent model, during which nobody else moves.
 */
module ClaimFiles {
  import opened Prelude
  import opened ClaimProtocol

  /** A contender that meets a guard owned by `o` may walk past it. */
  predicate Passable(live: map<Pid, Token>, seen: set<Pid>, o: Owner) {
    o.pid !in live || !SameInstance(o.token, StartToken(live, o.pid, o.pid in seen))
  }

  /** The guards of the generation from the position of `g` on. */
  ghost function Ahead(guards: map<GuardPath, Owner>, g: GuardPath): set<GuardPath> {
    set h | h in guards && h.gen == g.gen && |h.chain| >= |g.chain|
  }

  lemma AheadShrinks(guards: map<GuardPath, Owner>, g: GuardPath, o: Owner)
    requires g in guards
    ensures |Ahead(guards, g.(chain := g.chain + [o]))| < |Ahead(guards, g)|
  {
    var next := Ahead(guards, g.(chain := g.chain + [o]));
    assert next <= Ahead(guards, g) - {g};
    SubsetSize(next, Ahead(guards, g) - {g});
  }

  lemma SubsetSize<T>(a: set<T>, b: set<T>)
    requires a <= b
    ensures |a| <= |b|
  {
    assert b == a + (b - a);
  }

  /** The first free guard path on the walk from `g`, `None` when a guard on it cannot be passed. */
  ghost function WalkEnd(live: map<Pid, Token>, seen: set<Pid>, guards: map<GuardPath, Owner>, g: GuardPath)
    : (end: Option<GuardPath>)
    ensures end.Some? ==> end.value !in guards && end.value.gen == g.gen && g.chain <= end.value.chain
    decreases |Ahead(guards, g)|
  {
    if g !in guards then Some(g)
    else if !Passable(live, seen, guards[g]) then None
    else
      AheadShrinks(guards, g, guards[g]);
      WalkEnd(live, seen, guards, g.(chain := g.chain + [guards[g]]))
  }

  /** Where contender `c`, replacing generation `x` alone, would link its guard. */
  ghost function ReplaceEnd(s: Sys, c: ClaimId, x: Content, seen: set<Pid>): Option<GuardPath> {
    if c in s.candidates then None else WalkEnd(s.live, seen, s.guards, GuardPath(x, []))
  }

  ghost function AloneEnd(s: Sys, c: ClaimId, seen: set<Pid>): Option<GuardPath> {
    if s.state.None? || Refused(s.live, s.state.value) then None else ReplaceEnd(s, c, s.state.value, seen)
  }

  /** A contender that runs alone ends with the claim. */
  ghost predicate AloneWins(s: Sys, c: ClaimId, seen: set<Pid>) {
    s.state.None? || AloneEnd(s, c, seen).Some?
  }

  function Without(guards: map<GuardPath, Owner>, paths: seq<GuardPath>): map<GuardPath, Owner> {
    map h | h in guards && h !in paths :: guards[h]
  }

  lemma WithoutNone(guards: map<GuardPath, Owner>, paths: seq<GuardPath>)
    requires paths == []
    ensures Without(guards, paths) == guards
  {}

  lemma WithoutOne(guards: map<GuardPath, Owner>, paths: seq<GuardPath>, path: GuardPath)
    ensures Without(guards, paths) - {path} == Without(guards, paths + [path])
  {}

  lemma WalkedDrop(guards: map<GuardPath, Owner>, g: GuardPath, o: Owner)
    ensures Without(guards[g := o], Walked(g)) == Without(guards, Walked(g))
  {
    assert Walked(g)[|g.chain|] == g;
  }

  lemma AddDrop(m: map<ClaimId, Owner>, c: ClaimId, o: Owner)
    requires c !in m
    ensures m[c := o] - {c} == m
  {}

  /** One step of contender `c` leads from `s` to `t`. */
  ghost predicate Moves(c: ClaimId, s: Sys, t: Sys) {
    exists seen :: Enabled(s, Act(c, seen)) && t == Apply(s, Act(c, seen))
  }

  /** `log` continues `before`, and every state it adds is one step of `c` after the last. */
  ghost predicate Alone(c: ClaimId, before: seq<Sys>, log: seq<Sys>) {
    before != [] && before <= log && forall i :: |before| <= i < |log| ==> Moves(c, log[i - 1], log[i])
  }

  lemma AloneSelf(c: ClaimId, log: seq<Sys>)
    requires log != []
    ensures Alone(c, log, log)
  {}

  lemma AloneThen(c: ClaimId, a: seq<Sys>, b: seq<Sys>, d: seq<Sys>)
    requires Alone(c, a, b) && Alone(c, b, d)
    ensures Alone(c, a, d)
  {
    hide Moves;
  }

  lemma RunNothing(s: Sys)
    ensures Run(s, []) == Some(s)
  {}

  /** What a contender does alone is a run of the protocol. */
  lemma {:induction false} AloneIsRun(c: ClaimId, before: seq<Sys>, log: seq<Sys>) returns (es: seq<Event>)
    requires Alone(c, before, log)
    ensures Run(before[|before| - 1], es) == Some(log[|log| - 1])
    ensures forall e :: e in es ==> e.Act? && e.c == c
    decreases |log|
  {
    hide Run, Enabled, Apply;
    if |log| == |before| {
      RunNothing(before[|before| - 1]);
      es := [];
    } else {
      var n := |log| - 1;
      assert Moves(c, log[n - 1], log[n]);
      var seen :| Enabled(log[n - 1], Act(c, seen)) && log[n] == Apply(log[n - 1], Act(c, seen));
      es := AloneIsRun(c, before, log[..n]);
      RunAppend(before[|before| - 1], es, Act(c, seen));
      es := es + [Act(c, seen)];
    }
  }

  /** The files around one state path. The ghost log holds the protocol states passed through. */
  class StateDirectory {
    var live: map<Pid, Token>
    var state: Option<Content>
    var candidates: map<ClaimId, Owner>
    var guards: map<GuardPath, Owner>
    ghost var sys: Sys
    ghost var log: seq<Sys>

    ghost predicate Valid()
      reads this
    {
      && sys.live == live && sys.state == state
      && sys.candidates == candidates && sys.guards == guards
      && log != [] && log[|log| - 1] == sys
    }

    ghost predicate At(c: ClaimId, pid: Pid, p: Phase)
      reads this
    {
      Alive(sys, c) && sys.procs[c].phase == p && sys.procs[c].pid == pid
    }

    /** Records the step of the protocol that the file-system call beside it performs. */
    ghost method Advance(c: ClaimId, seen: bool)
      requires log != [] && log[|log| - 1] == sys && Enabled(sys, Act(c, seen))
      modifies this`sys, this`log
      ensures sys == Step(old(sys), c, seen)
      ensures log == old(log) + [sys] && Alone(c, old(log), log)
    {
      var next := Apply(sys, Act(c, seen));
      assert Moves(c, sys, next);
      sys := next;
      log := log + [sys];
    }

    /** An exclusive create of the state file: nothing happens where a file exists. */
    method TryCreateState(c: ClaimId, pid: Pid, ghost p: Phase) returns (ok: bool)
      requires Valid() && At(c, pid, p) && (p.Create? || p.Replace?)
      modifies this`state, this`sys, this`log
      ensures Valid() && Alone(c, old(log), log)
      ensures ok == old(state).None?
      ensures state == if ok then Some(Record(c, pid, 0)) else old(state)
      ensures At(c, pid, if p.Replace? then Discard(p.g, true, ok) else if ok then Done(true) else Observe)
    {
      ok := state.None?;
      if ok {
        state := Some(Record(c, pid, 0));
      }
      Advance(c, false);
    }

    method ReadState(c: ClaimId, pid: Pid) returns (x: Option<Content>)
      requires Valid() && At(c, pid, Observe)
      modifies this`sys, this`log
      ensures Valid() && Alone(c, old(log), log)
      ensures x == state
      ensures At(c, pid, if x.Some? then Probe(x.value) else Done(false))
    {
      x := state;
      Advance(c, false);
    }

    /**
     The stale check. A payload that names a running process is respected, whoever wrote it; reading
     the process id of null throws, which is not taken for staleness; all else is stale.
     */
    method IsStale(c: ClaimId, pid: Pid, x: Content) returns (stale: bool)
      requires Valid() && At(c, pid, Probe(x))
      modifies this`sys, this`log
      ensures Valid() && Alone(c, old(log), log)
      ensures x.Record? ==> (stale <==> x.pid !in live)
      ensures x.Foreign? && x.shape.HasPid? ==> (stale <==> x.shape.pid !in live)
      ensures x.Foreign? && x.shape.NoPid? ==> stale
      ensures x.Foreign? && x.shape.NullJson? ==> !stale
      ensures At(c, pid, if stale then Register(x) else Done(false))
    {
      var existingPid: Option<Pid> := None;
      match x {
        case Record(_, recorded, _) =>
          existingPid := Some(recorded);
        case Foreign(_, HasPid(recorded)) =>
          existingPid := Some(recorded);
        case Foreign(_, NoPid) =>
        case Foreign(_, NullJson) =>
          Advance(c, false);
          return false;
      }
      stale := !(existingPid.Some? && existingPid.value in live);
      Advance(c, false);
    }

    method TryWriteCandidate(c: ClaimId, pid: Pid, x: Content, seen: bool) returns (ok: bool)
      requires Valid() && At(c, pid, Register(x))
      modifies this`candidates, this`sys, this`log
      ensures Valid() && Alone(c, old(log), log)
      ensures ok == (c !in old(candidates))
      ensures candidates == if ok then old(candidates)[c := Owner(c, pid, StartToken(live, pid, seen))]
                            else old(candidates)
      ensures At(c, pid, if ok then Link(GuardPath(x, [])) else Done(false))
    {
      ok := c !in candidates;
      if ok {
        candidates := candidates[c := Owner(c, pid, StartToken(live, pid, seen))];
      }
      Advance(c, seen);
    }

    method TryLink(c: ClaimId, pid: Pid, g: GuardPath) returns (ok: bool)
      requires Valid() && At(c, pid, Link(g)) && c in candidates
      modifies this`guards, this`sys, this`log
      ensures Valid() && Alone(c, old(log), log)
      ensures ok == (g !in old(guards))
      ensures guards == if ok then old(guards)[g := candidates[c]] else old(guards)
      ensures At(c, pid, if ok then Verify(g) else ReadGuard(g))
    {
      ok := g !in guards;
      if ok {
        guards := guards[g := candidates[c]];
      }
      Advance(c, false);
    }

    /** Reads the guard in the way and decides whether its owner lets the contender past. */
    method TryPass(c: ClaimId, pid: Pid, g: GuardPath, seen: set<Pid>) returns (next: Option<GuardPath>)
      requires Valid() && At(c, pid, ReadGuard(g)) && g in guards
      modifies this`sys, this`log
      ensures Valid() && Alone(c, old(log), log)
      ensures next.Some? == Passable(live, seen, guards[g])
      ensures next.Some? ==> next.value == g.(chain := g.chain + [guards[g]])
      ensures At(c, pid, if next.Some? then Link(next.value) else Discard(g, false, false))
    {
      hide Alone;
      var o := guards[g];
      Advance(c, false);
      assert At(c, pid, ProbeGuard(g, o));
      ghost var before := log;
      Advance(c, false);
      AloneThen(c, old(log), before, log);
      if o.pid in live {
        assert At(c, pid, CompareToken(g, o));
        before := log;
        Advance(c, o.pid in seen);
        AloneThen(c, old(log), before, log);
        if SameInstance(o.token, StartToken(live, o.pid, o.pid in seen)) {
          return None;
        }
      }
      next := Some(g.(chain := g.chain + [o]));
    }

    method RemoveObserved(c: ClaimId, pid: Pid, ghost g: GuardPath)
      requires Valid() && At(c, pid, Remove(g)) && state.Some?
      modifies this`state, this`sys, this`log
      ensures Valid() && Alone(c, old(log), log)
      ensures state == None && At(c, pid, Replace(g))
    {
      state := None;
      Advance(c, false);
    }

    /** The critical section: check the observed payload, remove it, create the new one. */
    method ReplaceState(c: ClaimId, pid: Pid, g: GuardPath) returns (won: bool)
      requires Valid() && At(c, pid, Verify(g))
      modifies this`state, this`sys, this`log
      ensures Valid() && Alone(c, old(log), log)
      ensures won == (old(state) == Some(g.gen))
      ensures state == if won then Some(Record(c, pid, 0)) else old(state)
      ensures At(c, pid, Discard(g, true, won))
    {
      hide Alone;
      Advance(c, false);
      if state != Some(g.gen) {
        return false;
      }
      assert At(c, pid, Remove(g));
      ghost var before := log;
      RemoveObserved(c, pid, g);
      AloneThen(c, old(log), before, log);
      before := log;
      won := TryCreateState(c, pid, Replace(g));
      AloneThen(c, old(log), before, log);
    }

    method RemoveCandidate(c: ClaimId, pid: Pid, ghost g: GuardPath, ghost acquired: bool, ghost won: bool)
      requires Valid() && At(c, pid, Discard(g, acquired, won))
      modifies this`candidates, this`sys, this`log
      ensures Valid() && Alone(c, old(log), log)
      ensures candidates == old(candidates) - {c}
      ensures At(c, pid, if acquired then Unlink(g, Walked(g), won) else Done(won))
    {
      candidates := candidates - {c};
      Advance(c, false);
    }

    method RemoveGuard(c: ClaimId, pid: Pid, ghost g: GuardPath, path: GuardPath, ghost rest: seq<GuardPath>, ghost won: bool)
      requires Valid() && At(c, pid, Unlink(g, [path] + rest, won))
      modifies this`guards, this`sys, this`log
      ensures Valid() && Alone(c, old(log), log)
      ensures guards == old(guards) - {path}
      ensures At(c, pid, Unlink(g, rest, won))
    {
      assert ([path] + rest)[1..] == rest;
      guards := guards - {path};
      Advance(c, false);
    }

    ghost method Finish(c: ClaimId, pid: Pid, g: GuardPath, won: bool)
      requires Valid() && At(c, pid, Unlink(g, [], won))
      modifies this`sys, this`log
      ensures Valid() && Alone(c, old(log), log)
      ensures At(c, pid, Done(won))
    {
      Advance(c, false);
    }

    method RemoveGuards(c: ClaimId, pid: Pid, ghost g: GuardPath, paths: seq<GuardPath>, ghost won: bool)
      requires Valid() && At(c, pid, Unlink(g, paths, won))
      modifies this`guards, this`sys, this`log
      ensures Valid() && Alone(c, old(log), log)
      ensures guards == Without(old(guards), paths)
      ensures At(c, pid, Done(won))
    {
      hide Alone, Alive, Without;
      AloneSelf(c, log);
      WithoutNone(guards, paths[..0]);
      for i := 0 to |paths|
        invariant Valid() && Alone(c, old(log), log) && At(c, pid, Unlink(g, paths[i..], won))
        invariant guards == Without(old(guards), paths[..i])
      {
        assert paths[i..] == [paths[i]] + paths[i + 1..];
        assert paths[..i + 1] == paths[..i] + [paths[i]];
        ghost var before := log;
        RemoveGuard(c, pid, g, paths[i], paths[i + 1..], won);
        AloneThen(c, old(log), before, log);
        WithoutOne(old(guards), paths[..i], paths[i]);
      }
      assert paths[..|paths|] == paths && paths[|paths|..] == [];
      ghost var before := log;
      Finish(c, pid, g, won);
      AloneThen(c, old(log), before, log);
    }

    /** The walk along the guards of one generation, from the candidate file to a guard of its own. */
    method AcquireGuard(c: ClaimId, pid: Pid, x: Content, seen: set<Pid>)
      returns (g: GuardPath, acquired: bool)
      requires Valid() && At(c, pid, Link(GuardPath(x, []))) && c in candidates
      modifies this`guards, this`sys, this`log
      ensures Valid() && Alone(c, old(log), log)
      ensures WalkEnd(live, seen, old(guards), GuardPath(x, [])) == if acquired then Some(g) else None
      ensures guards == if acquired then old(guards)[g := candidates[c]] else old(guards)
      ensures At(c, pid, if acquired then Verify(g) else Discard(g, false, false))
    {
      hide Alone, Alive, Passable, Ahead;
      g := GuardPath(x, []);
      acquired := TryLink(c, pid, g);
      while !acquired
        invariant Valid() && Alone(c, old(log), log)
        invariant At(c, pid, if acquired then Verify(g) else ReadGuard(g))
        invariant acquired == (g !in old(guards))
        invariant guards == if acquired then old(guards)[g := candidates[c]] else old(guards)
        invariant WalkEnd(live, seen, old(guards), g) == WalkEnd(live, seen, old(guards), GuardPath(x, []))
        decreases |Ahead(old(guards), g)|, !acquired
      {
        ghost var before := log;
        var next := TryPass(c, pid, g, seen);
        AloneThen(c, old(log), before, log);
        if next.None? {
          return;
        }
        AheadShrinks(guards, g, guards[g]);
        g := next.value;
        before := log;
        acquired := TryLink(c, pid, g);
        AloneThen(c, old(log), before, log);
      }
    }

    /** The clean-up that ends every attempt: the candidate file, then the guards it walked. */
    method CleanUp(c: ClaimId, pid: Pid, g: GuardPath, acquired: bool, ghost won: bool)
      requires Valid() && At(c, pid, Discard(g, acquired, won))
      modifies this`candidates, this`guards, this`sys, this`log
      ensures Valid() && Alone(c, old(log), log)
      ensures candidates == old(candidates) - {c}
      ensures guards == if acquired then Without(old(guards), Walked(g)) else old(guards)
      ensures At(c, pid, Done(won))
    {
      hide Alone, Alive;
      RemoveCandidate(c, pid, g, acquired, won);
      if acquired {
        ghost var before := log;
        RemoveGuards(c, pid, g, Walked(g), won);
        AloneThen(c, old(log), before, log);
      }
    }

    /** The guarded part of a replacement: walk, critical section, clean-up. */
    method ReplaceGuarded(c: ClaimId, pid: Pid, x: Content, seen: set<Pid>) returns (won: bool)
      requires Valid() && At(c, pid, Link(GuardPath(x, []))) && c in candidates
      modifies this`state, this`candidates, this`guards, this`sys, this`log
      ensures Valid() && Alone(c, old(log), log)
      ensures At(c, pid, Done(won))
      ensures candidates == old(candidates) - {c}
      ensures var end := WalkEnd(live, seen, old(guards), GuardPath(x, []));
        && won == (end.Some? && old(state) == Some(x))
        && state == (if won then Some(Record(c, pid, 0)) else old(state))
        && guards == (if end.Some? then Without(old(guards), Walked(end.value)) else old(guards))
    {
      hide Alone, Alive, WalkEnd, Without, Walked, Passable;
      var g, acquired := AcquireGuard(c, pid, x, seen);
      won := false;
      if acquired {
        WalkedDrop(old(guards), g, guards[g]);
        ghost var before := log;
        won := ReplaceState(c, pid, g);
        AloneThen(c, old(log), before, log);
      }
      ghost var before := log;
      CleanUp(c, pid, g, acquired, won);
      AloneThen(c, old(log), before, log);
    }

    /**
     `tryReplaceStaleConnectorStateFile`, called by a process that found the state file stale: it
     wins exactly if every guard on its walk lets it past and the file is still the observed one.
     */
    method TryReplaceStale(c: ClaimId, pid: Pid, x: Content, seen: set<Pid>) returns (won: bool)
      requires Valid() && At(c, pid, Register(x))
      modifies this`state, this`candidates, this`guards, this`sys, this`log
      ensures Valid() && Alone(c, old(log), log)
      ensures At(c, pid, Done(won))
      ensures candidates == old(candidates)
      ensures var end := ReplaceEnd(old(sys), c, x, seen);
        && won == (end.Some? && old(state) == Some(x))
        && state == (if won then Some(Record(c, pid, 0)) else old(state))
        && guards == (if end.Some? then Without(old(guards), Walked(end.value)) else old(guards))
    {
      hide Alone, Alive, Passable;
      var created := TryWriteCandidate(c, pid, x, pid in seen);
      if !created {
        return false;
      }
      AddDrop(old(candidates), c, candidates[c]);
      ghost var before := log;
      won := ReplaceGuarded(c, pid, x, seen);
      AloneThen(c, old(log), before, log);
    }

    /**
     `tryClaimConnectorStateFile` without other contenders. It wins exactly if there is no state
     file, or one that is not the value null, names no running process and whose guards can be walked
     past; it leaves no candidate file and removes every guard it walked; when it loses, nothing has
     changed.
     */
    method TryClaim(c: ClaimId, pid: Pid, seen: set<Pid>) returns (won: bool)
      requires Valid() && At(c, pid, Create)
      modifies this`state, this`candidates, this`guards, this`sys, this`log
      ensures Valid() && Alone(c, old(log), log)
      ensures At(c, pid, Done(won))
      ensures won == AloneWins(old(sys), c, seen)
      ensures old(state).Some? ==>
        var x := old(state).value;
        (won <==>
          && (x.Record? ==> x.pid !in live)
          && (x.Foreign? ==> !x.shape.NullJson? && (x.shape.HasPid? ==> x.shape.pid !in live))
          && c !in old(candidates)
          && WalkEnd(live, seen, old(guards), GuardPath(x, [])).Some?)
      ensures state == if won then Some(Record(c, pid, 0)) else old(state)
      ensures candidates == old(candidates)
      ensures guards == if AloneEnd(old(sys), c, seen).Some?
                        then Without(old(guards), Walked(AloneEnd(old(sys), c, seen).value))
                        else old(guards)
    {
      hide Alone, Alive, Walked, Without, WalkEnd;
      won := TryCreateState(c, pid, Create);
      if won {
        return;
      }
      ghost var before := log;
      var x := ReadState(c, pid);
      AloneThen(c, old(log), before, log);
      if x.None? {
        return false;
      }
      before := log;
      var stale := IsStale(c, pid, x.value);
      AloneThen(c, old(log), before, log);
      if !stale {
        return false;
      }
      before := log;
      won := TryReplaceStale(c, pid, x.value, seen);
      AloneThen(c, old(log), before, log);
    }
  }

  // --- Progress ------------------------------------------------------------------------------

  /** Every guard of generation `x` can be walked past. */
  ghost predicate AllPassable(s: Sys, x: Content, seen: set<Pid>) {
    forall g :: g in s.guards && g.gen == x ==> Passable(s.live, seen, s.guards[g])
  }

  /** A walk in a generation that lost no guard ends behind its chain, or at an owner it cannot pass. */
  lemma {:induction false} WalkChain(s: Sys, seen: set<Pid>, g: GuardPath)
    requires Inv(s) && g.gen !in s.retired && g.chain <= Chain(s, g.gen)
    ensures var end := WalkEnd(s.live, seen, s.guards, g);
      && (end.Some? ==> end.value == GuardPath(g.gen, Chain(s, g.gen)))
      && (end.Some? <==> forall i :: |g.chain| <= i < |Chain(s, g.gen)| ==> Passable(s.live, seen, Chain(s, g.gen)[i]))
    decreases |Chain(s, g.gen)| - |g.chain|
  {
    var chain := Chain(s, g.gen);
    hide Passable;
    if |g.chain| == |chain| {
      assert g.chain == chain;
    } else {
      assert OnChain(s, g) && s.guards[g] == chain[|g.chain|];
      WalkChain(s, seen, g.(chain := g.chain + [chain[|g.chain|]]));
    }
  }

  /** The owners on the chain of such a generation are the owners of its guards. */
  lemma ChainPassable(s: Sys, seen: set<Pid>, x: Content)
    requires Inv(s) && x !in s.retired
    ensures AllPassable(s, x, seen) <==>
      forall i :: 0 <= i < |Chain(s, x)| ==> Passable(s.live, seen, Chain(s, x)[i])
  {
    var chain := Chain(s, x);
    hide Passable;
    forall i | 0 <= i < |chain| && AllPassable(s, x, seen) ensures Passable(s.live, seen, chain[i]) {
      assert OnChain(s, GuardPath(x, chain[..i]));
      assert s.guards[GuardPath(x, chain[..i])] == chain[i];
    }
    forall g | g in s.guards && g.gen == x ensures OnChain(s, g) && s.guards[g] == chain[|g.chain|] {}
  }

  /** A generation that is in the state file has lost no guard. */
  lemma PresentKeepsGuards(s: Sys)
    requires Inv(s) && s.state.Some?
    ensures s.state.value !in s.retired
  {
    assert s.state.value in s.retired ==> Gone(s, s.state.value);
  }

  /** A guard of a dead owner can be passed unless its process id runs again, unrecognised. */
  lemma DeadOwnerPassable(s: Sys, seen: set<Pid>, g: GuardPath)
    requires Inv(s) && g in s.guards && Dead(s, s.guards[g].claim)
    ensures Passable(s.live, seen, s.guards[g]) <==> !Unrecognised(s, seen, s.guards[g])
  {}

  /** The owner's process id runs, and no start token tells whether it is still the owner. */
  predicate Unrecognised(s: Sys, seen: set<Pid>, o: Owner) {
    o.pid in s.live && (o.token.None? || o.pid !in seen)
  }

  /**
   Recovery, in every reachable state with a state file, whoever owns it: a contender that runs
   alone wins exactly if the stale check accepts the file and every guard of it can be passed.
   */
  lemma Recovery(s0: Sys, es: seq<Event>, s: Sys, c: ClaimId, seen: set<Pid>)
    requires Init(s0) && Run(s0, es) == Some(s)
    requires Alive(s, c) && s.procs[c].phase == Create && s.state.Some?
    ensures AloneWins(s, c, seen) <==>
      !Refused(s.live, s.state.value) && AllPassable(s, s.state.value, seen)
  {
    InitInv(s0);
    RunInv(s0, es);
    assert GoodContender(s, c);
    PresentKeepsGuards(s);
    hide Inv, Passable, AllPassable;
    WalkChain(s, seen, GuardPath(s.state.value, []));
    ChainPassable(s, seen, s.state.value);
  }

  /**
   The same with both checks written out. Whoever wrote the payload, a running process it names is
   respected, the value null is refused for good, and a guard is passed exactly if its owner's
   process id does not run, or runs with a start token that is known and differs.
   */
  lemma RecoveryByPayload(s0: Sys, es: seq<Event>, s: Sys, c: ClaimId, seen: set<Pid>)
    requires Init(s0) && Run(s0, es) == Some(s)
    requires Alive(s, c) && s.procs[c].phase == Create
    ensures s.state.None? ==> AloneWins(s, c, seen)
    ensures s.state.Some? ==>
      var x := s.state.value;
      (AloneWins(s, c, seen) <==>
        && (x.Record? ==> x.pid !in s.live)
        && (x.Foreign? ==> !x.shape.NullJson? && (x.shape.HasPid? ==> x.shape.pid !in s.live))
        && forall g :: g in s.guards && g.gen == x ==>
             var o := s.guards[g];
             o.pid !in s.live || (o.token.Some? && o.pid in seen && o.token.value != s.live[o.pid]))
  {
    if s.state.Some? {
      Recovery(s0, es, s, c, seen);
    }
  }

  /**
   Crash recovery: when all owners are dead, it fails exactly if the recorded process id runs again,
   or the process id of some guard owner does and is not recognised as another instance.
   */
  lemma CrashRecovery(s0: Sys, es: seq<Event>, s: Sys, c: ClaimId, seen: set<Pid>)
    requires Init(s0) && Run(s0, es) == Some(s)
    requires Alive(s, c) && s.procs[c].phase == Create
    requires s.state.Some? && Ownerless(s, s.state.value)
    requires forall g :: g in s.guards && g.gen == s.state.value ==> Dead(s, s.guards[g].claim)
    ensures s.state.value.Record? ==> (Refused(s.live, s.state.value) <==> s.state.value.pid in s.live)
    ensures AloneWins(s, c, seen) <==>
      && !Refused(s.live, s.state.value)
      && forall g :: g in s.guards && g.gen == s.state.value ==> !Unrecognised(s, seen, s.guards[g])
  {
    Recovery(s0, es, s, c, seen);
    InitInv(s0);
    RunInv(s0, es);
    forall g | g in s.guards && g.gen == s.state.value
      ensures Passable(s.live, seen, s.guards[g]) <==> !Unrecognised(s, seen, s.guards[g])
    {
      DeadOwnerPassable(s, seen, g);
    }
    hide Inv, Passable, Unrecognised;
  }

  /** A contender that replaces the file alone leaves no guard of the generation it replaced. */
  lemma NoGuardLeft(s0: Sys, es: seq<Event>, s: Sys, c: ClaimId, seen: set<Pid>)
    requires Init(s0) && Run(s0, es) == Some(s)
    requires s.state.Some? && AloneEnd(s, c, seen).Some?
    ensures forall g :: g in Without(s.guards, Walked(AloneEnd(s, c, seen).value)) ==> g.gen != s.state.value
  {
    InitInv(s0);
    RunInv(s0, es);
    PresentKeepsGuards(s);
    var x := s.state.value;
    WalkChain(s, seen, GuardPath(x, []));
    var end := AloneEnd(s, c, seen).value;
    assert end == GuardPath(x, Chain(s, x));
    forall g | g in s.guards && g.gen == x ensures g in Walked(end) {
      assert OnChain(s, g);
      assert Walked(end)[|g.chain|] == g;
    }
  }

  lemma Extend(s0: Sys, es: seq<Event>, s: Sys, e: Event) returns (es': seq<Event>, s': Sys)
    requires Run(s0, es) == Some(s) && Enabled(s, e)
    ensures s' == Apply(s, e) && Run(s0, es') == Some(s')
  {
    RunAppend(s0, es, e);
    es', s' := es + [e], Apply(s, e);
  }

  /**
   The stale check compares process ids only: a process that is given the id of the dead owner
   cannot take over from it, not even when that process is the contender itself.
   */
  lemma ReusedPidBlocks() returns (es: seq<Event>, s: Sys)
    ensures exists s0 :: Init(s0) && Run(s0, es) == Some(s)
    ensures s.state == Some(Record(0, 1, 0)) && Dead(s, 0)
    ensures Alive(s, 1) && s.procs[1].phase == Create && s.guards == map[]
    ensures forall seen :: !AloneWins(s, 1, seen)
  {
    var s0 := Sys(map[], {}, None, map[], map[], map[], {}, {}, map[]);
    es, s := Extend(s0, [], s0, Boot(1, 10));
    es, s := Extend(s0, es, s, Begin(0, 1));
    es, s := Extend(s0, es, s, Act(0, true));
    es, s := Extend(s0, es, s, Die(1));
    es, s := Extend(s0, es, s, Boot(1, 11));
    es, s := Extend(s0, es, s, Begin(1, 1));
    assert Init(s0);
  }

  lemma ClaimBegun() returns (s0: Sys, es: seq<Event>, s: Sys)
    ensures Init(s0) && Run(s0, es) == Some(s)
    ensures var x := Foreign(0, NoPid);
      s == Sys(map[1 := 10], {(1, 10)}, Some(x), map[], map[], map[0 := Contender(1, 10, Create)], {x}, {}, map[])
  {
    var x := Foreign(0, NoPid);
    s0 := Sys(map[], {}, Some(x), map[], map[], map[], {x}, {}, map[]);
    hide Run;
    RunNothing(s0);
    es, s := Extend(s0, [], s0, Boot(1, 10));
    es, s := Extend(s0, es, s, Begin(0, 1));
  }

  /** A process finds a file that names no process, and is about to write its candidate. */
  lemma StaleFileFound() returns (s0: Sys, es: seq<Event>, s: Sys)
    ensures Init(s0) && Run(s0, es) == Some(s)
    ensures var x := Foreign(0, NoPid);
      s == Sys(map[1 := 10], {(1, 10)}, Some(x), map[], map[], map[0 := Contender(1, 10, Register(x))], {x}, {}, map[])
  {
    s0, es, s := ClaimBegun();
    hide Run;
    es, s := Extend(s0, es, s, Act(0, false));
    es, s := Extend(s0, es, s, Act(0, false));
    es, s := Extend(s0, es, s, Act(0, false));
  }

  /** It stops in the guarded part, having failed to learn its own start token. */
  lemma GuardLeftBehind() returns (s0: Sys, es: seq<Event>, s: Sys)
    ensures Init(s0) && Run(s0, es) == Some(s)
    ensures var x := Foreign(0, NoPid); var g := GuardPath(x, []);
      && s.state == Some(x) && s.guards == map[g := Owner(0, 1, None)]
      && s.procs == map[0 := Contender(1, 10, Verify(g))]
      && s.live == map[] && s.past == {(1, 10)}
  {
    s0, es, s := StaleFileFound();
    hide Run;
    es, s := Extend(s0, es, s, Act(0, false));
    es, s := Extend(s0, es, s, Act(0, false));
    es, s := Extend(s0, es, s, Die(1));
  }

  /**
   A guard blocks too: its owner is dead, the file names no process, yet no contender can take over
   while the guard owner's process id belongs to somebody else.
   */
  lemma ReusedGuardPidBlocks() returns (s0: Sys, es: seq<Event>, s: Sys)
    ensures Init(s0) && Run(s0, es) == Some(s)
    ensures s.state == Some(Foreign(0, NoPid)) && !Refused(s.live, s.state.value)
    ensures forall g :: g in s.guards ==> Dead(s, s.guards[g].claim)
    ensures Alive(s, 1) && s.procs[1].phase == Create && forall seen :: !AloneWins(s, 1, seen)
  {
    s0, es, s := GuardLeftBehind();
    hide Run;
    es, s := Extend(s0, es, s, Boot(1, 11));
    es, s := Extend(s0, es, s, Boot(2, 20));
    es, s := Extend(s0, es, s, Begin(1, 2));
    forall seen ensures !AloneWins(s, 1, seen) {
      var g := GuardPath(Foreign(0, NoPid), []);
      assert g in s.guards && !Passable(s.live, seen, s.guards[g]);
      Recovery(s0, es, s, 1, seen);
    }
  }
}
