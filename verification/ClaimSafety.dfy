/**
 What the claim protocol of apps/cli/src/connectors/common.ts guarantees over whole runs: claims are
 exclusive and last, and a generation that has lost a guard never comes back.
 */
module ClaimSafety {
  import opened Prelude
  import opened ClaimProtocol

  /**
   Safety: after any run, a live process whose claim succeeded and that has not removed the file
   finds its own payload there, and no second live process can be in that position.
   */
  lemma ExclusiveClaim(s0: Sys, es: seq<Event>, s: Sys, c: ClaimId, d: ClaimId)
    requires Init(s0) && Run(s0, es) == Some(s)
    requires Holds(s, c) && Alive(s, c)
    ensures s.state.Some? && s.state.value.Record? && s.state.value.claim == c
    ensures Holds(s, d) && Alive(s, d) ==> d == c
  {
    InitInv(s0);
    RunInv(s0, es);
    assert GoodContender(s, c);
    if Holds(s, d) {
      assert GoodContender(s, d);
    }
  }

  lemma GotoKeepsOthers(s: Sys, t: Sys, c: ClaimId, p: Phase, d: ClaimId)
    requires c in s.procs && d in s.procs && d != c && t.procs == s.procs
    ensures d in Goto(t, c, p).procs && Goto(t, c, p).procs[d] == s.procs[d]
  {}

  lemma FilesLeaveProcs(s: Sys)
    ensures forall g, o :: LinkGuard(s, g, o).procs == s.procs
    ensures forall g :: DropGuard(s, g).procs == s.procs
    ensures forall x :: WriteState(s, x).procs == s.procs
  {}

  lemma StepKeepsOthers(s: Sys, c: ClaimId, seen: bool, d: ClaimId)
    requires c in s.procs && d in s.procs && d != c
    ensures d in Step(s, c, seen).procs && Step(s, c, seen).procs[d] == s.procs[d]
  {
    hide Goto, LinkGuard, DropGuard, WriteState, Refused, StartToken, SameInstance, Walked;
    forall t: Sys, p | t.procs == s.procs ensures d in Goto(t, c, p).procs && Goto(t, c, p).procs[d] == s.procs[d] {
      GotoKeepsOthers(s, t, c, p, d);
    }
    FilesLeaveProcs(s);
  }

  lemma StepKeepsGuards(s: Sys, c: ClaimId, seen: bool)
    requires c in s.procs && !(s.procs[c].phase.Unlink? && s.procs[c].phase.todo != [])
    ensures s.guards.Keys <= Step(s, c, seen).guards.Keys && Step(s, c, seen).retired == s.retired
  {
    match s.procs[c].phase
    case Create =>
    case Register(_) =>
    case Link(_) =>
    case Remove(_) =>
    case Replace(_) =>
    case Discard(_, _, _) =>
    case _ =>
  }

  lemma StepKeepsClaim(s: Sys, c: ClaimId, seen: bool)
    requires Holds(s, c)
    ensures Holds(Step(s, c, seen), c)
  {}

  lemma EventKeepsClaim(s: Sys, e: Event, c: ClaimId)
    requires Enabled(s, e) && Holds(s, c) && e != Release(c)
    ensures Holds(Apply(s, e), c)
  {
    match e
    case Act(d, seen) =>
      if d == c { StepKeepsClaim(s, c, seen); } else { StepKeepsOthers(s, d, seen, c); }
    case _ =>
  }

  /** A claim lasts: only the death of its process or its own removal of the file ends it. */
  lemma {:induction false} ClaimLasts(s0: Sys, before: seq<Event>, s: Sys, es: seq<Event>, t: Sys, c: ClaimId)
    requires Init(s0) && Run(s0, before) == Some(s) && Run(s, es) == Some(t)
    requires Holds(s, c) && Release(c) !in es && Alive(t, c)
    ensures Holds(t, c) && t.state.Some? && t.state.value.Record? && t.state.value.claim == c
    decreases |es|
  {
    if es == [] {
      ExclusiveClaim(s0, before, s, c, c);
    } else {
      EventKeepsClaim(s, es[0], c);
      RunAppend(s0, before, es[0]);
      ClaimLasts(s0, before + [es[0]], Apply(s, es[0]), es[1..], t, c);
    }
  }

  /** The event took a guard file of generation `x` off the disk. */
  ghost predicate RemovesGuard(s: Sys, e: Event, x: Content)
    requires Enabled(s, e)
  {
    exists g: GuardPath :: g.gen == x && g in s.guards && g !in Apply(s, e).guards
  }

  /** Some event of the run took a guard file of generation `x` off the disk. */
  ghost predicate GuardLost(s: Sys, es: seq<Event>, x: Content)
    requires Run(s, es).Some?
    decreases |es|
  {
    es != [] && (RemovesGuard(s, es[0], x) || GuardLost(Apply(s, es[0]), es[1..], x))
  }

  lemma EventRetires(s: Sys, e: Event, x: Content)
    requires Enabled(s, e)
    ensures x in Apply(s, e).retired <==> x in s.retired || RemovesGuard(s, e, x)
  {
    if e.Act? && s.procs[e.c].phase.Unlink? && s.procs[e.c].phase.todo != [] {
      var g := s.procs[e.c].phase.todo[0];
      assert g in s.guards ==> g !in Apply(s, e).guards;
    } else if e.Act? {
      StepKeepsGuards(s, e.c, e.seen);
    }
  }

  lemma {:induction false} RunRetires(s: Sys, es: seq<Event>, x: Content)
    requires Run(s, es).Some?
    ensures x in Run(s, es).value.retired <==> x in s.retired || GuardLost(s, es, x)
    decreases |es|
  {
    if es != [] {
      EventRetires(s, es[0], x);
      RunRetires(Apply(s, es[0]), es[1..], x);
    }
  }

  /**
   Once any guard of a generation has been removed, the state file is never that generation
   again. Until then the guards on disk are one chain, all of whose owners but the last are dead,
   and at most one live process is past the guard.
   */
  lemma GuardSafety(s0: Sys, es: seq<Event>, s: Sys, x: Content, c: ClaimId, d: ClaimId)
    requires Init(s0) && Run(s0, es) == Some(s)
    ensures GuardLost(s0, es, x) ==> s.state != Some(x)
    ensures !GuardLost(s0, es, x) ==>
      && (forall g: GuardPath :: g.gen == x ==> (g in s.guards <==> g.chain < Chain(s, x)))
      && (forall g :: g in s.guards && g.gen == x ==> s.guards[g] == Chain(s, x)[|g.chain|])
      && (forall i :: 0 <= i < |Chain(s, x)| - 1 ==> Dead(s, Chain(s, x)[i].claim))
    ensures !GuardLost(s0, es, x) && PastGuard(s, c, x) && PastGuard(s, d, x) ==> c == d
  {
    InitInv(s0);
    RunInv(s0, es);
    RunRetires(s0, es, x);
    if GuardLost(s0, es, x) {
      assert Gone(s, x);
    } else {
      assert GoodChain(s, x);
      if PastGuard(s, c, x) && PastGuard(s, d, x) {
        OneGuardHolder(s, c, d);
      }
    }
  }

  /** A live contender between linking a guard of `x` and the end of its clean-up. */
  predicate PastGuard(s: Sys, c: ClaimId, x: Content) {
    Alive(s, c) && Held(s.procs[c].phase).Some? && Held(s.procs[c].phase).value.gen == x
  }

  // --- Files that must be left alone -----------------------------------------------------------

  /**
   The file holds `x`, which no contender has set out to replace. It is the value null, or names a
   running process other than a claimant that could still change it.
   */
  ghost predicate Respected(s: Sys, x: Content) {
    && s.state == Some(x)
    && (forall c :: c in s.procs ==> Target(s.procs[c].phase) != Some(x))
    && (match x
        case Record(c, pid, _) => pid in s.live && Dead(s, c)
        case Foreign(_, HasPid(pid)) => pid in s.live
        case Foreign(_, NoPid) => false
        case Foreign(_, NullJson) => true)
  }

  /** The event kills the process that payload `x` names. */
  predicate Kills(e: Event, x: Content) {
    e.Die? && ((x.Record? && e.pid == x.pid) || (x.Foreign? && x.shape.HasPid? && e.pid == x.shape.pid))
  }

  lemma GotoState(t: Sys, c: ClaimId, p: Phase)
    requires c in t.procs
    ensures Goto(t, c, p).state == t.state
  {}

  lemma GuardsLeaveState(s: Sys)
    ensures forall g, o :: LinkGuard(s, g, o).procs == s.procs && LinkGuard(s, g, o).state == s.state
    ensures forall g :: DropGuard(s, g).procs == s.procs && DropGuard(s, g).state == s.state
  {}

  /** Only a removal changes a state file that exists. */
  lemma StateStays(s: Sys, c: ClaimId, seen: bool)
    requires c in s.procs && s.state.Some? && !s.procs[c].phase.Remove?
    ensures Step(s, c, seen).state == s.state
  {
    hide Goto, LinkGuard, DropGuard, WriteState, Refused, StartToken, SameInstance, Walked;
    forall t: Sys, p | t.procs == s.procs ensures Goto(t, c, p).state == t.state {
      GotoState(t, c, p);
    }
    GuardsLeaveState(s);
  }

  lemma GotoSelf(s: Sys, t: Sys, c: ClaimId, p: Phase)
    requires c in s.procs && t.procs == s.procs && t.live == s.live
    ensures Moved(s, Goto(t, c, p), c) && Goto(t, c, p).procs[c].phase == p
  {}

  /** Contender `c` is in both states, the same process; the processes that run are the same. */
  predicate Moved(s: Sys, t: Sys, c: ClaimId) {
    && t.live == s.live && t.procs.Keys == s.procs.Keys && c in s.procs
    && t.procs[c].pid == s.procs[c].pid && t.procs[c].token == s.procs[c].token
  }

  lemma FilesLeaveLives(s: Sys)
    ensures forall g, o :: LinkGuard(s, g, o).procs == s.procs && LinkGuard(s, g, o).live == s.live
    ensures forall g :: DropGuard(s, g).procs == s.procs && DropGuard(s, g).live == s.live
    ensures forall x :: WriteState(s, x).procs == s.procs && WriteState(s, x).live == s.live
  {}

  /** A contender sets out to replace `x` only by the stale check. */
  lemma TargetStays(s: Sys, c: ClaimId, seen: bool, x: Content)
    requires c in s.procs && Target(s.procs[c].phase) != Some(x)
    requires s.procs[c].phase == Probe(x) ==> Refused(s.live, x)
    ensures Moved(s, Step(s, c, seen), c) && Target(Step(s, c, seen).procs[c].phase) != Some(x)
  {
    hide Goto, LinkGuard, DropGuard, WriteState, Refused, StartToken, SameInstance, Walked, Moved;
    forall t: Sys, p | t.procs == s.procs && t.live == s.live
      ensures Moved(s, Goto(t, c, p), c) && c in Goto(t, c, p).procs && Goto(t, c, p).procs[c].phase == p
    {
      GotoSelf(s, t, c, p);
    }
    FilesLeaveLives(s);
    if s.procs[c].phase.Done? || s.procs[c].phase.Released? {
      StaysPut(s, c);
    }
  }

  lemma StaysPut(s: Sys, c: ClaimId)
    requires c in s.procs
    ensures Moved(s, s, c)
  {}

  /** A live contender is not about to remove a respected file. */
  lemma NotRemoving(s: Sys, c: ClaimId, x: Content)
    requires Inv(s) && Respected(s, x) && Alive(s, c)
    ensures !s.procs[c].phase.Remove?
  {
    assert GoodContender(s, c);
  }

  lemma ActRespects(s: Sys, c: ClaimId, seen: bool, x: Content)
    requires Inv(s) && Respected(s, x) && Alive(s, c)
    ensures Respected(Step(s, c, seen), x)
  {
    NotRemoving(s, c, x);
    hide Inv, Step, Target;
    StateStays(s, c, seen);
    TargetStays(s, c, seen, x);
    var t := Step(s, c, seen);
    forall d | d in s.procs && d != c ensures d in t.procs && t.procs[d] == s.procs[d] {
      StepKeepsOthers(s, c, seen, d);
    }
  }

  /** The live owner of a claim finds its own payload, so it is not the owner of a respected file. */
  lemma NotHeld(s: Sys, c: ClaimId, x: Content)
    requires Inv(s) && Respected(s, x) && Alive(s, c)
    ensures s.procs[c].phase != Done(true)
  {
    assert GoodContender(s, c);
  }

  lemma BootRespects(s: Sys, pid: Pid, token: Token, x: Content)
    requires Inv(s) && Respected(s, x) && Enabled(s, Boot(pid, token))
    ensures Respected(Apply(s, Boot(pid, token)), x)
  {
    if x.Record? {
      assert GoodContender(s, x.claim);
    }
    hide Inv, Target;
  }

  lemma EventRespects(s: Sys, e: Event, x: Content)
    requires Inv(s) && Respected(s, x) && Enabled(s, e) && !Kills(e, x)
    ensures Respected(Apply(s, e), x)
  {
    hide Inv, Step, Target;
    match e
    case Act(c, seen) => ActRespects(s, c, seen, x);
    case Rewrite(c, _) => NotHeld(s, c, x);
    case Release(c) => NotHeld(s, c, x);
    case Boot(pid, token) => BootRespects(s, pid, token, x);
    case Die(_) =>
    case Begin(_, _) => BeginRespects(s, e, x);
  }

  lemma BeginRespects(s: Sys, e: Event, x: Content)
    requires Inv(s) && Respected(s, x) && Enabled(s, e) && e.Begin?
    ensures Respected(Apply(s, e), x)
  {
    hide Step;
  }

  /**
   A file that names a running process stays as it is in every interleaving while that process runs,
   whoever wrote it and however its owner ended; a file holding null stays for good.
   */
  lemma {:induction false} RespectedFileStays(s0: Sys, before: seq<Event>, s: Sys, es: seq<Event>, t: Sys, x: Content)
    requires Init(s0) && Run(s0, before) == Some(s) && Run(s, es) == Some(t)
    requires Respected(s, x) && forall e :: e in es ==> !Kills(e, x)
    ensures t.state == Some(x)
    decreases |es|
  {
    if es != [] {
      InitInv(s0);
      RunInv(s0, before);
      hide Inv, Respected, Init;
      EventRespects(s, es[0], x);
      RunAppend(s0, before, es[0]);
      RespectedFileStays(s0, before + [es[0]], Apply(s, es[0]), es[1..], t, x);
    }
  }
}
