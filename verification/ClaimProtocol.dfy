/**
 The claim protocol of apps/cli/src/connectors/common.ts as a state machine: any number of
 contenders, each file-system call one atomic step, a crash possible before every step.

 Assumptions built into the model.
 - A create with its write, and a rewrite by the owner, are each one step.
 - Claim ids are unique: `Begin` takes an unused one.
 - Both SHA-256 digests are injective, so a guard path is the term it is computed from: the
   observed payload and the guard payloads walked before it.
 - A process id is live in exactly one instance (`live`), a pair of process id and start token
   never comes back (`past`). `isRunning` is exact; `getStartToken` may fail (`seen`).
 - Removing an existing file succeeds, and only the protocol or the live owner changes the
   state file.
 */
module ClaimProtocol {
  import opened Prelude

  type Pid = nat
  type Token = nat
  type ClaimId = nat

  /** What the JSON of a payload not written by this protocol offers to the stale check. */
  datatype Shape = NoPid | HasPid(pid: Pid) | NullJson

  /** A payload of the state file. `rev` tells rewrites by the same owner apart. */
  datatype Content =
    | Record(claim: ClaimId, pid: Pid, rev: nat)
    | Foreign(body: nat, shape: Shape)

  /** The payload of a candidate file and of every guard linked from it. */
  datatype Owner = Owner(claim: ClaimId, pid: Pid, token: Option<Token>)

  datatype GuardPath = GuardPath(gen: Content, chain: seq<Owner>)

  /** Where a contender is: each constructor names the call it makes next. */
  datatype Phase =
    | Create
    | Observe
    | Probe(x: Content)
    | Register(x: Content)
    | Link(g: GuardPath)
    | ReadGuard(g: GuardPath)
    | ProbeGuard(g: GuardPath, o: Owner)
    | CompareToken(g: GuardPath, o: Owner)
    | Verify(g: GuardPath)
    | Remove(g: GuardPath)
    | Replace(g: GuardPath)
    | Discard(g: GuardPath, acquired: bool, won: bool)
    | Unlink(g: GuardPath, todo: seq<GuardPath>, won: bool)
    | Done(won: bool)
    | Released

  datatype Contender = Contender(pid: Pid, token: Token, phase: Phase)

  /**
   The whole system. The last three fields are history: every payload the state file ever held,
   the generations that lost a guard file, and the guard owners in the order they linked.
   */
  datatype Sys = Sys(
    live: map<Pid, Token>,
    past: set<(Pid, Token)>,
    state: Option<Content>,
    candidates: map<ClaimId, Owner>,
    guards: map<GuardPath, Owner>,
    procs: map<ClaimId, Contender>,
    written: set<Content>,
    retired: set<Content>,
    linked: map<Content, seq<Owner>>)

  datatype Event =
    | Boot(pid: Pid, token: Token)
    | Die(pid: Pid)
    | Begin(c: ClaimId, pid: Pid)
    | Act(c: ClaimId, seen: bool)
    | Rewrite(c: ClaimId, rev: nat)
    | Release(c: ClaimId)

  predicate Alive(s: Sys, c: ClaimId) {
    c in s.procs && s.procs[c].pid in s.live && s.live[s.procs[c].pid] == s.procs[c].token
  }

  function Chain(s: Sys, x: Content): seq<Owner> {
    if x in s.linked then s.linked[x] else []
  }

  /** The verdict of the stale check on an observed payload: true means the claim is refused. */
  predicate Refused(live: map<Pid, Token>, x: Content) {
    match x
    case Record(_, pid, _) => pid in live
    case Foreign(_, HasPid(pid)) => pid in live
    case Foreign(_, NoPid) => false
    case Foreign(_, NullJson) => true
  }

  /** The start token a probe of `pid` reports, `None` when it fails or nothing runs there. */
  function StartToken(live: map<Pid, Token>, pid: Pid, seen: bool): Option<Token> {
    if seen && pid in live then Some(live[pid]) else None
  }

  predicate SameInstance(stored: Option<Token>, running: Option<Token>) {
    stored.None? || running.None? || stored == running
  }

  /** Every guard path a walk that ends at `g` has visited, first to last. */
  function Walked(g: GuardPath): (w: seq<GuardPath>)
    ensures |w| == |g.chain| + 1
  {
    seq(|g.chain| + 1, i requires 0 <= i <= |g.chain| => GuardPath(g.gen, g.chain[..i]))
  }

  function Goto(s: Sys, c: ClaimId, phase: Phase): Sys
    requires c in s.procs
  {
    s.(procs := s.procs[c := s.procs[c].(phase := phase)])
  }

  function WriteState(s: Sys, x: Content): Sys {
    s.(state := Some(x), written := s.written + {x})
  }

  function LinkGuard(s: Sys, g: GuardPath, o: Owner): Sys {
    s.(guards := s.guards[g := o], linked := s.linked[g.gen := Chain(s, g.gen) + [o]])
  }

  function DropGuard(s: Sys, g: GuardPath): Sys {
    if g in s.guards then s.(guards := s.guards - {g}, retired := s.retired + {g.gen}) else s
  }

  /** One step of contender `c`, in the order of the calls in the source. */
  function Step(s: Sys, c: ClaimId, seen: bool): Sys
    requires c in s.procs
  {
    var me := s.procs[c];
    match me.phase
    case Create =>
      if s.state.None?
      then Goto(WriteState(s, Record(c, me.pid, 0)), c, Done(true))
      else Goto(s, c, Observe)
    case Observe =>
      if s.state.None? then Goto(s, c, Done(false)) else Goto(s, c, Probe(s.state.value))
    case Probe(x) =>
      Goto(s, c, if Refused(s.live, x) then Done(false) else Register(x))
    case Register(x) =>
      if c in s.candidates then Goto(s, c, Done(false)) else
      var o := Owner(c, me.pid, StartToken(s.live, me.pid, seen));
      Goto(s.(candidates := s.candidates[c := o]), c, Link(GuardPath(x, [])))
    case Link(g) =>
      if c !in s.candidates then Goto(s, c, Discard(g, false, false))
      else if g in s.guards then Goto(s, c, ReadGuard(g))
      else Goto(LinkGuard(s, g, s.candidates[c]), c, Verify(g))
    case ReadGuard(g) =>
      if g in s.guards
      then Goto(s, c, ProbeGuard(g, s.guards[g]))
      else Goto(s, c, Discard(g, false, false))
    case ProbeGuard(g, o) =>
      Goto(s, c, if o.pid in s.live then CompareToken(g, o) else Link(g.(chain := g.chain + [o])))
    case CompareToken(g, o) =>
      Goto(s, c, if SameInstance(o.token, StartToken(s.live, o.pid, seen))
                 then Discard(g, false, false)
                 else Link(g.(chain := g.chain + [o])))
    case Verify(g) =>
      Goto(s, c, if s.state == Some(g.gen) then Remove(g) else Discard(g, true, false))
    case Remove(g) =>
      if s.state.None?
      then Goto(s, c, Discard(g, true, false))
      else Goto(s.(state := None), c, Replace(g))
    case Replace(g) =>
      if s.state.None?
      then Goto(WriteState(s, Record(c, me.pid, 0)), c, Discard(g, true, true))
      else Goto(s, c, Discard(g, true, false))
    case Discard(g, acquired, won) =>
      Goto(s.(candidates := s.candidates - {c}), c,
           if acquired then Unlink(g, Walked(g), won) else Done(won))
    case Unlink(g, todo, won) =>
      if todo == [] then Goto(s, c, Done(won))
      else Goto(DropGuard(s, todo[0]), c, Unlink(g, todo[1..], won))
    case Done(_) => s
    case Released => s
  }

  predicate Enabled(s: Sys, e: Event) {
    match e
    case Boot(pid, token) => pid !in s.live && (pid, token) !in s.past
    case Die(pid) => pid in s.live
    case Begin(c, pid) => c !in s.procs && pid in s.live
    case Act(c, _) => Alive(s, c) && !s.procs[c].phase.Done? && !s.procs[c].phase.Released?
    case Rewrite(c, _) => Alive(s, c) && s.procs[c].phase == Done(true)
    case Release(c) => Alive(s, c) && s.procs[c].phase == Done(true)
  }

  function Apply(s: Sys, e: Event): Sys
    requires Enabled(s, e)
  {
    match e
    case Boot(pid, token) => s.(live := s.live[pid := token], past := s.past + {(pid, token)})
    case Die(pid) => s.(live := s.live - {pid})
    case Begin(c, pid) => s.(procs := s.procs[c := Contender(pid, s.live[pid], Create)])
    case Act(c, seen) => Step(s, c, seen)
    case Rewrite(c, rev) => WriteState(s, Record(c, s.procs[c].pid, rev))
    case Release(c) => Goto(s.(state := None), c, Released)
  }

  /** The state after a run, `None` when some event is not possible where it stands. */
  function Run(s: Sys, es: seq<Event>): Option<Sys>
    decreases |es|
  {
    if es == [] then Some(s)
    else if Enabled(s, es[0]) then Run(Apply(s, es[0]), es[1..])
    else None
  }

  /** Before the first claim: no process, and any file this protocol did not write. */
  predicate Init(s: Sys) {
    && (s.state.Some? ==> s.state.value.Foreign?)
    && s == Sys(map[], {}, s.state, map[], map[], map[],
                if s.state.Some? then {s.state.value} else {}, {}, map[])
  }

  // --- Invariant -----------------------------------------------------------------------------

  /** The phases in which the contender's payload has been written to the state file. */
  predicate Wrote(p: Phase) {
    p == Done(true) || p.Released? || (p.Discard? && p.won) || (p.Unlink? && p.won)
  }

  /** A claim counts as held from the create that succeeded until the owner removes the file. */
  predicate Holds(s: Sys, c: ClaimId) {
    c in s.procs && Wrote(s.procs[c].phase) && !s.procs[c].phase.Released?
  }

  /** The guard a contender has linked and not yet started to give back. */
  function Held(p: Phase): Option<GuardPath> {
    match p
    case Verify(g) => Some(g)
    case Remove(g) => Some(g)
    case Replace(g) => Some(g)
    case Discard(g, acquired, _) => if acquired then Some(g) else None
    case Unlink(g, _, _) => Some(g)
    case _ => None
  }

  /** The guard path a contender is walking to. */
  function Walking(p: Phase): Option<GuardPath> {
    match p
    case Link(g) => Some(g)
    case ReadGuard(g) => Some(g)
    case ProbeGuard(g, _) => Some(g)
    case CompareToken(g, _) => Some(g)
    case _ => None
  }

  /** The generation a contender set out to replace, once the stale check let it through. */
  function Target(p: Phase): Option<Content> {
    match p
    case Register(x) => Some(x)
    case Discard(g, _, _) => Some(g.gen)
    case _ =>
      if Walking(p).Some? then Some(Walking(p).value.gen)
      else if Held(p).Some? then Some(Held(p).value.gen)
      else None
  }

  predicate Dead(s: Sys, c: ClaimId) {
    c in s.procs && !Alive(s, c)
  }

  predicate Ownerless(s: Sys, x: Content) {
    x.Record? ==> Dead(s, x.claim)
  }

  /** `x` was in the state file, is no longer, and nobody is left who could write it again. */
  predicate Gone(s: Sys, x: Content) {
    x in s.written && Ownerless(s, x) && s.state != Some(x)
  }

  predicate OwnerOf(s: Sys, o: Owner) {
    && o.claim in s.procs
    && o.pid == s.procs[o.claim].pid
    && (o.token.Some? ==> o.token.value == s.procs[o.claim].token)
  }

  ghost predicate AllDead(s: Sys, chain: seq<Owner>) {
    forall i :: 0 <= i < |chain| ==> Dead(s, chain[i].claim)
  }

  predicate OnChain(s: Sys, g: GuardPath) {
    g.chain < Chain(s, g.gen)
  }

  ghost predicate GoodWalk(s: Sys, p: Phase) {
    match p
    case Link(g) => g.chain <= Chain(s, g.gen) && AllDead(s, g.chain)
    case ReadGuard(g) => OnChain(s, g) && AllDead(s, g.chain)
    case ProbeGuard(g, o) => OnChain(s, g) && AllDead(s, g.chain) && o == Chain(s, g.gen)[|g.chain|]
    case CompareToken(g, o) => OnChain(s, g) && AllDead(s, g.chain) && o == Chain(s, g.gen)[|g.chain|]
    case _ => true
  }

  ghost predicate GoodContender(s: Sys, c: ClaimId)
    requires c in s.procs
  {
    var p := s.procs[c].phase;
    && (s.procs[c].pid, s.procs[c].token) in s.past
    && (p.Probe? ==> p.x in s.written)
    && (Target(p).Some? ==> Target(p).value in s.written && Ownerless(s, Target(p).value))
    && ((p.ProbeGuard? || p.CompareToken?) ==> OwnerOf(s, p.o))
    && (Walking(p).Some? && Walking(p).value.gen !in s.retired ==> GoodWalk(s, p))
    && (Held(p).Some? && Held(p).value.gen !in s.retired ==>
          OnChain(s, Held(p).value)
          && Chain(s, Held(p).value.gen)[|Held(p).value.chain|].claim == c)
    && (p.Replace? || (p.Discard? && p.acquired) || p.Unlink? ==> s.state != Some(p.g.gen))
    && (p.Discard? && !p.acquired ==> !p.won)
    && (p.Unlink? ==> forall i :: 0 <= i < |p.todo| ==> p.todo[i].gen == p.g.gen)
    && (p.Remove? && Alive(s, c) ==> s.state == Some(p.g.gen))
    && (Holds(s, c) && Alive(s, c) ==>
          s.state.Some? && s.state.value.Record? && s.state.value.claim == c)
    && ((c in s.candidates) <==> (Walking(p).Some? || p.Verify? || p.Remove? || p.Replace? || p.Discard?))
    && (c in s.candidates ==> s.candidates[c].claim == c && OwnerOf(s, s.candidates[c]))
  }

  /** The guard files of a generation that lost none are exactly the positions of its chain. */
  ghost predicate GoodGuards(s: Sys) {
    && (forall g :: g in s.guards ==> OwnerOf(s, s.guards[g]))
    && (forall g: GuardPath :: g.gen !in s.retired ==> (g in s.guards <==> OnChain(s, g)))
    && (forall g :: g in s.guards && g.gen !in s.retired ==> s.guards[g] == Chain(s, g.gen)[|g.chain|])
  }

  /** Every owner on a chain except the last is dead. */
  ghost predicate GoodChain(s: Sys, x: Content) {
    forall i :: 0 <= i < |Chain(s, x)| ==>
      Chain(s, x)[i].claim in s.procs && (i < |Chain(s, x)| - 1 ==> Dead(s, Chain(s, x)[i].claim))
  }

  /** The state file, the candidates and the process table agree with the contenders. */
  ghost predicate GoodFiles(s: Sys) {
    && (forall p :: p in s.live ==> (p, s.live[p]) in s.past)
    && (s.state.Some? ==> s.state.value in s.written)
    && (forall x :: x in s.written && x.Record? ==>
          x.claim in s.procs && x.pid == s.procs[x.claim].pid && Wrote(s.procs[x.claim].phase))
    && (forall c :: c in s.candidates ==> c in s.procs)
  }

  /** The chains and the lost generations are still as the invariant wants them. */
  ghost predicate GoodHistory(s: Sys) {
    && (forall x {:trigger GoodChain(s, x)} :: x !in s.retired ==> GoodChain(s, x))
    && (forall x {:trigger Gone(s, x)} :: x in s.retired ==> Gone(s, x))
  }

  ghost predicate Inv(s: Sys) {
    && GoodFiles(s)
    && GoodGuards(s)
    && GoodHistory(s)
    && (forall c {:trigger GoodContender(s, c)} :: c in s.procs ==> GoodContender(s, c))
  }

  lemma InitInv(s: Sys)
    requires Init(s)
    ensures Inv(s)
  {}

  // --- Preservation --------------------------------------------------------------------------

  /** At most one live contender holds a guard of a generation that lost none. */
  lemma OneGuardHolder(s: Sys, c: ClaimId, d: ClaimId)
    requires Inv(s) && Alive(s, c) && Alive(s, d)
    requires Held(s.procs[c].phase).Some? && Held(s.procs[d].phase).Some?
    requires Held(s.procs[c].phase).value.gen == Held(s.procs[d].phase).value.gen
    requires Held(s.procs[c].phase).value.gen !in s.retired
    ensures c == d
  {
    var x := Held(s.procs[c].phase).value.gen;
    assert GoodContender(s, c) && GoodContender(s, d) && GoodChain(s, x);
  }

  /** Dead instances stay dead and contenders keep their identity. */
  ghost predicate SameLives(s: Sys, s': Sys) {
    && s.past <= s'.past
    && (forall c :: c in s.procs ==>
          c in s'.procs && s'.procs[c].pid == s.procs[c].pid && s'.procs[c].token == s.procs[c].token)
    && (forall c :: Dead(s, c) ==> Dead(s', c))
  }

  /** What every event leaves standing. */
  ghost predicate Extends(s: Sys, s': Sys) {
    && SameLives(s, s')
    && s.written <= s'.written && s.retired <= s'.retired
    && (forall x :: Chain(s, x) <= Chain(s', x))
    && (forall x :: x in s.written && Ownerless(s, x) && s'.state == Some(x) ==> s.state == Some(x))
  }

  /** The state file is as it was, or contender `d` neither holds it nor is about to remove it. */
  predicate StateKept(s: Sys, s': Sys, d: ClaimId)
    requires d in s.procs
  {
    s'.state == s.state || !Alive(s, d) || !(Holds(s, d) || s.procs[d].phase.Remove?)
  }

  /** Nothing that contender `d` relies on for itself has changed. */
  predicate Untouched(s: Sys, s': Sys, d: ClaimId) {
    && d in s.procs && d in s'.procs && s'.procs[d] == s.procs[d] && StateKept(s, s', d)
    && (d in s'.candidates <==> d in s.candidates)
    && (d in s.candidates ==> s'.candidates[d] == s.candidates[d])
  }

  ghost predicate OthersKept(s: Sys, s': Sys, c: ClaimId) {
    forall d :: d in s'.procs && d != c ==> Untouched(s, s', d)
  }

  lemma KeepContender(s: Sys, s': Sys, d: ClaimId)
    requires d in s.procs && GoodContender(s, d) && Extends(s, s') && Untouched(s, s', d)
    ensures GoodContender(s', d)
  {
    assert Dead(s, d) ==> Dead(s', d);
  }

  /** An event keeps the invariant if it keeps what is shared and what its mover relies on. */
  lemma KeepShared(s: Sys, s': Sys, c: ClaimId)
    requires Inv(s) && Extends(s, s') && OthersKept(s, s', c)
    requires c in s'.procs ==> GoodContender(s', c)
    requires GoodFiles(s') && GoodGuards(s') && GoodHistory(s')
    ensures Inv(s')
  {
    forall d | d in s'.procs && d != c ensures GoodContender(s', d) {
      assert GoodContender(s, d);
      KeepContender(s, s', d);
    }
  }

  /** Events that leave the guards alone keep the invariant if they keep it for their mover. */
  lemma KeepInv(s: Sys, s': Sys, c: ClaimId)
    requires Inv(s) && Extends(s, s') && OthersKept(s, s', c) && GoodFiles(s')
    requires c in s'.procs ==> GoodContender(s', c)
    requires s'.guards == s.guards && s'.linked == s.linked && s'.retired == s.retired
    ensures Inv(s')
  {
    forall x | x !in s'.retired ensures GoodChain(s', x) {
      assert GoodChain(s, x);
    }
    forall x | x in s'.retired ensures Gone(s', x) {
      assert Gone(s, x);
    }
    KeepShared(s, s', c);
  }

  /** A step that only moves its contender to another phase. */
  lemma MoveInv(s: Sys, c: ClaimId, p: Phase)
    requires Inv(s) && c in s.procs && GoodContender(Goto(s, c, p), c)
    requires Wrote(p) == Wrote(s.procs[c].phase)
    ensures Inv(Goto(s, c, p))
  {
    hide GoodContender, GoodGuards, GoodHistory;
    KeepInv(s, Goto(s, c, p), c);
  }

  lemma BootInv(s: Sys, pid: Pid, token: Token)
    requires Inv(s) && pid !in s.live && (pid, token) !in s.past
    ensures Inv(s.(live := s.live[pid := token], past := s.past + {(pid, token)}))
  {
    var s' := s.(live := s.live[pid := token], past := s.past + {(pid, token)});
    forall c | Dead(s, c) ensures Dead(s', c) {
      assert GoodContender(s, c);
    }
    if 0 in s.procs {
      assert GoodContender(s, 0);
      KeepContender(s, s', 0);
    }
    KeepInv(s, s', 0);
  }

  lemma DieInv(s: Sys, pid: Pid)
    requires Inv(s)
    ensures Inv(s.(live := s.live - {pid}))
  {
    var s' := s.(live := s.live - {pid});
    if 0 in s.procs {
      assert GoodContender(s, 0);
      KeepContender(s, s', 0);
    }
    KeepInv(s, s', 0);
  }

  lemma BeginInv(s: Sys, c: ClaimId, pid: Pid)
    requires Inv(s) && c !in s.procs && pid in s.live
    ensures Inv(s.(procs := s.procs[c := Contender(pid, s.live[pid], Create)]))
  {
    var s' := s.(procs := s.procs[c := Contender(pid, s.live[pid], Create)]);
    assert GoodContender(s', c);
    KeepInv(s, s', c);
  }

  /** A change of the state file by its live owner touches nobody else. */
  lemma OwnerAlone(s: Sys, s': Sys, c: ClaimId)
    requires Inv(s) && Alive(s, c) && Holds(s, c)
    ensures forall d :: d in s.procs && d != c ==> StateKept(s, s', d)
  {
    assert GoodContender(s, c);
    forall d | d in s.procs && d != c ensures StateKept(s, s', d) {
      assert GoodContender(s, d);
    }
  }

  lemma RewriteInv(s: Sys, c: ClaimId, rev: nat)
    requires Inv(s) && Alive(s, c) && s.procs[c].phase == Done(true)
    ensures Inv(WriteState(s, Record(c, s.procs[c].pid, rev)))
  {
    var s' := WriteState(s, Record(c, s.procs[c].pid, rev));
    assert GoodContender(s, c);
    OwnerAlone(s, s', c);
    KeepInv(s, s', c);
  }

  lemma ReleaseInv(s: Sys, c: ClaimId)
    requires Inv(s) && Alive(s, c) && s.procs[c].phase == Done(true)
    ensures Inv(Goto(s.(state := None), c, Released))
  {
    var s' := Goto(s.(state := None), c, Released);
    assert GoodContender(s, c);
    OwnerAlone(s, s', c);
    KeepInv(s, s', c);
  }

  /** An exclusive create succeeds only where no file is, so no claim is touched by it. */
  lemma FirstWriteInv(s: Sys, c: ClaimId, p: Phase)
    requires Inv(s) && c in s.procs && s.state.None? && !Wrote(s.procs[c].phase) && Wrote(p)
    requires GoodContender(Goto(WriteState(s, Record(c, s.procs[c].pid, 0)), c, p), c)
    ensures Inv(Goto(WriteState(s, Record(c, s.procs[c].pid, 0)), c, p))
  {
    var s' := Goto(WriteState(s, Record(c, s.procs[c].pid, 0)), c, p);
    forall d | d in s.procs && d != c ensures StateKept(s, s', d) {
      assert GoodContender(s, d);
    }
    KeepInv(s, s', c);
  }

  lemma CreateInv(s: Sys, c: ClaimId)
    requires Inv(s) && c in s.procs && s.procs[c].phase == Create && s.state.None?
    ensures Inv(Goto(WriteState(s, Record(c, s.procs[c].pid, 0)), c, Done(true)))
  {
    assert GoodContender(s, c);
    FirstWriteInv(s, c, Done(true));
  }

  lemma ReplaceInv(s: Sys, c: ClaimId, g: GuardPath)
    requires Inv(s) && c in s.procs && s.procs[c].phase == Replace(g) && s.state.None?
    ensures Inv(Goto(WriteState(s, Record(c, s.procs[c].pid, 0)), c, Discard(g, true, true)))
  {
    assert GoodContender(s, c);
    FirstWriteInv(s, c, Discard(g, true, true));
  }

  /** The state after contender `c` wrote its candidate file. */
  function Registered(s: Sys, c: ClaimId, x: Content, o: Owner): Sys
    requires c in s.procs
  {
    Goto(s.(candidates := s.candidates[c := o]), c, Link(GuardPath(x, [])))
  }

  lemma RegisterSelf(s: Sys, c: ClaimId, x: Content, o: Owner)
    requires c in s.procs && s.procs[c].phase == Register(x) && GoodContender(s, c)
    requires o.claim == c && OwnerOf(s, o)
    ensures c !in s.candidates && GoodContender(Registered(s, c, x, o), c)
  {}

  lemma RegisterInv(s: Sys, c: ClaimId, x: Content, o: Owner)
    requires Inv(s) && c in s.procs && s.procs[c].phase == Register(x)
    requires o.claim == c && OwnerOf(s, o)
    ensures c !in s.candidates && Inv(Registered(s, c, x, o))
  {
    assert GoodContender(s, c);
    RegisterSelf(s, c, x, o);
    KeepInv(s, Registered(s, c, x, o), c);
  }

  lemma LinkChain(s: Sys, g: GuardPath, o: Owner, x: Content)
    ensures Chain(LinkGuard(s, g, o), x) == Chain(s, x) + if x == g.gen then [o] else []
  {}

  lemma LinkGuards(s: Sys, g: GuardPath, o: Owner)
    requires GoodGuards(s) && OwnerOf(s, o) && g !in s.guards
    requires g.gen !in s.retired ==> g.chain == Chain(s, g.gen)
    ensures GoodGuards(LinkGuard(s, g, o))
  {
    var t := LinkGuard(s, g, o);
    forall h: GuardPath | h.gen !in s.retired
      ensures h in t.guards <==> OnChain(t, h)
      ensures h in t.guards ==> t.guards[h] == Chain(t, h.gen)[|h.chain|]
    {
      LinkChain(s, g, o, h.gen);
      if h.gen == g.gen && |h.chain| == |g.chain| && OnChain(t, h) {
        assert h.chain == g.chain;
      }
    }
  }

  /** The state after contender `c` linked its candidate at `g`. */
  function Linked(s: Sys, c: ClaimId, g: GuardPath): Sys
    requires c in s.procs && c in s.candidates
  {
    Goto(LinkGuard(s, g, s.candidates[c]), c, Verify(g))
  }

  lemma LinkExtends(s: Sys, c: ClaimId, g: GuardPath)
    requires c in s.procs && c in s.candidates
    ensures Extends(s, Linked(s, c, g))
  {
    forall x ensures Chain(s, x) <= Chain(Linked(s, c, g), x) {
      LinkChain(s, g, s.candidates[c], x);
    }
  }

  lemma LinkSelf(s: Sys, c: ClaimId, g: GuardPath)
    requires c in s.procs && s.procs[c].phase == Link(g) && GoodContender(s, c) && c in s.candidates
    requires g.gen !in s.retired ==> Chain(s, g.gen) == g.chain
    ensures GoodContender(Linked(s, c, g), c)
  {
    LinkChain(s, g, s.candidates[c], g.gen);
  }

  lemma LinkChains(s: Sys, c: ClaimId, g: GuardPath, x: Content)
    requires c in s.procs && c in s.candidates && OwnerOf(s, s.candidates[c]) && GoodChain(s, x)
    requires x == g.gen ==> Chain(s, x) == g.chain && AllDead(s, g.chain)
    ensures GoodChain(Linked(s, c, g), x)
  {
    LinkChain(s, g, s.candidates[c], x);
    assert forall d :: Dead(s, d) ==> Dead(Linked(s, c, g), d);
  }

  lemma LinkHistory(s: Sys, c: ClaimId, g: GuardPath)
    requires GoodHistory(s) && c in s.procs && c in s.candidates && OwnerOf(s, s.candidates[c])
    requires g.gen !in s.retired ==> Chain(s, g.gen) == g.chain && AllDead(s, g.chain)
    ensures GoodHistory(Linked(s, c, g))
  {
    forall x | x !in s.retired ensures GoodChain(Linked(s, c, g), x) {
      assert GoodChain(s, x);
      LinkChains(s, c, g, x);
    }
    forall x | x in s.retired ensures Gone(Linked(s, c, g), x) {
      assert Gone(s, x);
    }
  }

  lemma LinkFacts(s: Sys, c: ClaimId, g: GuardPath)
    requires Inv(s) && c in s.procs && s.procs[c].phase == Link(g) && g !in s.guards
    ensures c in s.candidates && OwnerOf(s, s.candidates[c]) && GoodContender(s, c)
    ensures g.gen !in s.retired ==> Chain(s, g.gen) == g.chain && AllDead(s, g.chain)
    ensures GoodFiles(Linked(s, c, g)) && OthersKept(s, Linked(s, c, g), c)
  {
    assert GoodContender(s, c);
  }

  lemma LinkInv(s: Sys, c: ClaimId, g: GuardPath)
    requires Inv(s) && c in s.procs && s.procs[c].phase == Link(g) && g !in s.guards
    ensures c in s.candidates && Inv(Linked(s, c, g))
  {
    LinkFacts(s, c, g);
    hide GoodContender, GoodFiles, OthersKept, Extends, Linked;
    LinkExtends(s, c, g);
    LinkGuards(s, g, s.candidates[c]);
    LinkSelf(s, c, g);
    LinkHistory(s, c, g);
    LinkedGuards(s, c, g);
    KeepShared(s, Linked(s, c, g), c);
  }

  lemma LinkedGuards(s: Sys, c: ClaimId, g: GuardPath)
    requires c in s.procs && c in s.candidates && GoodGuards(LinkGuard(s, g, s.candidates[c]))
    ensures GoodGuards(Linked(s, c, g))
  {}

  lemma RemoveOthers(s: Sys, s': Sys, c: ClaimId, g: GuardPath)
    requires Inv(s) && Alive(s, c) && s.procs[c].phase == Remove(g) && s.state == Some(g.gen)
    ensures forall d :: d in s.procs && d != c ==> StateKept(s, s', d)
  {
    assert GoodContender(s, c);
    assert g.gen in s.retired ==> Gone(s, g.gen);
    forall d | d in s.procs && d != c ensures StateKept(s, s', d) {
      assert GoodContender(s, d);
      if Alive(s, d) && s.procs[d].phase.Remove? {
        OneGuardHolder(s, c, d);
      }
    }
  }

  lemma RemoveSelf(s: Sys, c: ClaimId, g: GuardPath)
    requires Inv(s) && Alive(s, c) && s.procs[c].phase == Remove(g)
    ensures s.state == Some(g.gen)
    ensures var s' := Goto(s.(state := None), c, Replace(g));
            Extends(s, s') && GoodFiles(s') && GoodContender(s', c)
  {
    var s' := Goto(s.(state := None), c, Replace(g));
    assert GoodContender(s, c);
    assert Extends(s, s') && GoodFiles(s') by {
      hide GoodContender, GoodGuards, GoodHistory;
    }
    hide Inv, GoodGuards, GoodHistory, GoodFiles, Extends;
  }

  lemma RemoveInv(s: Sys, c: ClaimId, g: GuardPath)
    requires Inv(s) && Alive(s, c) && s.procs[c].phase == Remove(g)
    ensures s.state == Some(g.gen)
    ensures Inv(Goto(s.(state := None), c, Replace(g)))
  {
    var s' := Goto(s.(state := None), c, Replace(g));
    hide Inv, GoodContender, GoodFiles, Extends;
    RemoveSelf(s, c, g);
    RemoveOthers(s, s', c, g);
    KeepInv(s, s', c);
  }

  lemma DiscardInv(s: Sys, c: ClaimId, p: Phase)
    requires Inv(s) && c in s.procs && s.procs[c].phase.Discard? && Wrote(p) == Wrote(s.procs[c].phase)
    requires GoodContender(Goto(s.(candidates := s.candidates - {c}), c, p), c)
    ensures Inv(Goto(s.(candidates := s.candidates - {c}), c, p))
  {
    var s' := Goto(s.(candidates := s.candidates - {c}), c, p);
    assert Extends(s, s');
    KeepInv(s, s', c);
  }

  lemma GiveUpInv(s: Sys, c: ClaimId, g: GuardPath, won: bool)
    requires Inv(s) && c in s.procs && s.procs[c].phase == Discard(g, false, won)
    ensures Inv(Goto(s.(candidates := s.candidates - {c}), c, Done(won)))
  {
    assert GoodContender(s, c);
    DiscardInv(s, c, Done(false));
  }

  lemma CleanUpInv(s: Sys, c: ClaimId, g: GuardPath, won: bool)
    requires Inv(s) && c in s.procs && s.procs[c].phase == Discard(g, true, won)
    ensures Inv(Goto(s.(candidates := s.candidates - {c}), c, Unlink(g, Walked(g), won)))
  {
    assert GoodContender(s, c);
    DiscardInv(s, c, Unlink(g, Walked(g), won));
  }

  /** The state after contender `c` removed the first guard it still has to give back. */
  function Unlinked(s: Sys, c: ClaimId, g: GuardPath, todo: seq<GuardPath>, won: bool): Sys
    requires c in s.procs && todo != []
  {
    Goto(DropGuard(s, todo[0]), c, Unlink(g, todo[1..], won))
  }

  lemma UnlinkSelf(s: Sys, c: ClaimId, g: GuardPath, todo: seq<GuardPath>, won: bool)
    requires c in s.procs && s.procs[c].phase == Unlink(g, todo, won) && todo != []
    requires GoodContender(s, c)
    ensures GoodContender(Unlinked(s, c, g, todo, won), c)
  {}

  lemma UnlinkExtends(s: Sys, c: ClaimId, g: GuardPath, todo: seq<GuardPath>, won: bool)
    requires c in s.procs && todo != []
    ensures Extends(s, Unlinked(s, c, g, todo, won)) && OthersKept(s, Unlinked(s, c, g, todo, won), c)
  {}

  lemma UnlinkFiles(s: Sys, c: ClaimId, g: GuardPath, todo: seq<GuardPath>, won: bool)
    requires GoodFiles(s) && c in s.procs && s.procs[c].phase == Unlink(g, todo, won) && todo != []
    ensures GoodFiles(Unlinked(s, c, g, todo, won))
  {}

  lemma UnlinkHistory(s: Sys, c: ClaimId, g: GuardPath, todo: seq<GuardPath>, won: bool)
    requires GoodHistory(s) && GoodGuards(s) && c in s.procs && todo != []
    requires Gone(s, todo[0].gen)
    ensures GoodHistory(Unlinked(s, c, g, todo, won)) && GoodGuards(Unlinked(s, c, g, todo, won))
  {
    var s' := Unlinked(s, c, g, todo, won);
    UnlinkExtends(s, c, g, todo, won);
    forall x | x !in s'.retired ensures GoodChain(s', x) {
      assert GoodChain(s, x) && Chain(s', x) == Chain(s, x);
    }
    forall x | x in s'.retired ensures Gone(s', x) {
      assert x in s.retired ==> Gone(s, x);
    }
  }

  lemma UnlinkInv(s: Sys, c: ClaimId, g: GuardPath, todo: seq<GuardPath>, won: bool)
    requires Inv(s) && c in s.procs && s.procs[c].phase == Unlink(g, todo, won) && todo != []
    ensures Inv(Unlinked(s, c, g, todo, won))
  {
    assert GoodContender(s, c);
    assert Gone(s, todo[0].gen);
    UnlinkSelf(s, c, g, todo, won);
    UnlinkExtends(s, c, g, todo, won);
    UnlinkFiles(s, c, g, todo, won);
    UnlinkHistory(s, c, g, todo, won);
    KeepShared(s, Unlinked(s, c, g, todo, won), c);
  }

  lemma ReadInv(s: Sys, c: ClaimId, g: GuardPath)
    requires Inv(s) && c in s.procs && s.procs[c].phase == ReadGuard(g) && g in s.guards
    ensures Inv(Goto(s, c, ProbeGuard(g, s.guards[g])))
  {
    assert GoodContender(s, c);
    MoveInv(s, c, ProbeGuard(g, s.guards[g]));
  }

  /** A contender may give up its walk wherever it stands. */
  lemma RefuseInv(s: Sys, c: ClaimId, g: GuardPath)
    requires Inv(s) && c in s.procs && Walking(s.procs[c].phase) == Some(g)
    ensures Inv(Goto(s, c, Discard(g, false, false)))
  {
    assert GoodContender(s, c);
    MoveInv(s, c, Discard(g, false, false));
  }

  /** A contender passes a guard once it knows the owner is dead. */
  lemma PassInv(s: Sys, c: ClaimId, g: GuardPath, o: Owner)
    requires Inv(s) && c in s.procs && Dead(s, o.claim)
    requires s.procs[c].phase == ProbeGuard(g, o) || s.procs[c].phase == CompareToken(g, o)
    ensures Inv(Goto(s, c, Link(g.(chain := g.chain + [o]))))
  {
    assert GoodContender(s, c);
    MoveInv(s, c, Link(g.(chain := g.chain + [o])));
  }

  lemma ProbeGuardInv(s: Sys, c: ClaimId, g: GuardPath, o: Owner)
    requires Inv(s) && c in s.procs && s.procs[c].phase == ProbeGuard(g, o)
    ensures OwnerOf(s, o) && Inv(Goto(s, c, CompareToken(g, o)))
  {
    assert GoodContender(s, c);
    MoveInv(s, c, CompareToken(g, o));
  }

  lemma VerifyInv(s: Sys, c: ClaimId, g: GuardPath)
    requires Inv(s) && c in s.procs && s.procs[c].phase == Verify(g)
    ensures Inv(Goto(s, c, if s.state == Some(g.gen) then Remove(g) else Discard(g, true, false)))
  {
    assert GoodContender(s, c);
    MoveInv(s, c, if s.state == Some(g.gen) then Remove(g) else Discard(g, true, false));
  }

  lemma LinkReady(s: Sys, c: ClaimId, g: GuardPath)
    requires Inv(s) && c in s.procs && s.procs[c].phase == Link(g)
    ensures c in s.candidates
    ensures g in s.guards ==> GoodContender(Goto(s, c, ReadGuard(g)), c)
  {
    assert GoodContender(s, c);
  }

  lemma CompareOwner(s: Sys, c: ClaimId, g: GuardPath, o: Owner)
    requires Inv(s) && c in s.procs && s.procs[c].phase == CompareToken(g, o)
    ensures OwnerOf(s, o)
  {
    assert GoodContender(s, c);
  }

  lemma LostInv(s: Sys, c: ClaimId, g: GuardPath)
    requires Inv(s) && c in s.procs && s.procs[c].phase == Replace(g)
    ensures Inv(Goto(s, c, Discard(g, true, false)))
  {
    assert GoodContender(s, c);
    MoveInv(s, c, Discard(g, true, false));
  }

  lemma FinishInv(s: Sys, c: ClaimId, g: GuardPath, won: bool)
    requires Inv(s) && c in s.procs && s.procs[c].phase == Unlink(g, [], won)
    ensures Inv(Goto(s, c, Done(won)))
  {
    assert GoodContender(s, c);
    MoveInv(s, c, Done(won));
  }

  // --- Every step ----------------------------------------------------------------------------

  lemma ObserveInv(s: Sys, c: ClaimId)
    requires Inv(s) && c in s.procs && s.procs[c].phase == Observe
    ensures Inv(Goto(s, c, if s.state.None? then Done(false) else Probe(s.state.value)))
  {
    assert GoodContender(s, c);
    MoveInv(s, c, if s.state.None? then Done(false) else Probe(s.state.value));
  }

  lemma ProbeInv(s: Sys, c: ClaimId, x: Content)
    requires Inv(s) && c in s.procs && s.procs[c].phase == Probe(x)
    ensures Inv(Goto(s, c, if Refused(s.live, x) then Done(false) else Register(x)))
  {
    assert GoodContender(s, c);
    MoveInv(s, c, if Refused(s.live, x) then Done(false) else Register(x));
  }

  lemma BusyInv(s: Sys, c: ClaimId)
    requires Inv(s) && c in s.procs && s.procs[c].phase == Create
    ensures Inv(Goto(s, c, Observe))
  {
    assert GoodContender(s, c);
    MoveInv(s, c, Observe);
  }

  lemma ClaimStepInv(s: Sys, c: ClaimId, seen: bool)
    requires Inv(s) && Enabled(s, Act(c, seen))
    requires var p := s.procs[c].phase; p.Create? || p.Observe? || p.Probe? || p.Register?
    ensures Inv(Step(s, c, seen))
  {
    hide Inv;
    match s.procs[c].phase
    case Create =>
      if s.state.None? { CreateInv(s, c); } else { BusyInv(s, c); }
    case Observe =>
      ObserveInv(s, c);
    case Probe(x) =>
      ProbeInv(s, c, x);
    case Register(x) =>
      RegisterInv(s, c, x, Owner(c, s.procs[c].pid, StartToken(s.live, s.procs[c].pid, seen)));
  }

  lemma WalkStepInv(s: Sys, c: ClaimId, seen: bool)
    requires Inv(s) && Enabled(s, Act(c, seen)) && Walking(s.procs[c].phase).Some?
    ensures Inv(Step(s, c, seen))
  {
    hide Inv;
    match s.procs[c].phase
    case Link(g) =>
      LinkReady(s, c, g);
      if g in s.guards { MoveInv(s, c, ReadGuard(g)); } else { LinkInv(s, c, g); }
    case ReadGuard(g) =>
      if g in s.guards { ReadInv(s, c, g); } else { RefuseInv(s, c, g); }
    case ProbeGuard(g, o) =>
      ProbeGuardInv(s, c, g, o);
      if o.pid !in s.live { PassInv(s, c, g, o); }
    case CompareToken(g, o) =>
      CompareOwner(s, c, g, o);
      if SameInstance(o.token, StartToken(s.live, o.pid, seen)) {
        RefuseInv(s, c, g);
      } else {
        PassInv(s, c, g, o);
      }
  }

  lemma GuardStepInv(s: Sys, c: ClaimId, seen: bool)
    requires Inv(s) && Enabled(s, Act(c, seen))
    requires var p := s.procs[c].phase; p.Verify? || p.Remove? || p.Replace? || p.Discard? || p.Unlink?
    ensures Inv(Step(s, c, seen))
  {
    hide Inv;
    match s.procs[c].phase
    case Verify(g) =>
      VerifyInv(s, c, g);
    case Remove(g) =>
      RemoveInv(s, c, g);
    case Replace(g) =>
      if s.state.None? { ReplaceInv(s, c, g); } else { LostInv(s, c, g); }
    case Discard(g, acquired, won) =>
      if acquired { CleanUpInv(s, c, g, won); } else { GiveUpInv(s, c, g, won); }
    case Unlink(g, todo, won) =>
      if todo == [] { FinishInv(s, c, g, won); } else { UnlinkInv(s, c, g, todo, won); }
  }

  /** Every event keeps the invariant. */
  lemma EventInv(s: Sys, e: Event)
    requires Inv(s) && Enabled(s, e)
    ensures Inv(Apply(s, e))
  {
    hide Inv, Step;
    match e
    case Boot(pid, token) => BootInv(s, pid, token);
    case Die(pid) => DieInv(s, pid);
    case Begin(c, pid) => BeginInv(s, c, pid);
    case Rewrite(c, rev) => RewriteInv(s, c, rev);
    case Release(c) => ReleaseInv(s, c);
    case Act(c, seen) =>
      var p := s.procs[c].phase;
      if p.Create? || p.Observe? || p.Probe? || p.Register? {
        ClaimStepInv(s, c, seen);
      } else if Walking(p).Some? {
        WalkStepInv(s, c, seen);
      } else {
        GuardStepInv(s, c, seen);
      }
  }

  lemma {:induction false} RunInv(s: Sys, es: seq<Event>)
    requires Inv(s) && Run(s, es).Some?
    ensures Inv(Run(s, es).value)
    decreases |es|
  {
    if es != [] {
      EventInv(s, es[0]);
      RunInv(Apply(s, es[0]), es[1..]);
    }
  }

  lemma {:induction false} RunAppend(s: Sys, es: seq<Event>, e: Event)
    requires Run(s, es).Some? && Enabled(Run(s, es).value, e)
    ensures Run(s, es + [e]) == Some(Apply(Run(s, es).value, e))
    decreases |es|
  {
    if es == [] {
      assert ([] + [e])[1..] == [];
    } else {
      RunAppend(Apply(s, es[0]), es[1..], e);
      assert (es + [e])[1..] == es[1..] + [e];
    }
  }
}
