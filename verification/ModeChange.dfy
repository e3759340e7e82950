/**
 Serialised, coalesced changes between plan and act mode: `applyModeChange` and
 `waitForSubmittedMode` of apps/cli/src/runtime/run-interactive.ts, and the tracker of the
 notice that tells the model about a switch. Requests, submitted messages and the steps of
 all pending changes interleave freely. A change is named by its place in `changes`.
 */
module ModeChange {
  import opened Prelude

  datatype Mode = Plan | Act | Yolo

  datatype Phase =
    | Waiting               // for the promise pending when the change was requested
    | Readying              // in ensureReady
    | Applying              // in applyMode, which has already stored the mode
    | Finishing(ok: bool)   // the finally handler has not run
    | Settled(ok: bool)

  /** `origin` is the mode the change replaced, once it has started. */
  datatype Change = Change(mode: Mode, previous: Option<nat>, phase: Phase, origin: Option<Mode>)

  /** A caller of `applyModeChange` and the change whose promise it was given. */
  datatype Caller = Caller(mode: Mode, change: nat)

  datatype Wait =
    | First(change: nat)    // for the change pending on submission
    | Second(change: nat)   // for the change it requested itself
    | Passed(own: Option<nat>)
    | Rejected

  datatype Submission = Submission(mode: Mode, wait: Wait)

  datatype Notice = Notice(origin: Mode, target: Mode)

  /**
   `log` lists the changes that have started, in order. `told` is the mode the model was last
   told of.
   */
  datatype State = State(
    initial: Mode,
    mode: Mode,
    changes: seq<Change>,
    pending: Option<nat>,
    target: Option<Mode>,
    callers: seq<Caller>,
    submissions: seq<Submission>,
    log: seq<nat>,
    notice: Option<Notice>,
    told: Mode)

  datatype Event =
    | Request(mode: Mode)
    | Resume(n: nat)               // the awaited promise has settled
    | Ready(n: nat, ok: bool)      // ensureReady has settled
    | Applied(n: nat, ok: bool)    // applyMode has settled
    | Finally(n: nat)
    | Submit(mode: Mode)
    | Wake(w: nat)
    | Consume                      // a user message carries the notice

  function Initial(mode: Mode): State {
    State(mode, mode, [], None, None, [], [], [], None, mode)
  }

  predicate Interactive(mode: Mode) {
    mode != Yolo
  }

  predicate Enabled(s: State, e: Event) {
    match e
    case Request(mode) => Interactive(mode)
    case Resume(n) =>
      && n < |s.changes| && s.changes[n].phase.Waiting? && s.changes[n].previous.Some?
      && s.changes[n].previous.value < |s.changes| && s.changes[s.changes[n].previous.value].phase.Settled?
    case Ready(n, _) => n < |s.changes| && s.changes[n].phase.Readying?
    case Applied(n, _) => n < |s.changes| && s.changes[n].phase.Applying? && s.changes[n].origin.Some?
    case Finally(n) => n < |s.changes| && s.changes[n].phase.Finishing?
    case Submit(mode) => Interactive(mode)
    case Wake(w) =>
      && w < |s.submissions| && (s.submissions[w].wait.First? || s.submissions[w].wait.Second?)
      && Interactive(s.submissions[w].mode)
      && s.submissions[w].wait.change < |s.changes| && s.changes[s.submissions[w].wait.change].phase.Settled?
    case Consume => true
  }

  function SetPhase(s: State, n: nat, phase: Phase): State
    requires n < |s.changes|
  {
    s.(changes := s.changes[n := s.changes[n].(phase := phase)])
  }

  /** The tracker's `record`: a round trip cancels out. */
  function Record(pending: Option<Notice>, origin: Mode, target: Mode): Option<Notice> {
    if origin == target then pending
    else if pending.None? then Some(Notice(origin, target))
    else if pending.value.origin == target then None
    else Some(Notice(pending.value.origin, target))
  }

  function AfterRequest(s: State, mode: Mode): State {
    if s.pending.Some? && s.target == Some(mode) then
      s.(callers := s.callers + [Caller(mode, s.pending.value)])
    else
      var n := |s.changes|;
      var phase := if s.pending.Some? then Waiting else Readying;
      s.(changes := s.changes + [Change(mode, s.pending, phase, None)],
         pending := Some(n), target := Some(mode),
         callers := s.callers + [Caller(mode, n)])
  }

  /** The rest of `waitForSubmittedMode` once nothing is pending any more. */
  function AfterCheck(s: State, w: nat): State
    requires w < |s.submissions|
  {
    var mode := s.submissions[w].mode;
    if s.mode == mode then s.(submissions := s.submissions[w := Submission(mode, Passed(None))])
    else
      var t := AfterRequest(s, mode);
      t.(submissions := s.submissions[w := Submission(mode, Second(t.pending.value))])
  }

  function AfterStart(s: State, n: nat): State
    requires n < |s.changes|
  {
    var c := s.changes[n];
    s.(changes := s.changes[n := c.(phase := Applying, origin := Some(s.mode))],
       mode := c.mode,
       log := s.log + [n])
  }

  function Apply(s: State, e: Event): State
    requires Enabled(s, e)
  {
    match e
    case Request(mode) => AfterRequest(s, mode)
    case Resume(n) =>
      SetPhase(s, n, if s.changes[s.changes[n].previous.value].phase.ok then Readying else Finishing(false))
    case Ready(n, ok) => if ok then AfterStart(s, n) else SetPhase(s, n, Finishing(false))
    case Applied(n, ok) =>
      var c := s.changes[n];
      var t := SetPhase(s, n, Finishing(ok));
      if ok && Interactive(c.origin.value) then t.(notice := Record(s.notice, c.origin.value, c.mode)) else t
    case Finally(n) =>
      var t := SetPhase(s, n, Settled(s.changes[n].phase.ok));
      if s.pending == Some(n) then t.(pending := None, target := None) else t
    case Submit(mode) =>
      if s.pending.Some? then s.(submissions := s.submissions + [Submission(mode, First(s.pending.value))])
      else AfterCheck(s.(submissions := s.submissions + [Submission(mode, Rejected)]), |s.submissions|)
    case Wake(w) =>
      var sub := s.submissions[w];
      if !s.changes[sub.wait.change].phase.ok then s.(submissions := s.submissions[w := sub.(wait := Rejected)])
      else if sub.wait.First? then AfterCheck(s, w)
      else s.(submissions := s.submissions[w := sub.(wait := Passed(Some(sub.wait.change)))])
    case Consume => s.(notice := None, told := if s.notice.Some? then s.notice.value.target else s.told)
  }

  function Run(s: State, es: seq<Event>): Option<State>
    decreases |es|
  {
    if es == [] then Some(s)
    else if Enabled(s, es[0]) then Run(Apply(s, es[0]), es[1..])
    else None
  }

  // ---------------------------------------------------------------- invariant

  predicate Started(cs: seq<Change>, n: int) {
    0 <= n < |cs| && cs[n].origin.Some?
  }

  predicate Pair(cs: seq<Change>, i: int, j: int) {
    0 <= i < j < |cs|
  }

  /** One change: its phase, whether it has started, and what it waits for. */
  predicate GoodChange(cs: seq<Change>, n: int)
    requires 0 <= n < |cs|
  {
    var c := cs[n];
    && (c.phase.Waiting? || c.phase.Readying? ==> c.origin.None?)
    && (c.phase.Applying? ==> c.origin.Some?)
    && ((c.phase.Finishing? || c.phase.Settled?) && c.phase.ok ==> c.origin.Some?)
    && (c.phase.Waiting? ==> c.previous.Some?)
    && Interactive(c.mode)
    && (c.previous.Some? ==> c.previous.value == n - 1 && 1 <= n && cs[n - 1].mode != c.mode)
    && (c.previous.Some? && (c.phase.Readying? || c.origin.Some?) ==> cs[n - 1].phase == Settled(true))
  }

  /** Only the first unsettled change has left the waiting phase. */
  ghost predicate ChainInv(cs: seq<Change>) {
    && (forall n {:trigger GoodChange(cs, n)} :: 0 <= n < |cs| ==> GoodChange(cs, n))
    && (forall i, j :: Pair(cs, i, j) && !cs[j].phase.Waiting? ==> cs[i].phase.Settled?)
  }

  predicate PendingInv(s: State) {
    if s.changes == [] || s.changes[|s.changes| - 1].phase.Settled? then s.pending == None && s.target == None
    else s.pending == Some(|s.changes| - 1) && s.target == Some(s.changes[|s.changes| - 1].mode)
  }

  /** The log holds the started changes, in request order, and ends in the mode in force. */
  ghost predicate LogInv(s: State) {
    && (forall i, j :: 0 <= i < j < |s.log| ==> s.log[i] < s.log[j])
    && (forall k :: 0 <= k < |s.log| ==> Started(s.changes, s.log[k]))
    && (forall n :: Started(s.changes, n) ==> n in s.log)
    && (if s.log == [] then s.mode == s.initial
        else s.log[|s.log| - 1] < |s.changes| && s.mode == s.changes[s.log[|s.log| - 1]].mode)
  }

  predicate GoodCaller(s: State, c: Caller) {
    c.change < |s.changes| && s.changes[c.change].mode == c.mode
  }

  /** A caller holds a change of its own mode; successive callers hold the same or successive ones. */
  ghost predicate CallersInv(s: State) {
    && (forall k :: 0 <= k < |s.callers| ==> GoodCaller(s, s.callers[k]))
    && (s.callers == [] <==> s.changes == [])
    && (s.callers != [] ==> s.callers[0].change == 0 && s.callers[|s.callers| - 1].change == |s.changes| - 1)
    && (forall k :: 0 < k < |s.callers| ==>
          s.callers[k].change == s.callers[k - 1].change || s.callers[k].change == s.callers[k - 1].change + 1)
  }

  predicate GoodSubmission(s: State, sub: Submission) {
    && Interactive(sub.mode)
    && match sub.wait
       case First(n) => n < |s.changes|
       case Second(n) => n < |s.changes| && s.changes[n].mode == sub.mode
       case Passed(Some(n)) => n < |s.changes| && s.changes[n].mode == sub.mode && s.changes[n].phase == Settled(true)
       case _ => true
  }

  ghost predicate SubmissionsInv(s: State) {
    forall w {:trigger s.submissions[w]} :: 0 <= w < |s.submissions| ==> GoodSubmission(s, s.submissions[w])
  }

  ghost predicate Inv(s: State) {
    ChainInv(s.changes) && PendingInv(s) && LogInv(s) && CallersInv(s) && SubmissionsInv(s)
  }

  lemma InitialInv(mode: Mode)
    ensures Inv(Initial(mode))
  {}

  // A change takes its next step.

  lemma ChainUpdate(cs: seq<Change>, n: nat, c: Change)
    requires ChainInv(cs) && n < |cs| && !cs[n].phase.Settled?
    requires forall i :: Pair(cs, i, n) ==> cs[i].phase.Settled?
    requires c.mode == cs[n].mode && c.previous == cs[n].previous && !c.phase.Waiting? && GoodChange(cs[n := c], n)
    ensures ChainInv(cs[n := c])
  {
    var ds := cs[n := c];
    forall i, j | Pair(ds, i, j) && !ds[j].phase.Waiting? ensures ds[i].phase.Settled? {
      assert Pair(cs, i, j);
    }
    forall m | 0 <= m < |ds| ensures GoodChange(ds, m) {
      assert GoodChange(cs, m);
      if m == n + 1 {
        assert Pair(cs, n, m);
      }
    }
  }

  lemma SubmissionsKept(s: State, t: State)
    requires SubmissionsInv(s) && t.submissions == s.submissions && |s.changes| <= |t.changes|
    requires forall n :: 0 <= n < |s.changes| ==> t.changes[n].mode == s.changes[n].mode
    requires forall n :: 0 <= n < |s.changes| && s.changes[n].phase.Settled? ==> t.changes[n] == s.changes[n]
    ensures SubmissionsInv(t)
  {
    forall w | 0 <= w < |t.submissions| ensures GoodSubmission(t, t.submissions[w]) {
      assert GoodSubmission(s, s.submissions[w]);
    }
  }

  /** A step of one change other than its start keeps the rest. */
  lemma StepKeepsRest(s: State, n: nat, c: Change)
    requires LogInv(s) && CallersInv(s) && SubmissionsInv(s)
    requires n < |s.changes| && !s.changes[n].phase.Settled?
    requires c.mode == s.changes[n].mode && c.origin == s.changes[n].origin
    ensures var t := s.(changes := s.changes[n := c]); LogInv(t) && CallersInv(t) && SubmissionsInv(t)
  {
    var t := s.(changes := s.changes[n := c]);
    SubmissionsKept(s, t);
    assert forall m :: Started(t.changes, m) <==> Started(s.changes, m);
    hide SubmissionsInv, Started;
    forall k | 0 <= k < |t.callers| ensures GoodCaller(t, t.callers[k]) {
      assert GoodCaller(s, s.callers[k]);
    }
  }

  lemma PhaseInv(s: State, n: nat, phase: Phase)
    requires Inv(s) && n < |s.changes| && !s.changes[n].phase.Settled? && !phase.Waiting? && !phase.Settled?
    requires forall i :: Pair(s.changes, i, n) ==> s.changes[i].phase.Settled?
    requires GoodChange(SetPhase(s, n, phase).changes, n)
    ensures Inv(SetPhase(s, n, phase))
  {
    var c := s.changes[n].(phase := phase);
    ChainUpdate(s.changes, n, c);
    StepKeepsRest(s, n, c);
    hide ChainInv, GoodChange, LogInv, CallersInv, SubmissionsInv;
  }

  lemma ActiveIsFirst(cs: seq<Change>, n: nat)
    requires ChainInv(cs) && n < |cs| && (!cs[n].phase.Waiting? || (n > 0 && cs[n - 1].phase.Settled?))
    ensures forall i :: Pair(cs, i, n) ==> cs[i].phase.Settled?
  {
    forall i | Pair(cs, i, n) ensures cs[i].phase.Settled? {
      if i < n - 1 {
        assert Pair(cs, i, n - 1);
      }
    }
  }

  lemma ResumeInv(s: State, n: nat)
    requires Inv(s) && Enabled(s, Resume(n))
    ensures Inv(Apply(s, Resume(n)))
  {
    assert GoodChange(s.changes, n) && GoodChange(s.changes, n - 1);
    ActiveIsFirst(s.changes, n);
    PhaseInv(s, n, if s.changes[n - 1].phase.ok then Readying else Finishing(false));
  }

  lemma ReadyInv(s: State, n: nat, ok: bool)
    requires Inv(s) && Enabled(s, Ready(n, ok))
    ensures Inv(Apply(s, Ready(n, ok)))
  {
    assert GoodChange(s.changes, n);
    ActiveIsFirst(s.changes, n);
    if ok {
      StartInv(s, n);
    } else {
      PhaseInv(s, n, Finishing(false));
    }
  }

  lemma StartChain(s: State, n: nat)
    requires Inv(s) && n < |s.changes| && s.changes[n].phase.Readying?
    requires forall i :: Pair(s.changes, i, n) ==> s.changes[i].phase.Settled?
    ensures ChainInv(AfterStart(s, n).changes) && s.changes[n].origin.None?
    ensures forall k :: 0 <= k < |s.log| ==> s.log[k] < n
  {
    assert GoodChange(s.changes, n);
    ChainUpdate(s.changes, n, AfterStart(s, n).changes[n]);
    forall k | 0 <= k < |s.log| ensures s.log[k] < n {
      var m := s.log[k];
      assert Started(s.changes, m) && GoodChange(s.changes, m);
      assert n < m ==> Pair(s.changes, n, m);
    }
  }

  lemma StartInv(s: State, n: nat)
    requires Inv(s) && n < |s.changes| && s.changes[n].phase.Readying?
    requires forall i :: Pair(s.changes, i, n) ==> s.changes[i].phase.Settled?
    ensures Inv(AfterStart(s, n))
  {
    hide ChainInv, GoodChange, GoodSubmission;
    var t := AfterStart(s, n);
    StartChain(s, n);
    forall m | Started(t.changes, m) ensures m in t.log {
      assert m != n ==> Started(s.changes, m);
    }
    SubmissionsKept(s, t);
  }

  /** What the invariant says does not depend on the notice or on who waits for what. */
  lemma SideInv(s: State, notice: Option<Notice>, told: Mode, pending: Option<nat>, target: Option<Mode>)
    requires ChainInv(s.changes) && LogInv(s) && CallersInv(s) && SubmissionsInv(s)
    ensures var t := s.(notice := notice, told := told, pending := pending, target := target);
            ChainInv(t.changes) && LogInv(t) && CallersInv(t) && SubmissionsInv(t)
  {
    var t := s.(notice := notice, told := told, pending := pending, target := target);
    SubmissionsKept(s, t);
    hide ChainInv, SubmissionsInv, Started;
    forall k | 0 <= k < |t.callers| ensures GoodCaller(t, t.callers[k]) {
      assert GoodCaller(s, s.callers[k]);
    }
  }

  /** Neither does all of the invariant. */
  lemma NoticeSideInv(s: State, notice: Option<Notice>, told: Mode)
    requires Inv(s)
    ensures Inv(s.(notice := notice, told := told))
  {
    SideInv(s, notice, told, s.pending, s.target);
    hide ChainInv, LogInv, CallersInv, SubmissionsInv;
  }

  lemma AppliedShape(s: State, n: nat, ok: bool)
    requires Enabled(s, Applied(n, ok))
    ensures var t := Apply(s, Applied(n, ok)); t == SetPhase(s, n, Finishing(ok)).(notice := t.notice, told := t.told)
  {
    hide Record;
  }

  lemma AppliedInv(s: State, n: nat, ok: bool)
    requires Inv(s) && Enabled(s, Applied(n, ok))
    ensures Inv(Apply(s, Applied(n, ok)))
  {
    AppliedChain(s, n, ok);
    hide Inv, Apply;
    PhaseInv(s, n, Finishing(ok));
    AppliedShape(s, n, ok);
    NoticeSideInv(SetPhase(s, n, Finishing(ok)), Apply(s, Applied(n, ok)).notice, Apply(s, Applied(n, ok)).told);
  }

  lemma AppliedChain(s: State, n: nat, ok: bool)
    requires ChainInv(s.changes) && Enabled(s, Applied(n, ok))
    ensures forall i :: Pair(s.changes, i, n) ==> s.changes[i].phase.Settled?
    ensures GoodChange(SetPhase(s, n, Finishing(ok)).changes, n)
  {
    assert GoodChange(s.changes, n);
    ActiveIsFirst(s.changes, n);
  }

  lemma SettleChain(s: State, n: nat)
    requires ChainInv(s.changes) && n < |s.changes| && s.changes[n].phase.Finishing?
    ensures ChainInv(SetPhase(s, n, Settled(s.changes[n].phase.ok)).changes)
    ensures n < |s.changes| - 1 ==> !s.changes[|s.changes| - 1].phase.Settled?
  {
    assert GoodChange(s.changes, n);
    ActiveIsFirst(s.changes, n);
    ChainUpdate(s.changes, n, s.changes[n].(phase := Settled(s.changes[n].phase.ok)));
    assert n < |s.changes| - 1 ==> Pair(s.changes, n, |s.changes| - 1);
  }

  lemma FinallyInv(s: State, n: nat)
    requires Inv(s) && Enabled(s, Finally(n))
    ensures Inv(Apply(s, Finally(n)))
  {
    hide ChainInv, LogInv, CallersInv, SubmissionsInv;
    var c := s.changes[n].(phase := Settled(s.changes[n].phase.ok));
    var t, r := s.(changes := s.changes[n := c]), Apply(s, Finally(n));
    SettleChain(s, n);
    StepKeepsRest(s, n, c);
    SideInv(t, r.notice, r.told, r.pending, r.target);
  }

  // A change is requested.

  lemma RequestInv(s: State, mode: Mode)
    requires Inv(s) && Interactive(mode)
    ensures Inv(AfterRequest(s, mode))
    ensures AfterRequest(s, mode).pending.Some? && AfterRequest(s, mode).target == Some(mode)
  {
    var t := AfterRequest(s, mode);
    CallersGrow(s, mode);
    hide CallersInv;
    if |t.changes| > |s.changes| {
      ChainAppend(s, t.changes[|s.changes|]);
      assert forall n :: Started(t.changes, n) <==> Started(s.changes, n);
    }
    hide ChainInv;
    SubmissionsKept(s, t);
    hide SubmissionsInv;
  }

  lemma CallersGrow(s: State, mode: Mode)
    requires CallersInv(s) && PendingInv(s)
    ensures CallersInv(AfterRequest(s, mode))
  {
    var t := AfterRequest(s, mode);
    forall k | 0 <= k < |t.callers| ensures GoodCaller(t, t.callers[k]) {
      assert k < |s.callers| ==> GoodCaller(s, s.callers[k]);
    }
    hide GoodCaller;
  }

  lemma ChainAppend(s: State, c: Change)
    requires ChainInv(s.changes) && PendingInv(s) && c.previous == s.pending && c.origin.None? && Interactive(c.mode)
    requires c.phase == if s.pending.Some? then Waiting else Readying
    requires s.pending.Some? ==> s.target != Some(c.mode)
    ensures ChainInv(s.changes + [c])
  {
    var cs, ds := s.changes, s.changes + [c];
    forall m | 0 <= m < |ds| ensures GoodChange(ds, m) {
      assert m < |cs| ==> GoodChange(cs, m);
    }
    forall i, j | Pair(ds, i, j) && !ds[j].phase.Waiting? ensures ds[i].phase.Settled? {
      assert j < |cs| ==> Pair(cs, i, j);
      assert i < |cs| - 1 ==> Pair(cs, i, |cs| - 1);
    }
  }

  lemma SubmissionInv(s: State, submissions: seq<Submission>)
    requires Inv(s)
    requires forall w {:trigger submissions[w]} :: 0 <= w < |submissions| ==> GoodSubmission(s, submissions[w])
    ensures Inv(s.(submissions := submissions))
  {
    var t := s.(submissions := submissions);
    assert SubmissionsInv(t) by {
      hide ChainInv, LogInv, CallersInv;
    }
    hide ChainInv, SubmissionsInv, Started, GoodSubmission;
    forall k | 0 <= k < |t.callers| ensures GoodCaller(t, t.callers[k]) {
      assert GoodCaller(s, s.callers[k]);
    }
  }

  lemma CheckInv(s: State, w: nat)
    requires Inv(s) && w < |s.submissions| && Interactive(s.submissions[w].mode)
    ensures Inv(AfterCheck(s, w))
  {
    hide ChainInv, LogInv, GoodCaller;
    var sub := s.submissions[w];
    RequestInv(s, sub.mode);
    if s.mode == sub.mode {
      SubmissionInv(s, s.submissions[w := sub.(wait := Passed(None))]);
    } else {
      var t := AfterRequest(s, sub.mode);
      SubmissionInv(t, s.submissions[w := sub.(wait := Second(t.pending.value))]);
    }
  }

  lemma SubmitInv(s: State, mode: Mode)
    requires Inv(s) && Interactive(mode)
    ensures Inv(Apply(s, Submit(mode)))
  {
    hide ChainInv, LogInv, CallersInv;
    if s.pending.None? {
      SubmissionInv(s, s.submissions + [Submission(mode, Rejected)]);
      CheckInv(s.(submissions := s.submissions + [Submission(mode, Rejected)]), |s.submissions|);
    } else {
      SubmissionInv(s, s.submissions + [Submission(mode, First(s.pending.value))]);
    }
  }

  lemma WakeInv(s: State, w: nat)
    requires Inv(s) && Enabled(s, Wake(w))
    ensures Inv(Apply(s, Wake(w)))
  {
    hide ChainInv, LogInv, CallersInv;
    var sub := s.submissions[w];
    assert GoodSubmission(s, sub);
    if !s.changes[sub.wait.change].phase.ok {
      SubmissionInv(s, s.submissions[w := sub.(wait := Rejected)]);
    } else if sub.wait.First? {
      CheckInv(s, w);
    } else {
      SubmissionInv(s, s.submissions[w := sub.(wait := Passed(Some(sub.wait.change)))]);
    }
  }

  lemma EventInv(s: State, e: Event)
    requires Inv(s) && Enabled(s, e)
    ensures Inv(Apply(s, e))
  {
    if e.Consume? {
      SideInv(s, Apply(s, e).notice, Apply(s, e).told, s.pending, s.target);
    }
    hide ChainInv, LogInv, CallersInv, SubmissionsInv;
    match e
    case Request(mode) => RequestInv(s, mode);
    case Resume(n) => ResumeInv(s, n);
    case Ready(n, ok) => ReadyInv(s, n, ok);
    case Applied(n, ok) => AppliedInv(s, n, ok);
    case Finally(n) => FinallyInv(s, n);
    case Submit(mode) => SubmitInv(s, mode);
    case Wake(w) => WakeInv(s, w);
    case Consume =>
  }

  lemma {:induction false} RunInv(s: State, es: seq<Event>)
    requires Inv(s) && Run(s, es).Some?
    ensures Inv(Run(s, es).value)
    decreases |es|
  {
    if es != [] {
      EventInv(s, es[0]);
      RunInv(Apply(s, es[0]), es[1..]);
    }
  }

  // ------------------------------------------------------------- main results

  predicate Active(s: State, n: int) {
    0 <= n < |s.changes| && (s.changes[n].phase.Readying? || s.changes[n].phase.Applying?)
  }

  /** At most one change is in progress, and every change requested before it has settled. */
  lemma OneAtATime(mode: Mode, es: seq<Event>, s: State, n: nat)
    requires Run(Initial(mode), es) == Some(s) && Active(s, n)
    ensures forall i :: 0 <= i < n ==> s.changes[i].phase.Settled?
    ensures forall i :: Active(s, i) ==> i == n
  {
    InitialInv(mode);
    RunInv(Initial(mode), es);
    ActiveIsFirst(s.changes, n);
    assert forall i :: 0 <= i < n ==> Pair(s.changes, i, n);
    forall i | Active(s, i) ensures i == n {
      ActiveIsFirst(s.changes, i);
      assert i < n ==> Pair(s.changes, i, n);
      assert n < i ==> Pair(s.changes, n, i);
    }
  }

  /**
   Changes start in request order, each at most once, and the mode in force is the one of the
   change that started last.
   */
  lemma StartedInOrder(mode: Mode, es: seq<Event>, s: State)
    requires Run(Initial(mode), es) == Some(s)
    ensures forall i, j :: 0 <= i < j < |s.log| ==> s.log[i] < s.log[j]
    ensures forall n :: n in s.log <==> Started(s.changes, n)
    ensures s.log == [] ==> s.mode == mode
    ensures s.log != [] ==> s.log[|s.log| - 1] < |s.changes| && s.mode == s.changes[s.log[|s.log| - 1]].mode
  {
    InitialInv(mode);
    RunInv(Initial(mode), es);
    RunKeepsInitial(Initial(mode), es);
  }

  lemma {:induction false} RunKeepsInitial(s: State, es: seq<Event>)
    requires Run(s, es).Some?
    ensures Run(s, es).value.initial == s.initial
    decreases |es|
  {
    if es != [] {
      RunKeepsInitial(Apply(s, es[0]), es[1..]);
    }
  }

  /** A caller whose promise has been fulfilled had its own target applied. */
  lemma FulfilledMeansApplied(mode: Mode, es: seq<Event>, s: State, c: Caller)
    requires Run(Initial(mode), es) == Some(s) && c in s.callers
    requires c.change < |s.changes| && s.changes[c.change].phase == Settled(true)
    ensures s.changes[c.change].mode == c.mode && c.change in s.log
  {
    InitialInv(mode);
    RunInv(Initial(mode), es);
    assert GoodCaller(s, c) && GoodChange(s.changes, c.change);
    assert Started(s.changes, c.change);
  }

  /**
   Two callers share a change only if they asked for the same mode, later callers never hold an
   earlier change, and a change never waits for one of its own mode.
   */
  lemma {:induction false} CallersInOrder(s: State, a: nat, b: nat)
    requires Inv(s) && a <= b < |s.callers|
    ensures s.callers[a].change <= s.callers[b].change < |s.changes|
    ensures s.callers[a].change == s.callers[b].change ==> s.callers[a].mode == s.callers[b].mode
    ensures forall n :: 0 < n < |s.changes| && s.changes[n].previous.Some? ==> s.changes[n].mode != s.changes[n - 1].mode
    decreases b
  {
    assert GoodCaller(s, s.callers[a]) && GoodCaller(s, s.callers[b]);
    forall n | 0 < n < |s.changes| && s.changes[n].previous.Some? ensures s.changes[n].mode != s.changes[n - 1].mode {
      assert GoodChange(s.changes, n);
    }
    if a < b {
      CallersInOrder(s, a, b - 1);
    }
  }

  /** Every change was asked for. */
  lemma {:induction false} EveryChangeRequested(s: State, n: nat, last: nat) returns (k: nat)
    requires Inv(s) && last < |s.callers| && n <= s.callers[last].change
    ensures k <= last && s.callers[k] == Caller(s.changes[n].mode, n)
  {
    assert GoodCaller(s, s.callers[last]);
    if n == s.callers[last].change {
      k := last;
    } else {
      k := EveryChangeRequested(s, n, last - 1);
    }
  }

  /** The last entry of the log, if a given change has started and no later one has. */
  lemma LastStarted(s: State, n: nat)
    requires LogInv(s) && Started(s.changes, n) && forall m :: Started(s.changes, m) ==> m <= n
    ensures s.log != [] && s.log[|s.log| - 1] == n
  {
    var k :| 0 <= k < |s.log| && s.log[k] == n;
    assert Started(s.changes, s.log[|s.log| - 1]);
  }

  /** The event asks for a change to the mode: a request, or a submission in a mode not in force. */
  predicate AsksFor(s: State, e: Event, mode: Mode)
    requires Enabled(s, e)
  {
    match e
    case Request(m) => m == mode
    case Submit(m) => m == mode && s.pending.None? && s.mode != mode
    case Wake(w) =>
      var sub := s.submissions[w];
      sub.mode == mode && sub.wait.First? && s.changes[sub.wait.change].phase.ok && s.mode != mode
    case _ => false
  }

  /**
   Exactly the events that ask for a mode make a caller of a change of that mode: of the pending one,
   if that is its target, or else of a new one behind it. No other event adds a caller or a change.
   */
  lemma RequestedExactly(s: State, e: Event, mode: Mode)
    requires Inv(s) && Enabled(s, e)
    ensures (forall m :: !AsksFor(s, e, m)) ==>
      Apply(s, e).callers == s.callers && |Apply(s, e).changes| == |s.changes|
    ensures AsksFor(s, e, mode) ==>
      var t := Apply(s, e);
      if s.pending.Some? && s.changes[|s.changes| - 1].mode == mode then
        t.changes == s.changes && t.callers == s.callers + [Caller(mode, |s.changes| - 1)]
      else
        && t.callers == s.callers + [Caller(mode, |s.changes|)]
        && |t.changes| == |s.changes| + 1 && t.changes[..|s.changes|] == s.changes
        && t.changes[|s.changes|].mode == mode && t.changes[|s.changes|].origin.None?
        && t.changes[|s.changes|].previous == (if s.pending.Some? then Some(|s.changes| - 1) else None)
        && t.changes[|s.changes|].phase == if s.pending.Some? then Waiting else Readying
  {
    hide ChainInv, LogInv, CallersInv, SubmissionsInv, Record;
    if e.Wake? || e.Submit? {
      assert (forall m :: !AsksFor(s, e, m)) ==> !AsksFor(s, e, if e.Submit? then e.mode else s.submissions[e.w].mode);
    } else if e.Request? {
      assert AsksFor(s, e, e.mode);
    }
  }

  /** What a submission is told once nothing is pending or the pending change has settled. */
  ghost predicate Checked(s: State, t: State, sub: Submission, now: Submission) {
    && now.mode == sub.mode
    && if s.mode == sub.mode then now.wait == Passed(None) && t.callers == s.callers
       else
         && |t.callers| == |s.callers| + 1 && t.callers[..|s.callers|] == s.callers
         && t.callers[|s.callers|] == Caller(sub.mode, t.callers[|s.callers|].change)
         && now.wait == Second(t.callers[|s.callers|].change)
  }

  /** A submission waits for the pending change, if there is one. */
  lemma SubmitExactly(s: State, mode: Mode)
    requires PendingInv(s) && Interactive(mode)
    ensures var t, w := Apply(s, Submit(mode)), |s.submissions|;
      && |t.submissions| == w + 1 && t.submissions[..w] == s.submissions && t.submissions[w].mode == mode
      && if s.changes != [] && !s.changes[|s.changes| - 1].phase.Settled? then
           t.submissions[w].wait == First(|s.changes| - 1) && t.changes == s.changes && t.callers == s.callers
         else Checked(s, t, Submission(mode, Rejected), t.submissions[w])
  {}

  /**
   A submission wakes up exactly when the change it waits for has settled; it is rejected with that
   change, waits for at most one more, and passes then or if its mode is in force.
   */
  lemma WakeExactly(s: State, w: nat)
    requires Inv(s) && w < |s.submissions|
    ensures var wait := s.submissions[w].wait;
      Enabled(s, Wake(w)) <==> (wait.First? || wait.Second?) && s.changes[wait.change].phase.Settled?
    ensures Enabled(s, Wake(w)) ==>
      var t, sub := Apply(s, Wake(w)), s.submissions[w];
      && t.submissions == s.submissions[w := t.submissions[w]]
      && if s.changes[sub.wait.change].phase == Settled(false) then t.submissions[w] == sub.(wait := Rejected)
         else if sub.wait.Second? then t.submissions[w] == sub.(wait := Passed(Some(sub.wait.change)))
         else Checked(s, t, sub, t.submissions[w])
  {
    hide ChainInv, LogInv, CallersInv;
    assert GoodSubmission(s, s.submissions[w]);
    hide SubmissionsInv;
  }

  /** With nothing pending, submissions in the mode in force pass at once and change nothing else. */
  lemma {:induction false} InForcePasses(s: State, es: seq<Event>, t: State)
    requires s.pending.None? && Run(s, es) == Some(t)
    requires forall e :: e in es ==> e == Submit(s.mode)
    ensures t == s.(submissions := t.submissions) && s.submissions <= t.submissions
    ensures forall w :: |s.submissions| <= w < |t.submissions| ==> t.submissions[w] == Submission(s.mode, Passed(None))
    ensures |t.submissions| == |s.submissions| + |es|
    decreases |es|
  {
    if es != [] {
      assert es[0] in es && forall e :: e in es[1..] ==> e in es;
      InForcePasses(Apply(s, es[0]), es[1..], t);
    }
  }

  /** At rest the mode is the one asked for last, if the last change was applied. */
  lemma ModeAtRest(mode: Mode, es: seq<Event>, s: State)
    requires Run(Initial(mode), es) == Some(s) && s.pending.None? && s.callers != []
    requires s.changes != [] && s.changes[|s.changes| - 1].phase == Settled(true)
    ensures s.mode == s.callers[|s.callers| - 1].mode
  {
    InitialInv(mode);
    RunInv(Initial(mode), es);
    var last := |s.changes| - 1;
    assert GoodChange(s.changes, last) && GoodCaller(s, s.callers[|s.callers| - 1]);
    LastStarted(s, last);
  }

  predicate Failed(c: Change) {
    (c.phase.Finishing? || c.phase.Settled?) && !c.phase.ok
  }

  /** If none fails, all changes are applied, in request order, and the mode at rest is the last request. */
  lemma AllApplied(mode: Mode, es: seq<Event>, s: State)
    requires Run(Initial(mode), es) == Some(s) && s.pending.None?
    requires forall n :: 0 <= n < |s.changes| ==> !Failed(s.changes[n])
    ensures |s.log| == |s.changes| && forall k :: 0 <= k < |s.log| ==> s.log[k] == k
    ensures s.callers != [] ==> s.mode == s.callers[|s.callers| - 1].mode
  {
    InitialInv(mode);
    RunInv(Initial(mode), es);
    forall n | 0 <= n < |s.changes| ensures s.changes[n].phase == Settled(true) && n in s.log {
      assert GoodChange(s.changes, n) && !Failed(s.changes[n]);
      assert n < |s.changes| - 1 ==> Pair(s.changes, n, |s.changes| - 1);
      assert Started(s.changes, n);
    }
    Dense(s.log, |s.changes|);
    if s.callers != [] {
      ModeAtRest(mode, es, s);
    }
  }

  /** A strictly increasing list of all the numbers below `n` is 0, 1, ..., n - 1. */
  lemma {:induction false} Dense(log: seq<nat>, n: nat)
    requires forall i, j :: 0 <= i < j < |log| ==> log[i] < log[j]
    requires forall k :: k in log <==> 0 <= k < n
    ensures |log| == n && forall k :: 0 <= k < n ==> log[k] == k
    decreases n
  {
    if log == [] {
      assert n > 0 ==> 0 in log;
    } else {
      var last := |log| - 1;
      assert log[last] in log;
      assert n - 1 in log;
      var k :| 0 <= k <= last && log[k] == n - 1;
      assert log[last] == n - 1;
      forall m | 0 <= m < n - 1 ensures m in log[..last] {
        assert m in log;
        var i :| 0 <= i < |log| && log[i] == m;
        assert log[..last][i] == m;
      }
      assert forall i :: 0 <= i < last ==> log[i] in log && log[i] < n - 1;
      Dense(log[..last], n - 1);
    }
  }

  /** After a change has failed, no change queued behind it starts, however long the queue. */
  lemma {:induction false} FailureCascades(s: State, p: nat, j: nat)
    requires Inv(s) && p < j < |s.changes| && s.changes[p].phase == Settled(false)
    requires forall k :: p < k <= j ==> s.changes[k].previous.Some?
    ensures !Started(s.changes, j) && (s.changes[j].phase.Waiting? || Failed(s.changes[j]))
    decreases j
  {
    assert GoodChange(s.changes, j);
    if p < j - 1 {
      FailureCascades(s, p, j - 1);
    }
  }

  /** The first unsettled change, given one. */
  lemma {:induction false} FirstUnsettled(cs: seq<Change>, n: nat) returns (m: nat)
    requires n < |cs| && !cs[n].phase.Settled?
    ensures m <= n && !cs[m].phase.Settled? && forall i :: 0 <= i < m ==> cs[i].phase.Settled?
    decreases n
  {
    if i :| 0 <= i < n && !cs[i].phase.Settled? {
      m := FirstUnsettled(cs, i);
    } else {
      m := n;
    }
  }

  /** Nothing is stuck: while a change is pending, the first unsettled one can take its next step. */
  lemma Progress(mode: Mode, es: seq<Event>, s: State) returns (n: nat, e: Event)
    requires Run(Initial(mode), es) == Some(s) && s.pending.Some?
    ensures n < |s.changes| && !s.changes[n].phase.Settled? && forall i :: 0 <= i < n ==> s.changes[i].phase.Settled?
    ensures Enabled(s, e) && (e == Resume(n) || e == Ready(n, true) || e == Applied(n, true) || e == Finally(n))
  {
    InitialInv(mode);
    RunInv(Initial(mode), es);
    n := FirstUnsettled(s.changes, s.pending.value);
    assert GoodChange(s.changes, n);
    e := match s.changes[n].phase
      case Waiting => Resume(n)
      case Readying => Ready(n, true)
      case Applying => Applied(n, true)
      case _ => Finally(n);
  }

  lemma AppliedOrOvertaken(s: State, n: nat)
    requires ChainInv(s.changes) && LogInv(s) && n < |s.changes| && s.changes[n].phase == Settled(true)
    ensures s.mode == s.changes[n].mode || exists m :: m in s.log && m > n
  {
    assert GoodChange(s.changes, n) && Started(s.changes, n);
    var last := s.log[|s.log| - 1];
    assert last in s.log && last >= n;
  }

  /** The two ways a submitted message gets past its wait: its mode is in force, or a newer change has started. */
  lemma SubmissionPasses(s: State, e: Event, w: nat)
    requires Inv(s) && Enabled(s, e) && w < |Apply(s, e).submissions| && Apply(s, e).submissions[w].wait.Passed?
    requires w < |s.submissions| ==> !s.submissions[w].wait.Passed?
    ensures var t, sub := Apply(s, e), Apply(s, e).submissions[w];
            || t.mode == sub.mode
            || (sub.wait.own.Some? && exists m :: m in t.log && m > sub.wait.own.value)
  {
    if e.Wake? && e.w == w && s.submissions[w].wait.Second? && s.changes[s.submissions[w].wait.change].phase.ok {
      var n := s.submissions[w].wait.change;
      assert GoodSubmission(s, s.submissions[w]);
      AppliedOrOvertaken(s, n);
      hide ChainInv, LogInv, CallersInv, SubmissionsInv;
    } else {
      hide ChainInv, LogInv, CallersInv, SubmissionsInv;
    }
  }

  // --------------------------------------------------------------- the notice

  function Between(a: Mode, b: Mode): Option<Notice> {
    if a == b then None else Some(Notice(a, b))
  }

  /** The mode before a change that is being applied, or else the mode in force. */
  function Reported(s: State): Mode {
    if s.log == [] || s.log[|s.log| - 1] >= |s.changes| then s.mode
    else
      var c := s.changes[s.log[|s.log| - 1]];
      if c.phase.Applying? && c.origin.Some? then c.origin.value else s.mode
  }

  /** No change has failed after it had replaced another mode. */
  ghost predicate NoneAbandoned(s: State) {
    forall n :: Started(s.changes, n) && Failed(s.changes[n]) ==> Harmless(s.changes[n])
  }

  /** The change, if it has started, did not change the mode. */
  predicate Harmless(c: Change) {
    c.origin.None? || c.origin.value == c.mode
  }

  /** Where the pending notice starts: the switch away from yolo mode is never announced. */
  function Base(s: State): Mode {
    if s.told == Yolo && s.log != [] && s.log[0] < |s.changes| then s.changes[s.log[0]].mode else s.told
  }

  predicate NoticeFits(s: State) {
    if Reported(s) == Yolo then s.notice.None? && s.told == Yolo && |s.log| <= 1
    else Base(s) != Yolo && s.notice == Between(Base(s), Reported(s))
  }

  ghost predicate NoticeInv(s: State) {
    NoneAbandoned(s) ==> NoticeFits(s)
  }

  /** Only the change that is being applied is the last that started. */
  lemma ApplyingIsLast(s: State, n: nat)
    requires ChainInv(s.changes) && LogInv(s) && n < |s.changes| && s.changes[n].phase.Applying?
    ensures s.log != [] && s.log[|s.log| - 1] == n
  {
    assert GoodChange(s.changes, n);
    forall m | Started(s.changes, m) ensures m <= n {
      assert GoodChange(s.changes, m);
      assert n < m ==> Pair(s.changes, n, m);
    }
    LastStarted(s, n);
  }

  lemma NoneAbandonedBefore(s: State, e: Event)
    requires Inv(s) && Enabled(s, e) && NoneAbandoned(Apply(s, e))
    ensures NoneAbandoned(s) && (e.Applied? && !e.ok ==> Harmless(s.changes[e.n]))
  {
    var t := Apply(s, e);
    hide ChainInv, LogInv, CallersInv, SubmissionsInv, Record, Harmless;
    SameOrigins(s, e);
    assert e.Applied? ==> Started(t.changes, e.n);
  }

  /** What the notice depends on is the same in both states. */
  predicate SameStarted(s: State, t: State) {
    && t.log == s.log && t.mode == s.mode && t.notice == s.notice && t.told == s.told
    && (forall n :: 0 <= n < |s.changes| ==>
          && n < |t.changes| && t.changes[n].mode == s.changes[n].mode && t.changes[n].origin == s.changes[n].origin
          && (t.changes[n].phase.Applying? <==> s.changes[n].phase.Applying?)
          && (Failed(s.changes[n]) ==> Failed(t.changes[n])))
  }

  lemma OtherSameStarted(s: State, e: Event)
    requires Enabled(s, e) && !e.Applied? && !(e.Ready? && e.ok) && !e.Consume?
    ensures SameStarted(s, Apply(s, e))
  {}

  /** An event keeps mode and origin of every started change, and a change that has failed. */
  lemma SameOrigins(s: State, e: Event)
    requires Inv(s) && Enabled(s, e)
    ensures var t := Apply(s, e);
      forall n :: Started(s.changes, n) ==>
        && Started(t.changes, n)
        && (Harmless(t.changes[n]) <==> Harmless(s.changes[n]))
        && (Failed(s.changes[n]) ==> Failed(t.changes[n]))
  {
    if e.Ready? && e.ok {
      assert GoodChange(s.changes, e.n);
    }
    hide ChainInv, LogInv, CallersInv, SubmissionsInv, Record;
    if !e.Applied? && !(e.Ready? && e.ok) && !e.Consume? {
      OtherSameStarted(s, e);
      hide Apply;
    }
  }

  lemma StartKeepsReported(s: State, n: nat)
    requires ChainInv(s.changes) && LogInv(s) && n < |s.changes| && s.changes[n].phase.Readying?
    ensures Reported(AfterStart(s, n)) == Reported(s)
    ensures s.log != [] ==> Reported(s) == s.changes[s.log[|s.log| - 1]].mode
  {
    assert GoodChange(s.changes, n);
    if s.log != [] {
      var last := s.log[|s.log| - 1];
      assert last in s.log && Started(s.changes, last) && GoodChange(s.changes, last);
      assert last < n ==> Pair(s.changes, last, n);
      assert n < last ==> Pair(s.changes, n, last);
    }
  }

  /** A change that starts leaves the notice fitting. */
  lemma StartNotice(s: State, n: nat)
    requires Inv(s) && n < |s.changes| && s.changes[n].phase.Readying? && NoticeFits(s)
    ensures NoticeFits(AfterStart(s, n))
  {
    StartKeepsReported(s, n);
    if s.log != [] {
      assert GoodChange(s.changes, s.log[|s.log| - 1]);
      assert Started(s.changes, s.log[0]);
    }
    hide ChainInv, LogInv, CallersInv, SubmissionsInv;
  }

  lemma AppliedNotice(s: State, n: nat)
    requires ChainInv(s.changes) && LogInv(s) && Enabled(s, Applied(n, true)) && NoticeFits(s)
    ensures NoticeFits(Apply(s, Applied(n, true)))
  {
    ApplyingIsLast(s, n);
    assert GoodChange(s.changes, n);
    assert Started(s.changes, s.log[0]);
    hide ChainInv, LogInv, GoodChange;
  }

  lemma HarmlessNotice(s: State, n: nat)
    requires ChainInv(s.changes) && LogInv(s) && Enabled(s, Applied(n, false)) && NoticeFits(s)
    requires Harmless(s.changes[n])
    ensures NoticeFits(Apply(s, Applied(n, false)))
  {
    ApplyingIsLast(s, n);
    assert Started(s.changes, s.log[0]);
    hide ChainInv, LogInv, GoodChange;
  }

  lemma SameNotice(s: State, t: State)
    requires LogInv(s) && NoticeFits(s) && SameStarted(s, t)
    ensures NoticeFits(t)
  {
    if s.log != [] {
      assert Started(s.changes, s.log[0]);
    }
  }

  lemma ConsumeNotice(s: State)
    requires LogInv(s) && NoticeFits(s)
    ensures NoticeFits(Apply(s, Consume))
  {}

  /** An event that neither starts nor applies a change leaves the notice fitting. */
  lemma OtherNotice(s: State, e: Event)
    requires LogInv(s) && Enabled(s, e) && !e.Applied? && !(e.Ready? && e.ok) && NoticeFits(s)
    ensures NoticeFits(Apply(s, e))
  {
    hide LogInv, NoticeFits, SameStarted, Apply;
    if e.Consume? {
      ConsumeNotice(s);
    } else {
      OtherSameStarted(s, e);
      SameNotice(s, Apply(s, e));
    }
  }

  lemma NoticeStep(s: State, e: Event)
    requires Inv(s) && Enabled(s, e) && NoticeInv(s)
    ensures NoticeInv(Apply(s, e))
  {
    hide ChainInv, LogInv, CallersInv, SubmissionsInv, NoneAbandoned, NoticeFits, Harmless;
    if NoneAbandoned(Apply(s, e)) {
      NoneAbandonedBefore(s, e);
      if e.Applied? {
        if e.ok { AppliedNotice(s, e.n); } else { HarmlessNotice(s, e.n); }
      } else if e.Ready? && e.ok {
        StartNotice(s, e.n);
        hide AfterStart;
      } else {
        OtherNotice(s, e);
      }
    }
  }

  lemma {:induction false} RunNotice(s: State, es: seq<Event>)
    requires Inv(s) && NoticeInv(s) && Run(s, es).Some?
    ensures NoticeInv(Run(s, es).value)
    decreases |es|
  {
    hide Inv, NoticeInv;
    if es != [] {
      EventInv(s, es[0]);
      NoticeStep(s, es[0]);
      RunNotice(Apply(s, es[0]), es[1..]);
    }
  }

  lemma RestReported(s: State)
    requires Inv(s) && s.pending.None?
    ensures Reported(s) == s.mode
    ensures s.log != [] ==> s.log[0] < |s.changes| && Interactive(s.mode)
  {
    if s.log != [] {
      var n := s.log[|s.log| - 1];
      assert Started(s.changes, n) && GoodChange(s.changes, n) && Started(s.changes, s.log[0]);
      assert n < |s.changes| - 1 ==> Pair(s.changes, n, |s.changes| - 1);
    }
  }

  /**
   As long as no change has failed after replacing another mode, the tracker holds, at rest, the
   switch from the mode the model was last told to the mode in force (nothing if they are the
   same), exactly if the model has been told of an interactive mode or nothing has changed yet. In
   a session that starts in yolo mode the notice starts from the first mode applied instead.
   */
  lemma NoticeIsNetChange(mode: Mode, es: seq<Event>, s: State)
    requires Run(Initial(mode), es) == Some(s) && s.pending.None? && NoneAbandoned(s)
    ensures s.notice == Between(s.told, s.mode) <==> s.told != Yolo || s.log == []
    ensures s.told == Yolo && s.log != [] ==>
      s.log[0] < |s.changes| && s.notice == Between(s.changes[s.log[0]].mode, s.mode)
    ensures Interactive(mode) ==> s.told != Yolo
  {
    InitialInv(mode);
    RunNotice(Initial(mode), es);
    RunInv(Initial(mode), es);
    RestReported(s);
    hide Inv, NoneAbandoned;
    if Interactive(mode) {
      ToldStaysInteractive(Initial(mode), es);
    }
  }

  /** The model is only ever told of interactive modes. */
  lemma {:induction false} ToldStaysInteractive(s: State, es: seq<Event>)
    requires Inv(s) && Run(s, es).Some? && s.told != Yolo && (s.notice.Some? ==> s.notice.value.target != Yolo)
    ensures Run(s, es).value.told != Yolo
    decreases |es|
  {
    if es != [] {
      EventInv(s, es[0]);
      TargetInteractive(s, es[0]);
      hide Inv, Apply;
      ToldStaysInteractive(Apply(s, es[0]), es[1..]);
    }
  }

  lemma TargetInteractive(s: State, e: Event)
    requires ChainInv(s.changes) && Enabled(s, e) && s.told != Yolo && (s.notice.Some? ==> s.notice.value.target != Yolo)
    ensures var t := Apply(s, e); t.told != Yolo && (t.notice.Some? ==> t.notice.value.target != Yolo)
  {
    if e.Applied? {
      assert GoodChange(s.changes, e.n);
      hide ChainInv;
    } else if !e.Consume? && !(e.Ready? && e.ok) {
      hide ChainInv;
      OtherSameStarted(s, e);
      hide Apply;
    }
  }

  /**
   The first change that fails in applyMode breaks this at once, exactly if it had replaced another
   mode: the mode has changed and the notice has not.
   */
  lemma AbandonedExactly(mode: Mode, es: seq<Event>, s: State, n: nat)
    requires Run(Initial(mode), es) == Some(s) && NoneAbandoned(s) && Enabled(s, Applied(n, false))
    requires s.told != Yolo
    ensures var t := Apply(s, Applied(n, false));
      t.notice == Between(t.told, t.mode) <==> s.changes[n].origin == Some(s.changes[n].mode)
  {
    InitialInv(mode);
    RunNotice(Initial(mode), es);
    RunInv(Initial(mode), es);
    ApplyingIsLast(s, n);
    hide ChainInv, CallersInv, SubmissionsInv, NoneAbandoned;
  }

  /** A request that nothing is pending for, followed through to its end. */
  function OneChange(n: nat, mode: Mode, ok: bool): seq<Event> {
    [Request(mode), Ready(n, true), Applied(n, ok), Finally(n)]
  }

  lemma RunsOn(s: State, es: seq<Event>, k: nat)
    requires k < |es| && Enabled(s, es[k])
    ensures Run(s, es[k..]) == Run(Apply(s, es[k]), es[k + 1..])
  {
    assert es[k..][1..] == es[k + 1..];
  }

  lemma OneChangeRuns(s: State, mode: Mode, ok: bool, rest: seq<Event>) returns (t: State)
    requires Interactive(mode) && s.pending.None? && Interactive(s.mode)
    ensures t == s.(mode := mode,
                    changes := s.changes + [Change(mode, None, Settled(ok), Some(s.mode))],
                    callers := s.callers + [Caller(mode, |s.changes|)],
                    target := None,
                    log := s.log + [|s.changes|],
                    notice := if ok then Record(s.notice, s.mode, mode) else s.notice)
    ensures Run(s, OneChange(|s.changes|, mode, ok) + rest) == Run(t, rest)
  {
    var n := |s.changes|;
    var es := OneChange(n, mode, ok);
    var a := Apply(s, Request(mode));
    var b := Apply(a, Ready(n, true));
    var c := Apply(b, Applied(n, ok));
    t := Apply(c, Finally(n));
    var all := es + rest;
    assert all[0..] == all && all[4..] == rest;
    hide Apply, Run, Record;
    RunsOn(s, all, 0);
    RunsOn(a, all, 1);
    RunsOn(b, all, 2);
    RunsOn(c, all, 3);
  }

  /**
   The condition is needed: when switching to act mode fails after the mode was stored and the
   user goes back to plan mode, the next message announces a switch the model never saw.
   */
  lemma AbandonedChangeMisleads()
    ensures exists es :: var r := Run(Initial(Plan), es);
            && r.Some? && r.value.pending.None?
            && r.value.mode == Plan && r.value.told == Plan && r.value.notice == Some(Notice(Act, Plan))
  {
    var back := OneChange(1, Plan, true);
    var s := OneChangeRuns(Initial(Plan), Act, false, back);
    var t := OneChangeRuns(s, Plan, true, []);
    assert back + [] == back;
    assert Run(Initial(Plan), OneChange(0, Act, false) + back) == Some(t);
  }

  // -------------------------------------------------------------- the closures

  /** The variables of the closures, and the promises they hand out. */
  class ModeChanges {
    var mode: Mode
    var modeChangePromise: Option<nat>
    var modeChangeTarget: Option<Mode>
    var changes: seq<Change>
    var callers: seq<Caller>
    var submissions: seq<Submission>
    var notice: Option<Notice>
    ghost var initial: Mode
    ghost var log: seq<nat>
    ghost var told: Mode

    ghost function View(): State
      reads this
    {
      State(initial, mode, changes, modeChangePromise, modeChangeTarget, callers, submissions, log, notice, told)
    }

    constructor (mode: Mode)
      ensures View() == Initial(mode) && Inv(View())
    {
      this.mode, modeChangePromise, modeChangeTarget := mode, None, None;
      changes, callers, submissions, notice := [], [], [], None;
      initial, log, told := mode, [], mode;
      new;
      InitialInv(mode);
    }

    method ApplyModeChange(target: Mode) returns (next: nat)
      requires Inv(View()) && Interactive(target)
      modifies this
      ensures View() == Apply(old(View()), Request(target)) && Inv(View())
      ensures callers == old(callers) + [Caller(target, next)] && modeChangePromise == Some(next)
    {
      EventInv(View(), Request(target));
      hide Inv;
      if modeChangePromise.Some? && modeChangeTarget == Some(target) {
        next := modeChangePromise.value;
        callers := callers + [Caller(target, next)];
        return;
      }
      next := |changes|;
      changes := changes + [Change(target, modeChangePromise, if modeChangePromise.Some? then Waiting else Readying, None)];
      modeChangePromise := Some(next);
      modeChangeTarget := Some(target);
      callers := callers + [Caller(target, next)];
    }

    /** `await modeChangePromise` returns or throws in change `n`. */
    method OnPrevious(n: nat)
      requires Inv(View()) && Enabled(View(), Resume(n))
      modifies this
      ensures View() == Apply(old(View()), Resume(n)) && Inv(View())
    {
      EventInv(View(), Resume(n));
      hide Inv;
      var previous := changes[n].previous.value;
      changes := changes[n := changes[n].(phase := if changes[previous].phase.ok then Readying else Finishing(false))];
    }

    /** `await sessionRuntime.ensureReady()` returns or throws in change `n`. */
    method OnReady(n: nat, ok: bool)
      requires Inv(View()) && Enabled(View(), Ready(n, ok))
      modifies this
      ensures View() == Apply(old(View()), Ready(n, ok)) && Inv(View())
    {
      EventInv(View(), Ready(n, ok));
      hide Inv;
      if ok {
        changes := changes[n := changes[n].(phase := Applying, origin := Some(mode))];
        mode := changes[n].mode;
        log := log + [n];
      } else {
        changes := changes[n := changes[n].(phase := Finishing(false))];
      }
    }

    /** `await sessionRuntime.applyMode(mode)` returns or throws in change `n`. */
    method OnApplied(n: nat, ok: bool)
      requires Inv(View()) && Enabled(View(), Applied(n, ok))
      modifies this
      ensures View() == Apply(old(View()), Applied(n, ok)) && Inv(View())
    {
      EventInv(View(), Applied(n, ok));
      hide Inv;
      var origin := changes[n].origin.value;
      if ok && Interactive(origin) {
        notice := Record(notice, origin, changes[n].mode);
      }
      changes := changes[n := changes[n].(phase := Finishing(ok))];
    }

    /** The finally handler of change `n`. */
    method OnFinally(n: nat)
      requires Inv(View()) && Enabled(View(), Finally(n))
      modifies this
      ensures View() == Apply(old(View()), Finally(n)) && Inv(View())
    {
      EventInv(View(), Finally(n));
      hide Inv;
      if modeChangePromise == Some(n) {
        modeChangePromise := None;
        modeChangeTarget := None;
      }
      changes := changes[n := changes[n].(phase := Settled(changes[n].phase.ok))];
    }

    /** `waitForSubmittedMode` up to its first await. */
    method WaitForSubmittedMode(target: Mode)
      requires Inv(View()) && Interactive(target)
      modifies this
      ensures View() == Apply(old(View()), Submit(target)) && Inv(View())
    {
      EventInv(View(), Submit(target));
      var w := |submissions|;
      if modeChangePromise.Some? {
        submissions := submissions + [Submission(target, First(modeChangePromise.value))];
      } else {
        SubmissionInv(View(), submissions + [Submission(target, Rejected)]);
        submissions := submissions + [Submission(target, Rejected)];
        CheckMode(w);
      }
    }

    /** The promise submission `w` awaits has settled. */
    method OnAwaited(w: nat)
      requires Inv(View()) && Enabled(View(), Wake(w))
      modifies this
      ensures View() == Apply(old(View()), Wake(w)) && Inv(View())
    {
      EventInv(View(), Wake(w));
      var sub := submissions[w];
      if !changes[sub.wait.change].phase.ok {
        submissions := submissions[w := sub.(wait := Rejected)];
      } else if sub.wait.First? {
        CheckMode(w);
      } else {
        submissions := submissions[w := sub.(wait := Passed(Some(sub.wait.change)))];
      }
    }

    /** `if (config.mode !== mode) await applyModeChange(mode)`. */
    method CheckMode(w: nat)
      requires Inv(View()) && w < |submissions| && Interactive(submissions[w].mode)
      modifies this
      ensures View() == AfterCheck(old(View()), w)
    {
      hide Inv;
      var target := submissions[w].mode;
      if mode != target {
        var next := ApplyModeChange(target);
        submissions := submissions[w := Submission(target, Second(next))];
      } else {
        submissions := submissions[w := Submission(target, Passed(None))];
      }
    }
  }
}
