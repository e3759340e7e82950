/** Which runs `TurnDispatch` lists as active turns: what a message on arrival and in its handler sees. */
module TurnListing {
  import opened Prelude
  import opened TurnDispatch

  predicate Lists(s: State, key: string, run: nat) {
    key in s.active && s.active[key] == run
  }

  /** The event takes the run off the list of its key: it ends, or a steer finds it unusable. */
  predicate TakesOff(s: State, e: Event, key: string, run: nat) {
    !e.Arrive? && e.m < |s.msgs| && s.msgs[e.m].key == key &&
    match e
    case RunEnds(m, how) => s.msgs[m].run == run && !how.TypingFailed?
    case SteerEnds(m, unusable) => unusable && s.msgs[m].phase == Steering(run)
    case _ => false
  }

  /** What a step does to the list: a launch replaces what its key lists, the rest only takes off. */
  lemma ListStep(s: State, e: Event, key: string, run: nat)
    requires Enabled(s, e)
    ensures Lists(Apply(s, e), key, run) <==>
      if e.Launch? && s.msgs[e.m].key == key then run == s.runs
      else Lists(s, key, run) && !TakesOff(s, e, key, run)
  {
    hide Settled;
  }

  /** A step moves the message it is about; another message stays as it is. */
  lemma MessageStep(s: State, e: Event, m: nat)
    requires Enabled(s, e) && m < |s.msgs|
    ensures m < |Apply(s, e).msgs| && Apply(s, e).msgs[m].key == s.msgs[m].key
    ensures e.Arrive? || e.m != m ==> Apply(s, e).msgs[m] == s.msgs[m]
    ensures !e.Arrive? && e.m == m ==>
      var p := Apply(s, e).msgs[m].phase;
      && (p.Steering? ==> e.Check? && Lists(s, s.msgs[m].key, p.target))
      && (p.Running? ==> e.Launch? && Apply(s, e).msgs[m].run == s.runs)
      && (s.msgs[m].phase.Running? ==> e.RunEnds?)
  {
    hide Settled;
  }

  lemma RunsStep(s: State, e: Event)
    requires Enabled(s, e)
    ensures Apply(s, e).runs == if e.Launch? then s.runs + 1 else s.runs
    ensures |Apply(s, e).msgs| == if e.Arrive? then |s.msgs| + 1 else |s.msgs|
    ensures e.Arrive? ==> !Apply(s, e).msgs[|s.msgs|].phase.Steering?
  {
    hide Settled;
  }

  /** Runs are numbered in the order of their launches. */
  ghost predicate Numbered(s: State) {
    && (forall key :: key in s.active ==> s.active[key] < s.runs)
    && (forall m :: 0 <= m < |s.msgs| && s.msgs[m].phase.Steering? ==> s.msgs[m].phase.target < s.runs)
  }

  lemma NumberedStep(s: State, e: Event)
    requires Numbered(s) && Enabled(s, e)
    ensures Numbered(Apply(s, e))
  {
    var t := Apply(s, e);
    RunsStep(s, e);
    forall key | key in t.active ensures t.active[key] < t.runs {
      ListStep(s, e, key, t.active[key]);
    }
    forall m | 0 <= m < |t.msgs| && t.msgs[m].phase.Steering? ensures t.msgs[m].phase.target < t.runs {
      if m < |s.msgs| {
        MessageStep(s, e, m);
      }
    }
  }

  lemma {:induction false} RunNumbered(s: State, es: seq<Event>, t: State)
    requires Numbered(s) && Run(s, es) == Some(t)
    ensures Numbered(t)
    decreases |es|
  {
    hide Numbered, Apply, Enabled;
    if es != [] {
      NumberedStep(s, es[0]);
      RunNumbered(Apply(s, es[0]), es[1..], t);
    }
  }

  lemma {:induction false} StaysOff(s: State, key: string, run: nat, es: seq<Event>, t: State)
    requires run < s.runs && !Lists(s, key, run) && Run(s, es) == Some(t)
    ensures !Lists(t, key, run)
    decreases |es|
  {
    hide Apply, Enabled, Lists;
    if es != [] {
      ListStep(s, es[0], key, run);
      RunsStep(s, es[0]);
      StaysOff(Apply(s, es[0]), key, run, es[1..], t);
    }
  }

  /**
   The run that a steer found unusable is never again listed under its key, whatever happens next; so
   no later message of the key tries to steer it.
   */
  lemma DeadTurnStaysOff(es: seq<Event>, s: State, m: nat, fs: seq<Event>, t: State)
    requires Run(EMPTY, es) == Some(s) && Enabled(s, SteerEnds(m, true))
    requires Run(Apply(s, SteerEnds(m, true)), fs) == Some(t)
    ensures !Lists(t, s.msgs[m].key, s.msgs[m].phase.target)
    ensures forall x: nat :: Enabled(t, Check(x)) && t.msgs[x].key == s.msgs[m].key ==>
      Apply(t, Check(x)).msgs[x].phase != Steering(s.msgs[m].phase.target)
  {
    hide Run;
    var key, run := s.msgs[m].key, s.msgs[m].phase.target;
    RunNumbered(EMPTY, es, s);
    RunsStep(s, SteerEnds(m, true));
    ListStep(s, SteerEnds(m, true), key, run);
    hide Apply, Lists;
    StaysOff(Apply(s, SteerEnds(m, true)), key, run, fs, t);
    forall x: nat | Enabled(t, Check(x)) && t.msgs[x].key == key ensures Apply(t, Check(x)).msgs[x].phase != Steering(run) {
      MessageStep(t, Check(x), x);
    }
  }

  /** Message `m` is in that run. */
  predicate InRunOf(s: State, m: nat, key: string, run: nat) {
    m < |s.msgs| && s.msgs[m].key == key && s.msgs[m].phase.Running? && s.msgs[m].run == run
  }

  lemma ListedStep(s: State, e: Event, key: string, run: nat) returns (m: nat)
    requires Enabled(s, e) && !(e.RunEnds? && e.how.TypingFailed?)
    requires Lists(s, key, run) ==> exists m: nat :: InRunOf(s, m, key, run)
    requires Lists(Apply(s, e), key, run)
    ensures InRunOf(Apply(s, e), m, key, run)
  {
    ListStep(s, e, key, run);
    if e.Launch? && s.msgs[e.m].key == key {
      m := e.m;
    } else {
      m :| InRunOf(s, m, key, run);
      MessageStep(s, e, m);
    }
  }

  /** If typing never fails, every listed run has a message in it. */
  lemma {:induction false} ListedRuns(s: State, es: seq<Event>, t: State, key: string, run: nat) returns (m: nat)
    requires Run(s, es) == Some(t) && Lists(t, key, run)
    requires forall e :: e in es && e.RunEnds? ==> !e.how.TypingFailed?
    requires forall r :: Lists(s, key, r) ==> exists x: nat :: InRunOf(s, x, key, r)
    ensures InRunOf(t, m, key, run)
    decreases |es|
  {
    hide Apply, Enabled, Lists, InRunOf;
    if es == [] {
      m :| InRunOf(t, m, key, run);
    } else {
      forall r | Lists(Apply(s, es[0]), key, r) ensures exists x: nat :: InRunOf(Apply(s, es[0]), x, key, r) {
        var x := ListedStep(s, es[0], key, r);
      }
      assert es == [es[0]] + es[1..];
      m := ListedRuns(Apply(s, es[0]), es[1..], t, key, run);
    }
  }
}
