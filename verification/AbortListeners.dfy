/**
 The swap of unhandled-rejection listeners while an abort is in progress:
 `markAbortInProgress`, `clearAbortInProgress` and its timer in
 apps/cli/src/runtime/active-runtime.ts. Nobody else changes the listeners meanwhile.
 */
module AbortListeners {
  import opened Prelude

  /** A listener of the process. Every effective mark installs a new suppressor. */
  datatype Listener = Handler(id: nat) | Suppressor(mark: nat)

  /** `timer` says whether the grace timer is pending; `marks` counts the effective marks. */
  datatype State = State(
    inProgress: bool,
    timer: bool,
    saved: Option<seq<Listener>>,
    listeners: seq<Listener>,
    marks: nat)

  datatype Event = Mark | Clear | Fire

  function Initial(original: seq<Listener>): State {
    State(false, false, None, original, 0)
  }

  predicate Enabled(s: State, e: Event) {
    e.Fire? ==> s.timer
  }

  function Apply(s: State, e: Event): State
    requires Enabled(s, e)
  {
    match e
    case Mark =>
      if s.inProgress then s else State(true, false, Some(s.listeners), [Suppressor(s.marks)], s.marks + 1)
    case Clear => s.(timer := true)
    case Fire => State(false, false, None, s.saved.GetOr(s.listeners), s.marks)
  }

  function Run(s: State, es: seq<Event>): Option<State>
    decreases |es|
  {
    if es == [] then Some(s)
    else if Enabled(s, es[0]) then Run(Apply(s, es[0]), es[1..])
    else None
  }

  predicate Inv(original: seq<Listener>, s: State) {
    if s.inProgress then s.marks > 0 && s.listeners == [Suppressor(s.marks - 1)] && s.saved == Some(original)
    else s.listeners == original && s.saved.None?
  }

  lemma {:induction false} RunInv(original: seq<Listener>, s: State, es: seq<Event>)
    requires Inv(original, s) && Run(s, es).Some?
    ensures Inv(original, Run(s, es).value)
    decreases |es|
  {
    if es != [] {
      RunInv(original, Apply(s, es[0]), es[1..]);
    }
  }

  /**
   After any marks, clears and timer firings the listeners are the original list when no abort
   is in progress and the one newest suppressor when one is; what is saved is the original list,
   never a suppressor.
   */
  lemma OriginalOrSuppressed(original: seq<Listener>, es: seq<Event>, s: State)
    requires Run(Initial(original), es) == Some(s)
    ensures !s.inProgress ==> s.listeners == original && s.saved.None?
    ensures s.inProgress ==> s.saved == Some(original) && s.marks > 0 && s.listeners == [Suppressor(s.marks - 1)]
  {
    RunInv(original, Initial(original), es);
  }

  /** Without a pending timer an abort stays in progress until a clear. */
  lemma {:induction false} StaysUntilClear(s: State, es: seq<Event>)
    requires s.inProgress && !s.timer && Clear !in es && Run(s, es).Some?
    ensures Run(s, es).value == s
    decreases |es|
  {
    if es != [] {
      assert es[0] in es;
      assert es[0].Mark?;
      StaysUntilClear(s, es[1..]);
    }
  }

  lemma {:induction false} NoTimerNoFire(s: State, es: seq<Event>)
    requires !s.timer && Clear !in es && Run(s, es).Some?
    ensures Fire !in es
    decreases |es|
  {
    if es != [] {
      assert es == [es[0]] + es[1..];
      NoTimerNoFire(Apply(s, es[0]), es[1..]);
    }
  }

  /** Every firing of the timer has a clear of its own, after the firing before it. */
  lemma FireNeedsClear(original: seq<Listener>, s: State, es: seq<Event>)
    requires s == Initial(original) || exists t: State :: t.timer && s == Apply(t, Fire)
    requires Clear !in es && Run(s, es).Some?
    ensures Fire !in es
  {
    NoTimerNoFire(s, es);
  }

  /** From `s` on, nothing but a clear can end the abort. */
  ghost predicate HoldsUntilClear(s: State) {
    forall es :: Clear !in es && Run(s, es).Some? ==> Run(s, es).value.inProgress
  }

  /**
   A mark holds until the next clear exactly if it is not made in the grace period of an earlier
   abort: there it changes nothing, and the earlier abort's timer ends it.
   */
  lemma MarkHoldsExactly(s: State)
    ensures HoldsUntilClear(Apply(s, Mark)) <==> !(s.inProgress && s.timer)
  {
    var t := Apply(s, Mark);
    if s.inProgress && s.timer {
      var es := [Fire];
      assert Clear !in es && es[1..] == [];
      assert Run(t, es) == Some(Apply(t, Fire));
    } else {
      forall es | Clear !in es && Run(t, es).Some? ensures Run(t, es).value.inProgress {
        StaysUntilClear(t, es);
      }
    }
  }

  /** A run in which the second of two marks is ended with no clear after it. */
  lemma GraceMarkEnds(original: seq<Listener>) returns (s: State)
    ensures Run(Initial(original), [Mark, Clear]) == Some(s) && s.inProgress && s.timer
    ensures Run(s, [Mark]) == Some(s) && Run(s, [Mark, Fire]).Some? && !Run(s, [Mark, Fire]).value.inProgress
    ensures !HoldsUntilClear(Apply(s, Mark))
  {
    s := Apply(Apply(Initial(original), Mark), Clear);
    assert [Mark, Clear][1..] == [Clear] && [Clear][1..] == [];
    assert [Mark, Fire][1..] == [Fire] && [Fire][1..] == [] && [Mark][1..] == [];
    assert Run(s, [Fire]) == Some(Apply(s, Fire));
    MarkHoldsExactly(s);
  }

  /** The module's variables and the process's listener list. */
  class ActiveRuntime {
    var abortInProgress: bool
    var abortGraceTimer: bool
    var savedRejectionListeners: Option<seq<Listener>>
    var listeners: seq<Listener>
    var marks: nat
    ghost const original: seq<Listener>

    ghost function View(): State
      reads this
    {
      State(abortInProgress, abortGraceTimer, savedRejectionListeners, listeners, marks)
    }

    ghost predicate Valid()
      reads this
    {
      Inv(original, View())
    }

    constructor (original: seq<Listener>)
      ensures this.original == original && View() == Initial(original) && Valid()
    {
      abortInProgress, abortGraceTimer, savedRejectionListeners := false, false, None;
      listeners, marks := original, 0;
      this.original := original;
    }

    method RemoveAllListeners()
      modifies this`listeners
      ensures listeners == []
    {
      listeners := [];
    }

    method On(listener: Listener)
      modifies this`listeners
      ensures listeners == old(listeners) + [listener]
    {
      listeners := listeners + [listener];
    }

    method MarkAbortInProgress()
      requires Valid()
      modifies this
      ensures Valid() && View() == Apply(old(View()), Mark)
    {
      if abortInProgress {
        return;
      }
      abortInProgress := true;
      if abortGraceTimer {
        abortGraceTimer := false;
      }
      savedRejectionListeners := Some(listeners);
      RemoveAllListeners();
      On(Suppressor(marks));
      marks := marks + 1;
    }

    method ClearAbortInProgress()
      requires Valid()
      modifies this
      ensures Valid() && View() == Apply(old(View()), Clear)
    {
      abortGraceTimer := true;
    }

    /** The timer's callback. */
    method OnGraceTimer()
      requires Valid() && abortGraceTimer
      modifies this
      ensures Valid() && View() == Apply(old(View()), Fire)
    {
      abortInProgress := false;
      abortGraceTimer := false;
      if savedRejectionListeners.Some? {
        var saved := savedRejectionListeners.value;
        RemoveAllListeners();
        for i := 0 to |saved|
          invariant listeners == saved[..i]
          invariant !abortInProgress && !abortGraceTimer && marks == old(marks)
          invariant savedRejectionListeners == old(savedRejectionListeners)
        {
          On(saved[i]);
        }
        savedRejectionListeners := None;
      }
    }
  }
}
