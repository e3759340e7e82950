/**
 The filter of `subscribeToAgentEvents` in apps/cli/src/runtime/session-events.ts: which agent
 events of a session reach the user interface, and which repeated done events it drops.
 */
module SessionEvents {
  import opened Prelude
  import opened JsText

  /** `Other` stands for every other kind of agent event, told apart by `id`. */
  datatype AgentEvent =
    | IterationStart
    | Usage(id: nat)
    | Done(text: Option<string>, iterations: Option<int>, usage: bool, reason: string)
    | Other(id: nat)

  datatype Role = Lead | Teammate

  /** `parsed` is the JSON value of an agent chunk, if it is one that can be emitted. */
  datatype SessionEvent =
    | Structured(event: Option<AgentEvent>, role: Role)
    | Chunk(stream: string, parsed: Option<AgentEvent>)
    | Unrelated

  function Score(event: AgentEvent): (score: nat)
    ensures score <= 8
  {
    if !event.Done? then 0
    else
      (if event.text.Some? && Trim(event.text.value) != [] then 2 else 0)
      + (if event.iterations.Some? && event.iterations.value > 0 then 2 else 0)
      + (if event.usage then 3 else 0)
      + (if event.reason != "completed" then 1 else 0)
  }

  predicate HasText(event: AgentEvent) {
    event.Done? && event.text.Some? && Trim(event.text.value) != []
  }

  predicate HasIterations(event: AgentEvent) {
    event.Done? && event.iterations.Some? && event.iterations.value > 0
  }

  /** A done event with everything another one has, and something more, scores higher. */
  lemma MoreCompleteScoresHigher(e: AgentEvent, f: AgentEvent)
    requires e.Done? && f.Done?
    requires (HasText(e) ==> HasText(f)) && (HasIterations(e) ==> HasIterations(f))
    requires (e.usage ==> f.usage) && (e.reason != "completed" ==> f.reason != "completed")
    ensures Score(e) <= Score(f)
    ensures Score(e) == Score(f) <==>
      HasText(e) == HasText(f) && HasIterations(e) == HasIterations(f) && e.usage == f.usage
      && (e.reason == "completed" <==> f.reason == "completed")
  {}

  function Last<T>(s: seq<T>): T
    requires s != []
  {
    s[|s| - 1]
  }

  function Init<T>(s: seq<T>): seq<T>
    requires s != []
  {
    s[..|s| - 1]
  }

  // ------------------------------------------------------- which events arrive

  function SeenStructured(inputs: seq<SessionEvent>): bool {
    exists i :: 0 <= i < |inputs| && inputs[i].Structured?
  }

  /** The agent event, if any, that one session event hands to the filter. */
  function Handed(seen: bool, input: SessionEvent): seq<AgentEvent> {
    match input
    case Structured(Some(event), role) => if role.Lead? || event.Usage? then [event] else []
    case Chunk("agent", Some(event)) => if seen then [] else [event]
    case _ => []
  }

  function Arrived(inputs: seq<SessionEvent>): seq<AgentEvent>
    decreases |inputs|
  {
    if inputs == [] then [] else Arrived(Init(inputs)) + Handed(SeenStructured(Init(inputs)), Last(inputs))
  }

  lemma ArrivedMore(inputs: seq<SessionEvent>, input: SessionEvent)
    ensures Arrived(inputs + [input]) == Arrived(inputs) + Handed(SeenStructured(inputs), input)
    ensures SeenStructured(inputs + [input]) == (SeenStructured(inputs) || input.Structured?)
  {
    var all := inputs + [input];
    assert Init(all) == inputs;
    if input.Structured? {
      assert all[|inputs|].Structured?;
    } else if SeenStructured(inputs) {
      var i :| 0 <= i < |inputs| && inputs[i].Structured?;
      assert all[i].Structured?;
    }
  }

  /**
   Input `i` is of use to the user interface: an event of the lead, a teammate's usage, or a chunk of
   agent output before any structured event.
   */
  ghost predicate Useful(inputs: seq<SessionEvent>, i: int, event: AgentEvent) {
    0 <= i < |inputs| &&
    match inputs[i]
    case Structured(e, Lead) => e == Some(event)
    case Structured(e, Teammate) => e == Some(event) && event.Usage?
    case Chunk(stream, e) =>
      stream == "agent" && e == Some(event) && forall j :: 0 <= j < i ==> !inputs[j].Structured?
    case Unrelated => false
  }

  /** The events that arrive are the useful ones, each once and in order. */
  lemma {:induction false} ArrivedExactly(inputs: seq<SessionEvent>) returns (from: seq<nat>)
    ensures |from| == |Arrived(inputs)|
    ensures forall a, b :: 0 <= a < b < |from| ==> from[a] < from[b]
    ensures forall k :: 0 <= k < |from| ==> Useful(inputs, from[k], Arrived(inputs)[k])
    ensures forall i, event :: Useful(inputs, i, event) ==> i in from
    decreases |inputs|
  {
    if inputs == [] {
      from := [];
    } else {
      var before, last := Init(inputs), |inputs| - 1;
      from := ArrivedExactly(before);
      forall i, event | i < last ensures Useful(inputs, i, event) <==> Useful(before, i, event) {}
      var handed := Handed(SeenStructured(before), inputs[last]);
      forall event ensures Useful(inputs, last, event) <==> handed == [event] {}
      if handed != [] {
        assert Useful(inputs, last, handed[0]);
        from := from + [last];
      }
    }
  }

  // -------------------------------------------------------------- which are kept

  predicate StartsAt(events: seq<AgentEvent>, k: int) {
    0 <= k < |events| && events[k].IterationStart?
  }

  /** Event `j` comes before event `i`, and no iteration starts after `j` up to `i`. */
  predicate SameIteration(events: seq<AgentEvent>, j: int, i: int) {
    0 <= j < i < |events| && forall k :: j < k <= i ==> !StartsAt(events, k)
  }

  /** A done event is kept if it beats every earlier one of its iteration; others always are. */
  ghost predicate Keep(events: seq<AgentEvent>, i: int)
    requires 0 <= i < |events|
  {
    events[i].Done? ==>
      forall j :: SameIteration(events, j, i) && events[j].Done? ==> Score(events[j]) < Score(events[i])
  }

  /** The subsequence of the events that are kept. */
  ghost function Kept(events: seq<AgentEvent>): seq<AgentEvent>
    decreases |events|
  {
    if events == [] then []
    else Kept(Init(events)) + (if Keep(events, |events| - 1) then [Last(events)] else [])
  }

  /** The best score of a done event of the current iteration, -1 if there is none. */
  function Best(events: seq<AgentEvent>): (best: int)
    ensures -1 <= best <= 8
    decreases |events|
  {
    if events == [] || Last(events).IterationStart? then -1
    else
      var before := Best(Init(events));
      if Last(events).Done? && Score(Last(events)) > before then Score(Last(events)) else before
  }

  lemma SameIterationExtends(events: seq<AgentEvent>, e: AgentEvent, j: int)
    requires events != [] && !e.IterationStart? && !Last(events).IterationStart?
    ensures j < |events| - 1 ==>
      (SameIteration(events + [e], j, |events|) <==> SameIteration(events, j, |events| - 1))
    ensures SameIteration(events + [e], |events| - 1, |events|)
  {
    var all := events + [e];
    assert forall k :: 0 <= k < |events| ==> StartsAt(all, k) == StartsAt(events, k);
  }

  /** `Best` is an upper bound for the current iteration, which event `e` continues. */
  lemma {:induction false} BestIsBound(events: seq<AgentEvent>, e: AgentEvent, j: int)
    requires !e.IterationStart? && SameIteration(events + [e], j, |events|) && events[j].Done?
    ensures Score(events[j]) <= Best(events)
    decreases |events|
  {
    assert !StartsAt(events + [e], |events| - 1) || j == |events| - 1;
    if j < |events| - 1 {
      SameIterationExtends(events, e, j);
      assert events == Init(events) + [Last(events)];
      BestIsBound(Init(events), Last(events), j);
    }
  }

  /** The bound is reached. */
  lemma {:induction false} BestIsReached(events: seq<AgentEvent>, e: AgentEvent) returns (j: nat)
    requires !e.IterationStart? && Best(events) >= 0
    ensures SameIteration(events + [e], j, |events|) && events[j].Done? && Score(events[j]) == Best(events)
    decreases |events|
  {
    SameIterationExtends(events, e, |events| - 1);
    if Last(events).Done? && Score(Last(events)) == Best(events) {
      j := |events| - 1;
    } else {
      assert events == Init(events) + [Last(events)];
      j := BestIsReached(Init(events), Last(events));
      SameIterationExtends(events, e, j);
    }
  }

  /** Remembering one done event is enough to decide. */
  lemma KeepIfBetter(events: seq<AgentEvent>, e: AgentEvent)
    ensures Kept(events + [e]) == if e.Done? && Score(e) <= Best(events) then Kept(events) else Kept(events) + [e]
  {
    var all := events + [e];
    assert Init(all) == events;
    if e.Done? {
      forall j | SameIteration(all, j, |events|) && all[j].Done? ensures Score(all[j]) <= Best(events) {
        BestIsBound(events, e, j);
      }
      if Score(e) <= Best(events) {
        var j := BestIsReached(events, e);
        assert all[j] == events[j];
      }
    }
  }

  lemma BestOfMore(events: seq<AgentEvent>, e: AgentEvent)
    ensures Best(events + [e]) == if e.IterationStart? then -1
                                  else if e.Done? && Score(e) > Best(events) then Score(e) else Best(events)
  {
    assert Init(events + [e]) == events;
  }

  /** The best done event of the current iteration is among the kept ones. */
  lemma {:induction false} KeptHasBest(events: seq<AgentEvent>)
    ensures Best(Kept(events)) == Best(events)
    decreases |events|
  {
    if events != [] {
      var before, last := Init(events), Last(events);
      assert events == before + [last];
      KeptHasBest(before);
      KeepIfBetter(before, last);
      BestOfMore(before, last);
      BestOfMore(Kept(before), last);
    }
  }

  // -------------------------------------------------------------- main results

  ghost predicate Increasing(events: seq<AgentEvent>) {
    forall a, b :: SameIteration(events, a, b) && events[a].Done? && events[b].Done? ==> Score(events[a]) < Score(events[b])
  }

  /** Between two iteration starts the scores of the forwarded done events strictly increase. */
  lemma {:induction false} KeptIncrease(events: seq<AgentEvent>)
    ensures Increasing(Kept(events))
    decreases |events|
  {
    if events != [] {
      var before, last := Init(events), Last(events);
      assert events == before + [last];
      KeptIncrease(before);
      KeepIfBetter(before, last);
      KeptHasBest(before);
      if Kept(events) != Kept(before) {
        AppendIncreases(Kept(before), last);
      }
    }
  }

  lemma AppendIncreases(kept: seq<AgentEvent>, e: AgentEvent)
    requires Increasing(kept) && (e.Done? ==> Score(e) > Best(kept))
    ensures Increasing(kept + [e])
  {
    var all := kept + [e];
    assert forall k :: 0 <= k < |kept| ==> StartsAt(all, k) == StartsAt(kept, k);
    forall a, b | SameIteration(all, a, b) && all[a].Done? && all[b].Done? ensures Score(all[a]) < Score(all[b]) {
      if b < |kept| {
        assert SameIteration(kept, a, b);
      } else {
        BestIsBound(kept, e, a);
      }
    }
  }

  /** The done events after the last iteration start. */
  function DoneCount(events: seq<AgentEvent>): nat
    decreases |events|
  {
    if events == [] || Last(events).IterationStart? then 0
    else DoneCount(Init(events)) + (if Last(events).Done? then 1 else 0)
  }

  /** At any moment at most nine done events of the current iteration have been forwarded. */
  lemma {:induction false} AtMostNine(events: seq<AgentEvent>)
    ensures DoneCount(Kept(events)) <= Best(events) + 1 <= 9
    decreases |events|
  {
    if events != [] {
      var before, last := Init(events), Last(events);
      assert events == before + [last];
      AtMostNine(before);
      KeepIfBetter(before, last);
      BestOfMore(before, last);
      assert Init(Kept(before) + [last]) == Kept(before);
    }
  }

  /** A done event with a given score. */
  function WithScore(score: nat): (e: AgentEvent)
    requires score <= 8
    ensures e.Done? && Score(e) == score
  {
    TrimNothing("x");
    var rest := if score == 3 then 0 else if score >= 5 then score - 3 else score;
    Done(if rest >= 2 then Some("x") else None, if rest >= 4 then Some(1) else None,
         score == 3 || score >= 5, if rest % 2 == 1 then "error" else "completed")
  }

  function Rising(count: nat): seq<AgentEvent>
    requires count <= 9
  {
    if count == 0 then [] else Rising(count - 1) + [WithScore(count - 1)]
  }

  lemma NothingKept()
    ensures Kept([]) == [] && Best([]) == -1
  {}

  /** The bound is reached: nine done events of rising score are all forwarded. */
  lemma {:induction false} NineReached(count: nat)
    requires count <= 9
    ensures Kept(Rising(count)) == Rising(count) && DoneCount(Rising(count)) == count
    ensures Best(Rising(count)) == count - 1
  {
    hide Kept, Best, Score, WithScore;
    if count == 0 {
      NothingKept();
    } else {
      NineReached(count - 1);
      var before, last := Rising(count - 1), WithScore(count - 1);
      KeepIfBetter(before, last);
      BestOfMore(before, last);
      assert Init(before + [last]) == before;
    }
  }

  function LastDone(events: seq<AgentEvent>): Option<AgentEvent>
    decreases |events|
  {
    if events == [] || Last(events).IterationStart? then None
    else if Last(events).Done? then Some(Last(events))
    else LastDone(Init(events))
  }

  lemma LastDoneOfMore(events: seq<AgentEvent>, e: AgentEvent)
    ensures LastDone(events + [e]) ==
      if e.IterationStart? then None else if e.Done? then Some(e) else LastDone(events)
  {
    assert Init(events + [e]) == events;
  }

  /** The done event forwarded last has the best score received in its iteration. */
  lemma {:induction false} LastForwardedIsBest(events: seq<AgentEvent>)
    ensures LastDone(Kept(events)).None? <==> Best(events) == -1
    ensures LastDone(Kept(events)).Some? ==> Score(LastDone(Kept(events)).value) == Best(events)
    decreases |events|
  {
    if events != [] {
      var before, last := Init(events), Last(events);
      assert events == before + [last];
      LastForwardedIsBest(before);
      hide Kept, Best, Score, LastDone;
      KeepIfBetter(before, last);
      BestOfMore(before, last);
      LastDoneOfMore(Kept(before), last);
    }
  }

  function NotDone(events: seq<AgentEvent>): seq<AgentEvent>
    decreases |events|
  {
    if events == [] then [] else NotDone(Init(events)) + (if Last(events).Done? then [] else [Last(events)])
  }

  /** All other events are forwarded unchanged and in order. */
  lemma {:induction false} OthersUnchanged(events: seq<AgentEvent>)
    ensures NotDone(Kept(events)) == NotDone(events)
    decreases |events|
  {
    if events != [] {
      var before, last := Init(events), Last(events);
      assert events == before + [last];
      OthersUnchanged(before);
      KeepIfBetter(before, last);
      assert Init(Kept(before) + [last]) == Kept(before);
    }
  }

  /** The variables of one subscription and the events its callback has been given. */
  class Subscription {
    var hasSeenStructuredAgentEvent: bool
    var lastDoneEvent: Option<AgentEvent>
    var forwarded: seq<AgentEvent>
    ghost var arrived: seq<AgentEvent>
    ghost var inputs: seq<SessionEvent>

    ghost predicate Valid()
      reads this
    {
      && forwarded == Kept(arrived)
      && lastDoneEvent == LastDone(forwarded)
    }

    ghost predicate UpToDate()
      reads this
    {
      Valid() && arrived == Arrived(inputs) && hasSeenStructuredAgentEvent == SeenStructured(inputs)
    }

    constructor ()
      ensures UpToDate() && inputs == []
    {
      hasSeenStructuredAgentEvent, lastDoneEvent, forwarded := false, None, [];
      arrived, inputs := [], [];
    }

    method EmitAgentEvent(event: AgentEvent)
      requires Valid()
      modifies `lastDoneEvent, `forwarded, `arrived
      ensures Valid() && arrived == old(arrived) + [event]
    {
      KeepIfBetter(arrived, event);
      LastForwardedIsBest(arrived);
      arrived := arrived + [event];
      assert Init(forwarded + [event]) == forwarded;
      if event.IterationStart? {
        lastDoneEvent := None;
      }
      if event.Done? {
        if lastDoneEvent.Some? && Score(event) <= Score(lastDoneEvent.value) {
          return;
        }
        lastDoneEvent := Some(event);
      }
      forwarded := forwarded + [event];
    }

    /** The callback has been given exactly the kept events among those that arrived. */
    method OnSessionEvent(input: SessionEvent)
      requires UpToDate()
      modifies this
      ensures UpToDate() && inputs == old(inputs) + [input]
      ensures forwarded == Kept(Arrived(inputs))
    {
      hide Arrived, SeenStructured, Kept, LastDone;
      ArrivedMore(inputs, input);
      inputs := inputs + [input];
      match input
      case Structured(event, role) =>
        hasSeenStructuredAgentEvent := true;
        if event.Some? && (role != Teammate || event.value.Usage?) {
          EmitAgentEvent(event.value);
        }
      case Chunk(stream, parsed) =>
        if hasSeenStructuredAgentEvent {
          return;
        }
        if stream != "agent" {
          return;
        }
        if parsed.Some? {
          EmitAgentEvent(parsed.value);
        }
      case Unrelated =>
    }
  }
}
