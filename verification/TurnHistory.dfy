/**
 A turn of `RuntimeTurn` told by the events that have come: where the request stands, which errors
 were pushed and what text was streamed, without looking at the fields of the generator.
 */
module TurnHistory {
  import opened Prelude
  import opened RuntimeTurn

  /** A failed event has come. */
  ghost predicate HasFailed(es: seq<Event>) {
    exists m :: FailedEvent(m) in es
  }

  /** What the request or `onCompleted` was last rejected with. */
  function Reason(es: seq<Event>): string {
    if es == [] then ""
    else
      var last := es[|es| - 1];
      match last
      case Respond(Rejected(m)) => m
      case CompletedCalled(Some(m)) => m
      case _ => Reason(es[..|es| - 1])
  }

  /** The errors raised by the events: failed events, stream errors, and reported rejections. */
  function Raised(es: seq<Event>): seq<string> {
    if es == [] then []
    else
      var before := es[..|es| - 1];
      Raised(before) +
      match es[|es| - 1]
      case FailedEvent(m) => [m]
      case StreamError(m) => [m]
      case FailedCalled(false) => [Reason(before)]
      case _ => []
  }

  /** The messages of the errors among the items. */
  function Errors(items: seq<Item>): seq<string> {
    if items == [] then []
    else
      var last := items[|items| - 1];
      Errors(items[..|items| - 1]) + if last.Error? then [last.message] else []
  }

  /** The texts carried by the text events, one after the other. */
  function Texts(es: seq<Event>): string {
    if es == [] then ""
    else
      var last := es[|es| - 1];
      Texts(es[..|es| - 1]) + if last.TextEvent? then last.payload.text.GetOr("") else ""
  }

  lemma ErrorsSnoc(items: seq<Item>, item: Item)
    ensures Errors(items + [item]) == Errors(items) + if item.Error? then [item.message] else []
  {
    assert (items + [item])[..|items|] == items;
  }

  lemma HasFailedSnoc(es: seq<Event>, e: Event)
    ensures HasFailed(es + [e]) <==> HasFailed(es) || e.FailedEvent?
  {
    if e.FailedEvent? {
      assert FailedEvent(e.message) in es + [e];
    }
    if HasFailed(es) {
      var m :| FailedEvent(m) in es;
      assert FailedEvent(m) in es + [e];
    }
  }

  lemma {:induction false} RunParts(s: Turn, es: seq<Event>, fs: seq<Event>)
    requires Run(s, es + fs).Some?
    ensures Run(s, es).Some? && Run(s, es + fs) == Run(Run(s, es).value, fs)
    decreases |es|
  {
    hide Apply, Enabled;
    if es == [] {
      assert es + fs == fs;
    } else {
      assert (es + fs)[1..] == es[1..] + fs;
      RunParts(Apply(s, es[0]), es[1..], fs);
    }
  }

  /** The last event of a run. */
  lemma RunLast(s: Turn, es: seq<Event>) returns (before: Turn)
    requires es != [] && Run(s, es).Some?
    ensures Run(s, es[..|es| - 1]) == Some(before)
    ensures Enabled(before, es[|es| - 1]) && Run(s, es) == Some(Apply(before, es[|es| - 1]))
  {
    hide Apply, Enabled;
    var k := |es| - 1;
    assert es == es[..k] + [es[k]];
    RunParts(s, es[..k], [es[k]]);
    before := Run(s, es[..k]).value;
    assert [es[k]][1..] == [];
  }

  /** The request has not been answered. */
  ghost predicate NoAnswer(es: seq<Event>) {
    forall r :: Respond(r) !in es
  }

  lemma NoAnswerSnoc(es: seq<Event>, e: Event)
    ensures NoAnswer(es + [e]) <==> NoAnswer(es) && !e.Respond?
  {
    if e.Respond? {
      assert Respond(e.response) in es + [e];
    }
    if NoAnswer(es + [e]) {
      forall r ensures Respond(r) !in es {
        assert Respond(r) !in es + [e];
      }
    }
  }

  /** What the events say about the request and the errors. */
  ghost predicate ToldRequest(es: seq<Event>, s: Turn) {
    && (s.failed <==> HasFailed(es))
    && (s.producer.Sending? <==> NoAnswer(es))
    && (s.producer.Completing? ==> Respond(Result(s.producer.text)) in es)
    && (s.producer.Failing? ==> s.producer.message == Reason(es))
    && (s.producer.Ended? <==> Finally in es)
    && (s.completed.Some? <==> CompletedCalled(None) in es)
    && (s.completed.Some? ==> Respond(Result(s.completed.value)) in es)
  }

  ghost predicate Told(es: seq<Event>, s: Turn) {
    && ToldRequest(es, s)
    && Errors(Pushed(s)) == Raised(es)
  }

  /** What a step does to the request. */
  lemma RequestStep(s: Turn, e: Event)
    requires Enabled(s, e)
    ensures Apply(s, e).failed == (s.failed || e.FailedEvent?)
    ensures Apply(s, e).completed == if e == CompletedCalled(None) then Some(s.producer.text) else s.completed
    ensures Apply(s, e).producer ==
      match e
      case Respond(Result(text)) => if s.failed then Settled else Completing(text)
      case Respond(Rejected(m)) => if s.failed then Settled else Failing(m)
      case CompletedCalled(Some(m)) => if s.failed then Settled else Failing(m)
      case Respond(Queued) => Settled
      case CompletedCalled(None) => Settled
      case FailedCalled(_) => Settled
      case Finally => Ended
      case _ => s.producer
  {
    hide ResolveTextDelta;
  }

  /** What a step pushes. */
  lemma PushedStep(s: Turn, e: Event)
    requires Enabled(s, e)
    ensures Pushed(Apply(s, e)) == Pushed(s) +
      match e
      case TextEvent(p) =>
        var r := ResolveTextDelta(p, s.streamed);
        if r.delta == "" then [] else [Chunk(r.delta)]
      case FailedEvent(m) => [Error(m)]
      case StreamError(m) => [Error(m)]
      case CompletedCalled(None) =>
        var rest := Remainder(s.producer.text, s.streamed);
        if rest == "" then [] else [Chunk(rest)]
      case FailedCalled(false) => [Error(s.producer.message)]
      case Finally => [End]
      case _ => []
  {
    hide ResolveTextDelta, Remainder, Push, Text;
    match e
    case TextEvent(p) =>
      var r := ResolveTextDelta(p, s.streamed);
      var t := s.(streamed := r.nextText);
      PushText(t, Chunk(r.delta));
    case FailedEvent(m) => PushText(s.(failed := true), Error(m));
    case StreamError(m) => PushText(s, Error(m));
    case CompletedCalled(None) =>
      var rest := Remainder(s.producer.text, s.streamed);
      PushText(s.(producer := Settled, completed := Some(s.producer.text), remainder := rest), Chunk(rest));
    case FailedCalled(_) => PushText(s.(producer := Settled), Error(s.producer.message));
    case Finally => PushText(s.(streaming := false, producer := Ended), End);
    case Pull => TakePushed(s);
    case _ =>
  }

  lemma ErrorsStep(s: Turn, e: Event)
    requires Enabled(s, e)
    ensures Errors(Pushed(Apply(s, e))) == Errors(Pushed(s)) +
      match e
      case FailedEvent(m) => [m]
      case StreamError(m) => [m]
      case FailedCalled(false) => [s.producer.message]
      case _ => []
  {
    PushedStep(s, e);
    hide Apply, Pushed, Remainder, ResolveTextDelta;
    var before, after := Pushed(s), Pushed(Apply(s, e));
    if after != before {
      ErrorsSnoc(before, after[|before|]);
    }
  }

  lemma Snoc(es: seq<Event>, e: Event)
    ensures forall x :: x in es + [e] <==> x in es || x == e
    ensures Reason(es + [e]) ==
      match e
      case Respond(Rejected(m)) => m
      case CompletedCalled(Some(m)) => m
      case _ => Reason(es)
    ensures Raised(es + [e]) == Raised(es) +
      match e
      case FailedEvent(m) => [m]
      case StreamError(m) => [m]
      case FailedCalled(false) => [Reason(es)]
      case _ => []
  {
    assert (es + [e])[..|es|] == es;
  }

  lemma ToldRequestStep(es: seq<Event>, s: Turn, e: Event)
    requires ToldRequest(es, s) && Enabled(s, e)
    ensures ToldRequest(es + [e], Apply(s, e))
  {
    HasFailedSnoc(es, e);
    NoAnswerSnoc(es, e);
    RequestStep(s, e);
    Snoc(es, e);
    hide Apply, HasFailed, NoAnswer, Reason, Raised, Listening;
  }

  lemma ToldStep(es: seq<Event>, s: Turn, e: Event)
    requires Told(es, s) && Enabled(s, e)
    ensures Told(es + [e], Apply(s, e))
  {
    ToldRequestStep(es, s, e);
    ErrorsStep(s, e);
    Snoc(es, e);
    hide Apply, Pushed, Errors, Reason, Raised;
  }

  lemma {:induction false} RunTold(es: seq<Event>, s: Turn)
    requires Run(INITIAL, es) == Some(s)
    ensures Told(es, s)
    decreases |es|
  {
    hide Apply, Enabled, Told;
    if es == [] {
      ToldNothing();
    } else {
      var k := |es| - 1;
      var before := RunLast(INITIAL, es);
      RunTold(es[..k], before);
      ToldStep(es[..k], before, es[k]);
      assert es == es[..k] + [es[k]];
    }
  }

  lemma Reachable(es: seq<Event>, s: Turn)
    requires Run(INITIAL, es) == Some(s)
    ensures Inv(s)
  {
    InitialInv();
    hide Inv, Run;
    RunInv(INITIAL, es);
  }

  lemma ToldNothing()
    ensures Told([], INITIAL)
  {}

  // --- Main results --------------------------------------------------------------------------

  /** The errors pushed are those raised by the events: each once, in their order, and no others. */
  lemma ErrorsExactly(es: seq<Event>, s: Turn)
    requires Run(INITIAL, es) == Some(s)
    ensures Errors(Pushed(s)) == Raised(es)
  {
    hide Run;
    RunTold(es, s);
  }

  /** Items are only ever added behind those pushed before. */
  lemma {:induction false} PushedGrows(s: Turn, es: seq<Event>, t: Turn)
    requires Run(s, es) == Some(t)
    ensures Pushed(s) <= Pushed(t)
    decreases |es|
  {
    hide Apply, Enabled, Pushed, ResolveTextDelta, Remainder;
    if es != [] {
      PushedStep(s, es[0]);
      PushedGrows(Apply(s, es[0]), es[1..], t);
    }
  }

  /** The request answers once; whether its callbacks are called depends on the failed events before. */
  lemma RespondExactly(es: seq<Event>, r: Response, s: Turn)
    requires Run(INITIAL, es + [Respond(r)]) == Some(s)
    ensures NoAnswer(es)
    ensures s.producer ==
      if HasFailed(es) || r.Queued? then Settled
      else match r
        case Result(text) => Completing(text)
        case Rejected(m) => Failing(m)
        case Queued => Settled
  {
    hide Apply, Run, HasFailed;
    var all := es + [Respond(r)];
    assert all[..|es|] == es;
    var before := RunLast(INITIAL, all);
    RunTold(es, before);
    RequestStep(before, Respond(r));
  }

  /** `onCompleted` is called with the result only; if it throws, `onFailed` is next unless an event failed. */
  lemma CompletedExactly(es: seq<Event>, thrown: Option<string>, s: Turn)
    requires Run(INITIAL, es + [CompletedCalled(thrown)]) == Some(s)
    ensures s.completed.Some? <==> thrown.None?
    ensures s.completed.Some? ==> Respond(Result(s.completed.value)) in es
    ensures s.producer == if thrown.None? || HasFailed(es) then Settled else Failing(thrown.value)
  {
    hide Apply, Run, HasFailed;
    var all := es + [CompletedCalled(thrown)];
    assert all[..|es|] == es;
    var before := RunLast(INITIAL, all);
    RunTold(es, before);
    Reachable(es, before);
    hide Inv;
    ListeningOrOpen(before);
    RequestStep(before, CompletedCalled(thrown));
  }

  lemma ListeningOrOpen(s: Turn)
    requires Inv(s) && s.producer.Completing?
    ensures s.completed.None?
  {}

  /** The stream is subscribed to until the consumer leaves its loop or the request has ended. */
  predicate Subscribed(s: Turn) {
    s.streaming <==> !Left(s.consumer) && !s.producer.Ended?
  }

  lemma {:induction false} RunSubscribed(s: Turn, es: seq<Event>, t: Turn)
    requires Subscribed(s) && Run(s, es) == Some(t)
    ensures Subscribed(t)
    decreases |es|
  {
    if es != [] {
      SubscribedStep(s, es[0]);
      hide Subscribed, Apply, Enabled;
      RunSubscribed(Apply(s, es[0]), es[1..], t);
    }
  }

  lemma SubscribedStep(s: Turn, e: Event)
    requires Subscribed(s) && Enabled(s, e)
    ensures Subscribed(Apply(s, e))
  {
    hide ResolveTextDelta;
  }

  /**
   Hub events can come exactly while the consumer is in its loop and the request is not settled; so
   after an error has been taken none does.
   */
  lemma ListensExactly(es: seq<Event>, s: Turn, p: TextPayload, m: string)
    requires Run(INITIAL, es) == Some(s)
    ensures Enabled(s, TextEvent(p)) <==>
      !(exists i :: 0 <= i < |s.taken| && !s.taken[i].Chunk?) && !s.producer.Settled? && Finally !in es
    ensures Enabled(s, FailedEvent(m)) <==> Enabled(s, TextEvent(p))
  {
    RunSubscribed(INITIAL, es, s);
    RunTold(es, s);
    Reachable(es, s);
    hide Run, Text, ProducerInv, TextInv;
    assert Left(s.consumer) <==> exists i :: 0 <= i < |s.taken| && !s.taken[i].Chunk?;
  }

  /** The event decides the request: a callback has returned, or a failed event has reported it before. */
  ghost predicate Decides(es: seq<Event>, e: Event) {
    || e.FailedCalled?
    || e == CompletedCalled(None)
    || e == Respond(Queued)
    || (HasFailed(es) && (e.Respond? || e.CompletedCalled?))
  }

  /** No callback of the request is called. */
  ghost predicate NoCallback(es: seq<Event>) {
    forall e :: e in es ==> !e.CompletedCalled? && !e.FailedCalled?
  }

  lemma {:induction false} SettledStays(s: Turn, es: seq<Event>, t: Turn)
    requires Run(s, es) == Some(t) && (s.producer.Settled? || s.producer.Ended?)
    ensures NoCallback(es) && t.completed == s.completed && (t.producer.Settled? || t.producer.Ended?)
    decreases |es|
  {
    if es != [] {
      RequestStep(s, es[0]);
      assert !es[0].CompletedCalled? && !es[0].FailedCalled?;
      hide Apply, Enabled;
      SettledStays(Apply(s, es[0]), es[1..], t);
      assert es == [es[0]] + es[1..];
    }
  }

  /**
   Once the request is decided, neither callback is called again in any continuation: a turn that
   failed before its answer never completes, and its failure is not reported a second time.
   */
  lemma DecidedOnce(es: seq<Event>, e: Event, fs: seq<Event>, t: Turn)
    requires Run(INITIAL, es + [e] + fs) == Some(t) && Decides(es, e)
    ensures NoCallback(fs) && (t.producer.Settled? || t.producer.Ended?)
    ensures t.completed.Some? <==> CompletedCalled(None) in es + [e]
    ensures HasFailed(es) && e.Respond? ==> t.completed.None?
  {
    hide Apply, Run, HasFailed, NoCallback;
    RunParts(INITIAL, es + [e], fs);
    var s := Run(INITIAL, es + [e]).value;
    assert (es + [e])[..|es|] == es;
    var before := RunLast(INITIAL, es + [e]);
    RunTold(es, before);
    RunTold(es + [e], s);
    RequestStep(before, e);
    SettledStays(s, fs, t);
    if e.Respond? {
      Reachable(es, before);
      SendingIsOpen(before);
    }
  }

  lemma SendingIsOpen(s: Turn)
    requires Inv(s) && s.producer.Sending?
    ensures s.completed.None?
  {}

  /** No text event carries an accumulated text that continues a text that begins with `c`. */
  ghost predicate Apart(es: seq<Event>, c: char) {
    forall e :: e in es && e.TextEvent? && e.payload.accumulated.Some? ==>
      e.payload.accumulated.value != "" && e.payload.accumulated.value[0] != c
  }

  lemma {:induction false} TextsFirst(e: Event, es: seq<Event>)
    ensures Texts([e] + es) == (if e.TextEvent? then e.payload.text.GetOr("") else "") + Texts(es)
    decreases |es|
  {
    if es == [] {
      assert [e] + es == [e];
    } else {
      var k := |es| - 1;
      assert [e] + es == ([e] + es[..k]) + [es[k]];
      assert ([e] + es)[..|es|] == [e] + es[..k];
      TextsFirst(e, es[..k]);
    }
  }

  lemma StreamedStep(s: Turn, e: Event)
    requires Enabled(s, e)
    ensures Apply(s, e).streamed ==
      if e.TextEvent? then ResolveTextDelta(e.payload, s.streamed).nextText else s.streamed
  {
    hide ResolveTextDelta;
  }

  /** Two non-empty texts with different first characters: neither starts with the other. */
  lemma Diverged(p: TextPayload, previous: string)
    requires previous != ""
    requires p.accumulated.Some? ==> p.accumulated.value != "" && p.accumulated.value[0] != previous[0]
    ensures ResolveTextDelta(p, previous).nextText == previous + p.text.GetOr("")
  {}

  /** Accumulated texts that do not continue the streamed text are not used: the texts are appended. */
  lemma {:induction false} AppendsTexts(s: Turn, es: seq<Event>, t: Turn)
    requires Run(s, es) == Some(t) && s.streamed != "" && Apart(es, s.streamed[0])
    ensures t.streamed == s.streamed + Texts(es)
    decreases |es|
  {
    if es != [] {
      StreamedStep(s, es[0]);
      TextsFirst(es[0], es[1..]);
      assert es == [es[0]] + es[1..];
      if es[0].TextEvent? {
        Diverged(es[0].payload, s.streamed);
      }
      hide Apply, Enabled, Texts, ResolveTextDelta;
      AppendsTexts(Apply(s, es[0]), es[1..], t);
    }
  }

  /** Without accumulated texts the streamed text is the texts of the events. */
  lemma {:induction false} StreamsTexts(s: Turn, es: seq<Event>, t: Turn)
    requires Run(s, es) == Some(t)
    requires forall e :: e in es && e.TextEvent? ==> e.payload.accumulated.None?
    ensures t.streamed == s.streamed + Texts(es)
    decreases |es|
  {
    if es != [] {
      StreamedStep(s, es[0]);
      TextsFirst(es[0], es[1..]);
      assert es == [es[0]] + es[1..];
      hide Apply, Enabled, Texts;
      StreamsTexts(Apply(s, es[0]), es[1..], t);
    }
  }
}
