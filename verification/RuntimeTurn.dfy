/**
 The text stream of one connector turn, apps/cli/src/connectors/runtime-turn.ts: hub events and
 the settling request push into a queue, an async generator pulls from it. Each step runs from one
 await to the next, and the steps of the three parties interleave freely, with one restriction: hub
 events come from the socket's message listener, so none comes while the settled request is on its
 way to its finally handler, which takes promise callbacks only. An error of the event stream itself
 comes from a promise callback and may come at any time.
 */
module RuntimeTurn {
  import opened Prelude

  datatype Item = Chunk(value: string) | Error(message: string) | End

  /** The two payload fields of a text event; a field that is not a string is `None`. */
  datatype TextPayload = TextPayload(accumulated: Option<string>, text: Option<string>)

  datatype Resolved = Resolved(delta: string, nextText: string)

  function ResolveTextDelta(p: TextPayload, previous: string): Resolved {
    if p.accumulated.Some? && previous <= p.accumulated.value then
      Resolved(p.accumulated.value[|previous|..], p.accumulated.value)
    else if p.accumulated.Some? && p.accumulated.value <= previous then
      Resolved("", previous)
    else
      var text := p.text.GetOr("");
      Resolved(text, previous + text)
  }

  /** What the request settles with: no result (the prompt was queued), a result, or an error. */
  datatype Response = Queued | Result(text: string) | Rejected(message: string)

  datatype Producer =
    | Sending
    | Completing(text: string)     // awaiting onCompleted
    | Failing(message: string)     // awaiting onFailed
    | Settled                      // before the finally handler, promise callbacks away
    | Ended

  datatype Consumer =
    | Ready
    | Waiting(woken: bool)
    | Yielding
    | Closing(error: Option<string>)    // in its finally block, awaiting the request
    | Stopped(error: Option<string>)    // the caller's next() has settled

  /**
   The fields of the generator, and history: the items taken from the queue, the text the request
   completed with and the part of it that was pushed then (`remainder`).
   */
  datatype Turn = Turn(
    queue: seq<Item>, notify: bool, streamed: string, failed: bool, streaming: bool,
    producer: Producer, consumer: Consumer,
    taken: seq<Item>, completed: Option<string>, remainder: string)

  datatype Event =
    | TextEvent(payload: TextPayload)
    | FailedEvent(message: string)
    | StreamError(message: string)
    | Respond(response: Response)
    | CompletedCalled(thrown: Option<string>)
    | FailedCalled(threw: bool)
    | Finally
    | Pull
    | Next
    | Close

  const INITIAL := Turn([], false, "", false, true, Sending, Ready, [], None, "")

  function Push(s: Turn, item: Item): Turn {
    s.(queue := s.queue + [item], notify := false,
       consumer := if s.notify && s.consumer.Waiting? then Waiting(true) else s.consumer)
  }

  /** A hub event can come. */
  predicate Listening(s: Turn) {
    s.streaming && !s.producer.Settled?
  }

  predicate Enabled(s: Turn, e: Event) {
    match e
    case TextEvent(_) => Listening(s)
    case FailedEvent(_) => Listening(s)
    case StreamError(_) => true
    case Respond(_) => s.producer.Sending?
    case CompletedCalled(_) => s.producer.Completing?
    case FailedCalled(_) => s.producer.Failing?
    case Finally => s.producer.Settled?
    case Pull => s.consumer.Ready? || s.consumer == Waiting(true)
    case Next => s.consumer.Yielding?
    case Close => s.consumer.Closing? && s.producer.Ended?
  }

  /** The catch handler, entered with an error. */
  function Catch(s: Turn, message: string): Turn {
    s.(producer := if s.failed then Settled else Failing(message))
  }

  /** Takes the first item; an empty queue sends the consumer to sleep. */
  function Take(s: Turn): Turn {
    if s.queue == [] then
      if s.consumer.Ready? then s.(consumer := Waiting(false), notify := true) else s.(consumer := Ready)
    else
      var t := s.(queue := s.queue[1..], taken := s.taken + [s.queue[0]]);
      match s.queue[0]
      case Chunk(_) => t.(consumer := Yielding)
      case Error(m) => t.(consumer := Closing(Some(m)), streaming := false)
      case End => t.(consumer := Closing(None), streaming := false)
  }

  function Apply(s: Turn, e: Event): Turn
    requires Enabled(s, e)
  {
    match e
    case TextEvent(p) =>
      var r := ResolveTextDelta(p, s.streamed);
      var t := s.(streamed := r.nextText);
      if r.delta == "" then t else Push(t, Chunk(r.delta))
    case FailedEvent(m) => Push(s.(failed := true), Error(m))
    case StreamError(m) => Push(s, Error(m))
    case Respond(Queued) => s.(producer := Settled)
    case Respond(Result(text)) => s.(producer := if s.failed then Settled else Completing(text))
    case Respond(Rejected(m)) => Catch(s, m)
    case CompletedCalled(Some(m)) => Catch(s, m)
    case CompletedCalled(None) =>
      var text := s.producer.text;
      var rest := Remainder(text, s.streamed);
      var t := s.(producer := Settled, completed := Some(text), remainder := rest);
      if rest == "" then t else Push(t, Chunk(rest))
    case FailedCalled(threw) =>
      var t := s.(producer := Settled);
      if threw then t else Push(t, Error(s.producer.message))
    case Finally => Push(s.(streaming := false, producer := Ended), End)
    case Pull => Take(s)
    case Next => s.(consumer := Ready)
    case Close => s.(consumer := Stopped(s.consumer.error))
  }

  function Run(s: Turn, es: seq<Event>): Option<Turn>
    decreases |es|
  {
    if es == [] then Some(s)
    else if Enabled(s, es[0]) then Run(Apply(s, es[0]), es[1..])
    else None
  }

  // --- Meaning -------------------------------------------------------------------------------

  /** The text of the chunks among the items. */
  function Text(items: seq<Item>): string {
    if items == [] then ""
    else
      var last := items[|items| - 1];
      Text(items[..|items| - 1]) + if last.Chunk? then last.value else ""
  }

  /** Every item pushed so far, in order. */
  function Pushed(s: Turn): seq<Item> {
    s.taken + s.queue
  }

  /** What the consumer has received: the chunks before the item that stopped it. */
  function Delivered(s: Turn): string {
    Text(s.taken)
  }

  /** The consumer has left its loop. */
  predicate Left(c: Consumer) {
    c.Closing? || c.Stopped?
  }

  function ErrorOf(item: Item): Option<string> {
    if item.Error? then Some(item.message) else None
  }

  /** The state of the consumer agrees with its last item, the queue and the notifier. */
  ghost predicate ConsumerInv(s: Turn) {
    && (s.notify <==> s.consumer == Waiting(false))
    && (s.consumer == Waiting(false) ==> s.queue == [])
    && (s.consumer == Waiting(true) ==> s.queue != [])
    && (forall i :: 0 <= i < |s.taken| - 1 ==> s.taken[i].Chunk?)
    && (Left(s.consumer) ==>
          var last := |s.taken| - 1;
          last >= 0 && !s.taken[last].Chunk? && s.consumer.error == ErrorOf(s.taken[last]))
    && (!Left(s.consumer) && s.taken != [] ==> s.taken[|s.taken| - 1].Chunk?)
  }

  /** The end item is pushed once, when the hub events have been cut off; only errors follow it. */
  ghost predicate ProducerInv(s: Turn) {
    && (forall i :: 0 <= i < |Pushed(s)| && Pushed(s)[i].End? ==> s.producer.Ended?)
    && (forall i, j :: 0 <= i < j < |Pushed(s)| && Pushed(s)[i].End? ==> Pushed(s)[j].Error?)
    && (s.producer.Ended? ==> !s.streaming && exists i :: 0 <= i < |Pushed(s)| && Pushed(s)[i].End?)
    && (s.completed.Some? ==> s.producer.Settled? || s.producer.Ended?)
    && (s.consumer.Stopped? ==> s.producer.Ended?)
  }

  /** What the request completed with, beyond what had been streamed. */
  function Remainder(text: string, streamed: string): string {
    if streamed <= text then text[|streamed|..] else ""
  }

  /** The text pushed is the text streamed, then the remainder once the request has completed. */
  ghost predicate TextInv(s: Turn) {
    && s.remainder == (if s.completed.Some? then Remainder(s.completed.value, s.streamed) else "")
    && Text(Pushed(s)) == s.streamed + s.remainder
  }

  ghost predicate Inv(s: Turn) {
    ConsumerInv(s) && ProducerInv(s) && TextInv(s)
  }

  lemma TextSnoc(items: seq<Item>, item: Item)
    ensures Text(items + [item]) == Text(items) + if item.Chunk? then item.value else ""
  {
    assert (items + [item])[..|items|] == items;
  }

  lemma PushConsumer(s: Turn, item: Item)
    requires ConsumerInv(s)
    ensures ConsumerInv(Push(s, item))
  {}

  /** Pushing an item appends it and its text. */
  lemma PushText(s: Turn, item: Item)
    ensures Pushed(Push(s, item)) == Pushed(s) + [item]
    ensures Text(Pushed(Push(s, item))) == Text(Pushed(s)) + if item.Chunk? then item.value else ""
  {
    assert Pushed(Push(s, item)) == Pushed(s) + [item];
    TextSnoc(Pushed(s), item);
  }

  lemma PushProducer(s: Turn, item: Item)
    requires ProducerInv(s) && !item.End? && (s.producer.Ended? ==> item.Error?)
    ensures ProducerInv(Push(s, item))
  {
    PushText(s, item);
    var all, more := Pushed(s), Pushed(Push(s, item));
    assert more == all + [item];
    hide Text, Pushed;
    if s.producer.Ended? {
      var i :| 0 <= i < |all| && all[i].End?;
      assert more[i].End?;
    }
  }

  /** A push of something other than a chunk keeps the invariant. */
  lemma PushInv(s: Turn, item: Item)
    requires Inv(s) && item.Error?
    ensures Inv(Push(s, item))
  {
    hide Text;
    PushConsumer(s, item);
    PushProducer(s, item);
    hide ConsumerInv, ProducerInv;
    PushText(s, item);
  }

  lemma PushedSame(s: Turn, t: Turn)
    requires t.taken == s.taken && t.queue == s.queue
    ensures Pushed(t) == Pushed(s)
  {}

  /** The delta is exactly what the streamed text grows by. */
  lemma DeltaExtends(p: TextPayload, previous: string)
    ensures ResolveTextDelta(p, previous).nextText == previous + ResolveTextDelta(p, previous).delta
  {}

  /** Hub events come before completion only. */
  lemma ListeningMeansOpen(s: Turn)
    requires ProducerInv(s) && Listening(s)
    ensures s.completed.None? && !s.producer.Ended?
  {}

  lemma TextEventInv(s: Turn, p: TextPayload)
    requires Inv(s) && Listening(s)
    ensures Inv(Apply(s, TextEvent(p)))
  {
    hide Text, ResolveTextDelta, Push;
    var r := ResolveTextDelta(p, s.streamed);
    var t := s.(streamed := r.nextText);
    ListeningMeansOpen(s);
    PushedSame(s, t);
    PushText(t, Chunk(r.delta));
    DeltaExtends(p, s.streamed);
    SameParties(s, t);
    hide ConsumerInv, ProducerInv;
    PushConsumer(t, Chunk(r.delta));
    PushProducer(t, Chunk(r.delta));
    PushKeeps(t, Chunk(r.delta));
    assert s.streamed + "" == s.streamed && r.nextText + "" == r.nextText;
  }

  lemma PushKeeps(s: Turn, item: Item)
    ensures Push(s, item).streamed == s.streamed && Push(s, item).completed == s.completed
    ensures Push(s, item).remainder == s.remainder
  {}

  /** Consumer and producer do not depend on the texts. */
  lemma SameParties(s: Turn, t: Turn)
    requires ConsumerInv(s) && ProducerInv(s)
    requires t == s.(streamed := t.streamed, producer := t.producer, completed := t.completed, remainder := t.remainder)
    requires t.producer == s.producer || (!s.producer.Ended? && t.producer.Settled?)
    requires t.completed.Some? ==> t.producer.Settled? || t.producer.Ended?
    ensures ConsumerInv(t) && ProducerInv(t)
  {
    PushedSame(s, t);
    hide Pushed;
  }

  lemma CompletedInv(s: Turn)
    requires Inv(s) && s.producer.Completing?
    ensures Inv(Apply(s, CompletedCalled(None)))
  {
    hide Text, Push;
    var rest := Remainder(s.producer.text, s.streamed);
    var t := s.(producer := Settled, completed := Some(s.producer.text), remainder := rest);
    assert s.completed.None?;
    PushedSame(s, t);
    PushText(t, Chunk(rest));
    SameParties(s, t);
    hide ConsumerInv, ProducerInv;
    PushConsumer(t, Chunk(rest));
    PushProducer(t, Chunk(rest));
    PushKeeps(t, Chunk(rest));
    assert s.streamed + "" == s.streamed;
  }

  /** A step that only moves the producer keeps the invariant. */
  lemma RelabelInv(s: Turn, t: Turn)
    requires Inv(s) && !s.producer.Ended? && !t.producer.Ended?
    requires t == s.(failed := t.failed, producer := t.producer)
    requires s.completed.Some? ==> t.producer.Settled?
    ensures Inv(t)
  {
    hide Text;
  }

  lemma TakeConsumer(s: Turn)
    requires ConsumerInv(s) && Enabled(s, Pull)
    ensures ConsumerInv(Take(s))
  {}

  lemma TakePushed(s: Turn)
    ensures Pushed(Take(s)) == Pushed(s)
  {
    if s.queue != [] {
      assert s.queue == [s.queue[0]] + s.queue[1..];
    }
  }

  /** Producer and text agree with the items pushed, wherever those are. */
  lemma ItemsMoveInv(s: Turn, t: Turn)
    requires ProducerInv(s) && TextInv(s) && Pushed(t) == Pushed(s)
    requires t == s.(queue := t.queue, taken := t.taken, consumer := t.consumer, notify := t.notify, streaming := t.streaming)
    requires (t.streaming ==> s.streaming) && !t.consumer.Stopped?
    ensures ProducerInv(t) && TextInv(t)
  {
    hide Pushed, Text;
  }

  lemma TakeInv(s: Turn)
    requires Inv(s) && Enabled(s, Pull)
    ensures Inv(Take(s))
  {
    hide ConsumerInv, ProducerInv, TextInv, Pushed;
    TakeConsumer(s);
    TakePushed(s);
    ItemsMoveInv(s, Take(s));
  }

  lemma FinallyInv(s: Turn)
    requires Inv(s) && s.producer.Settled?
    ensures Inv(Push(s.(streaming := false, producer := Ended), End))
  {
    var t := s.(streaming := false, producer := Ended);
    var u := Push(t, End);
    PushedSame(s, t);
    PushText(t, End);
    PushConsumer(t, End);
    hide ConsumerInv, Text, Pushed;
    assert Pushed(u)[|Pushed(s)|].End?;
  }

  lemma FinallyPushes(s: Turn)
    requires s.producer.Settled?
    ensures Apply(s, Finally) == Push(s.(streaming := false, producer := Ended), End)
  {}

  lemma CloseInv(s: Turn)
    requires Inv(s) && Enabled(s, Close)
    ensures Inv(Apply(s, Close))
  {
    hide Text;
    PushedSame(s, Apply(s, Close));
    hide Pushed;
  }

  lemma ResumeInv(s: Turn)
    requires Inv(s) && s.consumer.Yielding?
    ensures Inv(s.(consumer := Ready))
  {
    PushedSame(s, s.(consumer := Ready));
    hide Text, Pushed;
  }

  lemma EventInv(s: Turn, e: Event)
    requires Inv(s) && Enabled(s, e)
    ensures Inv(Apply(s, e))
  {
    hide ConsumerInv, TextInv, Push, Take, ResolveTextDelta;
    match e
    case TextEvent(p) => TextEventInv(s, p);
    case FailedEvent(m) =>
      ListeningMeansOpen(s);
      RelabelInv(s, s.(failed := true));
      PushInv(s.(failed := true), Error(m));
    case StreamError(m) => PushInv(s, Error(m));
    case Respond(r) => RelabelInv(s, Apply(s, e));
    case CompletedCalled(thrown) =>
      if thrown.None? { CompletedInv(s); } else { RelabelInv(s, Apply(s, e)); }
    case FailedCalled(_) =>
      RelabelInv(s, s.(producer := Settled));
      PushInv(s.(producer := Settled), Error(s.producer.message));
    case Finally => FinallyInv(s);
    case Pull => TakeInv(s);
    case Next => ResumeInv(s);
    case Close => CloseInv(s);
  }

  lemma InitialInv()
    ensures Inv(INITIAL)
  {}

  lemma {:induction false} RunInv(s: Turn, es: seq<Event>)
    requires Inv(s) && Run(s, es).Some?
    ensures Inv(Run(s, es).value)
    decreases |es|
  {
    if es != [] {
      EventInv(s, es[0]);
      RunInv(Apply(s, es[0]), es[1..]);
    }
  }

  // --- Main results --------------------------------------------------------------------------

  /**
   After any run: until the request completes, the text pushed is the streamed text; a consumer
   that is asleep sees an empty queue and has a notifier set; it has received the pushed items in
   push order; it has left its loop exactly if the last one it took was an error or the end, and its
   caller is told so, with that error, only after the request has ended too.
   */
  lemma NoLostWakeUp(es: seq<Event>, s: Turn)
    requires Run(INITIAL, es) == Some(s)
    ensures s.completed.None? ==> Text(Pushed(s)) == s.streamed
    ensures s.consumer == Waiting(false) ==> s.queue == [] && s.notify
    ensures s.taken <= Pushed(s)
    ensures forall i :: 0 <= i < |s.taken| - 1 ==> s.taken[i].Chunk?
    ensures Left(s.consumer) <==> s.taken != [] && !s.taken[|s.taken| - 1].Chunk?
    ensures Left(s.consumer) ==> s.taken != [] && s.consumer.error == ErrorOf(s.taken[|s.taken| - 1])
    ensures s.consumer.Stopped? ==> s.producer.Ended?
    ensures Enabled(s, Close) <==> Left(s.consumer) && s.producer.Ended? && !s.consumer.Stopped?
  {
    InitialInv();
    RunInv(INITIAL, es);
    assert s.streamed + "" == s.streamed;
  }

  /** One step of a consumer that is not asleep, over a queue with an error or end at `k`. */
  lemma DrainStep(s: Turn, k: nat)
    requires ConsumerInv(s) && !Left(s.consumer)
    requires k < |s.queue| && !s.queue[k].Chunk? && forall i :: 0 <= i < k ==> s.queue[i].Chunk?
    ensures s.consumer.Yielding? ==> Enabled(s, Next) && Apply(s, Next) == s.(consumer := Ready)
    ensures !s.consumer.Yielding? ==>
      && Enabled(s, Pull)
      && Apply(s, Pull).taken == s.taken + [s.queue[0]] && Apply(s, Pull).queue == s.queue[1..]
      && Apply(s, Pull).producer == s.producer
      && Apply(s, Pull).consumer == if k == 0 then Closing(ErrorOf(s.queue[0])) else Yielding
  {}

  lemma RunNothing(s: Turn)
    ensures Run(s, []) == Some(s)
  {}

  lemma RunFirst(s: Turn, e: Event, es: seq<Event>)
    requires Enabled(s, e)
    ensures Run(s, [e] + es) == Run(Apply(s, e), es)
  {
    hide Apply, Enabled;
    assert ([e] + es)[1..] == es;
  }

  /**
   Whatever was pushed up to the first error or end reaches the consumer, whose own steps take it
   out of its loop; if the request has ended, one more step tells its caller.
   */
  lemma {:induction false} Drains(s: Turn, k: nat) returns (es: seq<Event>, t: Turn)
    requires Inv(s) && !Left(s.consumer)
    requires k < |s.queue| && !s.queue[k].Chunk? && forall i :: 0 <= i < k ==> s.queue[i].Chunk?
    ensures Run(s, es) == Some(t) && forall e :: e in es ==> e.Pull? || e.Next?
    ensures t.consumer == Closing(ErrorOf(s.queue[k])) && t.taken == s.taken + s.queue[..k + 1]
    ensures t.producer == s.producer && (Enabled(t, Close) <==> s.producer.Ended?)
    decreases k, s.consumer.Yielding?
  {
    hide ConsumerInv, ProducerInv, TextInv, Apply, Run;
    DrainStep(s, k);
    hide Inv;
    var e := if s.consumer.Yielding? then Next else Pull;
    EventInv(s, e);
    var next := Apply(s, e);
    if e.Pull? && k == 0 {
      es, t := [], next;
      RunNothing(next);
    } else {
      es, t := Drains(next, if e.Next? then k else k - 1);
    }
    RunFirst(s, e, es);
    es := [e] + es;
  }

  lemma ClosingStep(s: Turn, e: Event)
    requires s.consumer.Closing? && Enabled(s, e)
    ensures Apply(s, e).consumer == if e.Close? then Stopped(s.consumer.error) else s.consumer
    ensures e.Close? ==> Apply(s, e).producer.Ended?
  {
    hide ResolveTextDelta;
  }

  /** Only the end of the request lets the caller of a consumer that has left its loop go on. */
  lemma {:induction false} CallerWaitsForRequest(s: Turn, es: seq<Event>, t: Turn)
    requires Inv(s) && s.consumer.Closing? && Run(s, es) == Some(t)
    ensures t.consumer == s.consumer || (t.consumer == Stopped(s.consumer.error) && t.producer.Ended?)
    ensures Close in es <==> t.consumer.Stopped?
    decreases |es|
  {
    hide Inv, Apply;
    if es != [] {
      assert es == [es[0]] + es[1..];
      EventInv(s, es[0]);
      ClosingStep(s, es[0]);
      if es[0].Close? {
        RunInv(s, es);
        StaysStopped(Apply(s, es[0]), es[1..]);
        StoppedMeansEnded(t);
      } else {
        CallerWaitsForRequest(Apply(s, es[0]), es[1..], t);
      }
    }
  }

  lemma StoppedMeansEnded(s: Turn)
    requires Inv(s) && s.consumer.Stopped?
    ensures s.producer.Ended?
  {}

  lemma {:induction false} StaysStopped(s: Turn, es: seq<Event>)
    requires s.consumer.Stopped? && Run(s, es).Some?
    ensures Run(s, es).value.consumer == s.consumer
    decreases |es|
  {
    if es != [] {
      StaysStopped(Apply(s, es[0]), es[1..]);
    }
  }

  /** A failed event reaches the consumer at once, yet its caller waits: the request is still out. */
  lemma FailureWaitsForRequest() returns (es: seq<Event>, s: Turn)
    ensures Run(INITIAL, es) == Some(s)
    ensures s.taken == [Error("failed")] && s.consumer == Closing(Some("failed")) && s.producer.Sending?
    ensures forall fs, t :: Run(s, fs) == Some(t) && t.consumer.Stopped? ==> t.producer.Ended?
  {
    hide Inv, Run, Text, ResolveTextDelta;
    var received := Apply(INITIAL, FailedEvent("failed"));
    es, s := [FailedEvent("failed")] + ([Pull] + []), Apply(received, Pull);
    RunNothing(s);
    RunFirst(received, Pull, []);
    RunFirst(INITIAL, FailedEvent("failed"), [Pull] + []);
    InitialInv();
    RunInv(INITIAL, es);
    forall fs, t | Run(s, fs) == Some(t) && t.consumer.Stopped? ensures t.producer.Ended? {
      CallerWaitsForRequest(s, fs, t);
    }
  }

  lemma {:induction false} ErrorsAddNoText(items: seq<Item>, errors: seq<Item>)
    requires forall i :: 0 <= i < |errors| ==> errors[i].Error?
    ensures Text(items + errors) == Text(items)
    decreases |errors|
  {
    if errors == [] {
      assert items + errors == items;
    } else {
      var last := |errors| - 1;
      assert items + errors == (items + errors[..last]) + [errors[last]];
      TextSnoc(items + errors[..last], errors[last]);
      ErrorsAddNoText(items, errors[..last]);
    }
  }

  /** A turn that completed and ended delivered its text, or what was streamed if that is not a start of it. */
  lemma DeliveredText(es: seq<Event>, s: Turn, text: string)
    requires Run(INITIAL, es) == Some(s)
    requires s.consumer == Stopped(None) && s.completed == Some(text)
    ensures Delivered(s) == if s.streamed <= text then text else s.streamed
  {
    hide Text, Run;
    InitialInv();
    RunInv(INITIAL, es);
    var last := |s.taken| - 1;
    assert Pushed(s)[last].End?;
    forall i | 0 <= i < |s.queue| ensures s.queue[i].Error? {
      assert Pushed(s)[last + 1 + i] == s.queue[i];
    }
    hide ConsumerInv, ProducerInv;
    ErrorsAddNoText(s.taken, s.queue);
    if s.streamed <= text {
      assert text == s.streamed + text[|s.streamed|..];
    }
  }

  /** The accumulated text of every text event is a prefix of `text`. */
  ghost predicate Accumulates(es: seq<Event>, text: string) {
    forall e :: e in es && e.TextEvent? ==>
      e.payload.accumulated.Some? && e.payload.accumulated.value <= text
  }

  /** No text event carries more than `n` characters. */
  ghost predicate NoneLonger(es: seq<Event>, n: nat) {
    forall e :: e in es && e.TextEvent? && e.payload.accumulated.Some? ==> |e.payload.accumulated.value| <= n
  }

  /** The streamed text is the longest accumulated text so far; only a longer one changes it. */
  lemma {:induction false} StreamedGrows(s: Turn, es: seq<Event>, text: string, t: Turn)
    requires Run(s, es) == Some(t) && s.streamed <= text && Accumulates(es, text)
    ensures s.streamed <= t.streamed <= text
    ensures t.streamed == s.streamed <==> NoneLonger(es, |s.streamed|)
    decreases |es|
  {
    if es != [] {
      var next := Apply(s, es[0]);
      assert Accumulates(es[1..], text);
      if es[0].TextEvent? {
        var a := es[0].payload.accumulated.value;
        assert next.streamed == if |a| > |s.streamed| then a else s.streamed;
      }
      StreamedGrows(next, es[1..], text, t);
      assert es == [es[0]] + es[1..];
    }
  }

  lemma EventKeepsCompletion(s: Turn, e: Event)
    requires ProducerInv(s) && Enabled(s, e) && s.completed.Some?
    ensures Apply(s, e).completed == s.completed && Apply(s, e).streamed == s.streamed
  {
    if Listening(s) {
      ListeningMeansOpen(s);
    }
    hide Pushed, ResolveTextDelta;
  }

  /** Once the request has completed, nothing more is streamed. */
  lemma {:induction false} CompletionStays(s: Turn, es: seq<Event>, t: Turn)
    requires Inv(s) && Run(s, es) == Some(t) && s.completed.Some?
    ensures t.completed == s.completed && t.streamed == s.streamed
    decreases |es|
  {
    if es != [] {
      EventKeepsCompletion(s, es[0]);
      hide Inv, Apply;
      EventInv(s, es[0]);
      CompletionStays(Apply(s, es[0]), es[1..], t);
    }
  }

  /**
   A turn that completes and ends delivers exactly the final text, if every accumulated text is a
   prefix of it, in any order and with repeats; in general exactly if what was streamed is one.
   */
  lemma DeliversFinalText(es: seq<Event>, s: Turn, text: string)
    requires Run(INITIAL, es) == Some(s)
    requires s.consumer == Stopped(None) && s.completed == Some(text)
    ensures Delivered(s) == text <==> s.streamed <= text
    ensures Accumulates(es, text) ==> Delivered(s) == text
  {
    hide Run, Text;
    DeliveredText(es, s, text);
    if Accumulates(es, text) {
      StreamedGrows(INITIAL, es, text, s);
    }
  }
}
