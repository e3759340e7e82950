/**
 The closures of `createConnectorRuntimeTurnStream` as methods on the variables they share. Each
 method is the code between two awaits, and does to the variables what the event of `RuntimeTurn`
 does to the model.
 */
module TurnStream {
  import opened Prelude
  import opened RuntimeTurn

  class Stream {
    var queue: seq<Item>
    var notify: bool               // a consumer has left its resolve function
    var streamedText: string
    var failed: bool
    var streaming: bool            // stopStreaming has not been called
    var producer: Producer         // where the request's promise chain stands
    var consumer: Consumer         // where the generator stands
    ghost var taken: seq<Item>
    ghost var completed: Option<string>
    ghost var remainder: string

    ghost function View(): Turn
      reads this
    {
      Turn(queue, notify, streamedText, failed, streaming, producer, consumer,
           taken, completed, remainder)
    }

    ghost predicate Valid()
      reads this
    {
      Inv(View())
    }

    constructor ()
      ensures Valid() && View() == INITIAL
    {
      queue, notify, streamedText, failed, streaming := [], false, "", false, true;
      producer, consumer := Sending, Ready;
      taken, completed, remainder := [], None, "";
      new;
      InitialInv();
    }

    method Push(item: Item)
      modifies this`queue, this`notify, this`consumer
      ensures View() == RuntimeTurn.Push(old(View()), item)
    {
      queue := queue + [item];
      if notify && consumer.Waiting? {
        consumer := Waiting(true);
      }
      notify := false;
    }

    method OnTextEvent(payload: TextPayload)
      requires Valid() && Listening(View())
      modifies this
      ensures Valid() && View() == Apply(old(View()), TextEvent(payload))
    {
      hide Inv;
      EventInv(View(), TextEvent(payload));
      var resolved := ResolveTextDelta(payload, streamedText);
      streamedText := resolved.nextText;
      if resolved.delta != "" {
        Push(Chunk(resolved.delta));
      }
    }

    method OnFailedEvent(message: string)
      requires Valid() && Listening(View())
      modifies this
      ensures Valid() && View() == Apply(old(View()), FailedEvent(message))
    {
      hide Inv;
      EventInv(View(), FailedEvent(message));
      failed := true;
      Push(Error(message));
    }

    method OnStreamError(message: string)
      requires Valid()
      modifies this
      ensures Valid() && View() == Apply(old(View()), StreamError(message))
    {
      hide Inv;
      EventInv(View(), StreamError(message));
      Push(Error(message));
    }

    method OnResponse(response: Response)
      requires Valid() && producer.Sending?
      modifies this
      ensures Valid() && View() == Apply(old(View()), Respond(response))
    {
      hide Inv;
      EventInv(View(), Respond(response));
      match response
      case Queued =>
        producer := Settled;
      case Result(text) =>
        producer := if failed then Settled else Completing(text);
      case Rejected(message) =>
        OnCatch(message);
    }

    /** The catch handler up to its await. */
    method OnCatch(message: string)
      modifies this`producer
      ensures producer == if failed then Settled else Failing(message)
    {
      if failed {
        producer := Settled;
        return;
      }
      producer := Failing(message);
    }

    /** After `onCompleted`: what the final text adds to the streamed text goes out last. */
    method OnCompletedCalled()
      requires Valid() && producer.Completing?
      modifies this
      ensures Valid() && View() == Apply(old(View()), CompletedCalled(None))
    {
      hide Inv;
      EventInv(View(), CompletedCalled(None));
      var finalText := producer.text;
      producer := Settled;
      completed, remainder := Some(finalText), "";
      if streamedText <= finalText {
        var rest := finalText[|streamedText|..];
        remainder := rest;
        if rest != "" {
          Push(Chunk(rest));
        }
      }
    }

    /** `onCompleted` threw. */
    method OnCompletedThrew(message: string)
      requires Valid() && producer.Completing?
      modifies this
      ensures Valid() && View() == Apply(old(View()), CompletedCalled(Some(message)))
    {
      hide Inv;
      EventInv(View(), CompletedCalled(Some(message)));
      OnCatch(message);
    }

    /** The rest of the catch handler, unless `onFailed` threw. */
    method OnFailedCalled(threw: bool)
      requires Valid() && producer.Failing?
      modifies this
      ensures Valid() && View() == Apply(old(View()), FailedCalled(threw))
    {
      hide Inv;
      EventInv(View(), FailedCalled(threw));
      var message := producer.message;
      producer := Settled;
      if !threw {
        Push(Error(message));
      }
    }

    method OnFinally()
      requires Valid() && Enabled(View(), Finally)
      modifies this
      ensures Valid() && View() == Apply(old(View()), Finally)
    {
      hide Inv, Apply, Listening, RuntimeTurn.Push;
      EventInv(View(), Finally);
      FinallyPushes(View());
      streaming := false;
      producer := Ended;
      Push(End);
    }

    /** The generator from the loop head, or from its wake-up, to the next await, yield or exit. */
    method PullItem()
      requires Valid() && Enabled(View(), Pull)
      modifies this
      ensures Valid() && View() == Apply(old(View()), Pull)
    {
      hide Inv;
      EventInv(View(), Pull);
      if queue == [] {
        if consumer.Ready? {
          consumer, notify := Waiting(false), true;
        } else {
          consumer := Ready;
        }
        return;
      }
      var item := queue[0];
      queue := queue[1..];
      taken := taken + [item];
      match item
      case Chunk(_) =>
        consumer := Yielding;
      case Error(message) =>
        consumer, streaming := Closing(Some(message)), false;
      case End =>
        consumer, streaming := Closing(None), false;
    }

    /** `await runTurn` in the generator's finally block is over. */
    method OnRequestEnded()
      requires Valid() && Enabled(View(), Close)
      modifies this
      ensures Valid() && View() == Apply(old(View()), Close)
    {
      hide Inv;
      EventInv(View(), Close);
      consumer := Stopped(consumer.error);
    }
  }
}
