/**
 * The on-demand channel itself: one mutable cell holding the current
 * ChannelState, and the operations of ChannelState.kt:23 as methods that
 * update it. Each method does exactly what `Channels.Step` says for its
 * operation, and throws (returns in `thrown`) the exception the diagram
 * calls for. The producer's side is visible as `producerHints`, the hints
 * handed to it (the launch argument, then each completed producer latch),
 * and `launches`, how often it was started.
 */
module OnDemandChannels {
  import opened Wrappers
  import opened Failures
  import opened Channels

  /** `thrown` is the exception the source throws for `reply`, or null when it throws none. */
  ghost predicate Raises<V>(reply: Reply<V>, thrown: Throwable?)
    reads if thrown == null then {} else {thrown}
  {
    match reply
    case IllegalState(_) =>
      thrown != null && thrown.kind == IllegalChannelStateException && thrown.cause == null && thrown.suppressed == []
    case AlreadyFinished(finished, cause) =>
      thrown != null && finished.Finished? && IsAlreadyFinishedError(thrown, finished, cause)
    case ProducerFailed(cause) =>
      && thrown != null && thrown.kind == ProducerFailureException
      && thrown.message == Some(DefaultProducerFailureMessage)
      && thrown.cause == cause && thrown.suppressed == [] && thrown.unwrapped == null
    case _ => thrown == null
  }

  /** The hint a transition hands to the producer, as a sequence of zero or one hints. */
  function Handed<H, V>(t: Transition<H, V>): seq<H>
  {
    if t.toProducer.Some? then [t.toProducer.value] else []
  }

  class OnDemandChannel<H, V> {
    var state: State<V>
    var launches: nat
    var producerHints: seq<H>

    /** ProducerReady only exists inside expectMore, and the producer runs once it has been launched, once. */
    ghost predicate Valid()
      reads this
    {
      !state.ProducerReady? && launches == (if Launched(state) then 1 else 0)
    }

    /** The cause recorded by a failed Finished state: the one object a ProducerFailureException can point back to. */
    function RecordedFailure(): set<object>
      reads this
    {
      if state.Finished? && state.exception != null then {state.exception} else {}
    }

    /** The new state, launches and hints are what `t` says, starting from the given old ones. */
    ghost predicate Took(t: Transition<H, V>, oldLaunches: nat, oldHints: seq<H>)
      reads this
    {
      && state == t.next
      && launches == oldLaunches + (if t.launch then 1 else 0)
      && producerHints == oldHints + Handed(t)
    }

    constructor ()
      ensures Valid() && state == JustInitialized && launches == 0 && producerHints == []
    {
      state := JustInitialized;
      launches := 0;
      producerHints := [];
    }

    /**
     * The lazy `producer` of ProducerReady (ChannelState.kt:105-109): the
     * first read launches the producer with `hint`; every later read returns
     * the running producer and changes nothing.
     */
    method ReadProducer(hint: H)
      requires state.ProducerReady? && launches <= 1
      modifies this
      ensures state == old(state) && launches == 1
      ensures producerHints == if old(launches) == 0 then old(producerHints) + [hint] else old(producerHints)
    {
      if launches == 0 {
        launches := 1;
        producerHints := producerHints + [hint];
      }
    }

    /** An IllegalChannelStateException for the current state. */
    method IllegalFor() returns (reply: Reply<V>, thrown: Throwable)
      ensures fresh(thrown) && thrown.Valid()
      ensures reply == IllegalState(state) && Raises(reply, thrown)
    {
      thrown := new Throwable(IllegalChannelStateException, None, null);
      reply := IllegalState(state);
    }

    /** `expectMore(hint)`: start the producer, or hand it the hint, and move to Producing. */
    method ExpectMore(hint: H) returns (reply: Reply<V>, thrown: Throwable?)
      requires Valid()
      modifies this
      ensures Valid()
      ensures Took(Step<H, V>(old(state), Op.ExpectMore(hint)), old(launches), old(producerHints))
      ensures reply == Step<H, V>(old(state), Op.ExpectMore(hint)).reply && Raises(reply, thrown)
      ensures thrown != null ==> fresh(thrown) && thrown.Valid()
    {
      match state
      case JustInitialized =>
        state := ProducerReady;
        ReadProducer(hint);
        state := Producing;
        reply, thrown := Returned, null;
      case Consumed =>
        state := ProducerReady;
        // The producer latch is completed with the hint: the producer's emit resumes.
        producerHints := producerHints + [hint];
        state := Producing;
        reply, thrown := Returned, null;
      case Finished(_, _) =>
        thrown := CreateAlreadyFinishedException(state, null);
        reply := AlreadyFinished(state, null);
      case Producing =>
        reply, thrown := IllegalFor();
      case Consuming(_) =>
        reply, thrown := IllegalFor();
    }

    /** `emit(value)`, the producer's call: hand the value over and wait for the next hint. */
    method Emit(value: V) returns (reply: Reply<V>, thrown: Throwable?)
      requires Valid()
      modifies this
      ensures Valid()
      ensures Took(Step<H, V>(old(state), Op.Emit(value)), old(launches), old(producerHints))
      ensures reply == Step<H, V>(old(state), Op.Emit(value)).reply && Raises(reply, thrown)
      ensures thrown != null ==> fresh(thrown) && thrown.Valid()
    {
      match state
      case Producing =>
        state := Consuming(value);
        reply, thrown := Returned, null;
      case Finished(_, _) =>
        thrown := CreateAlreadyFinishedException(state, null);
        reply := AlreadyFinished(state, null);
      case JustInitialized =>
        reply, thrown := IllegalFor();
      case Consuming(_) =>
        reply, thrown := IllegalFor();
      case Consumed =>
        reply, thrown := IllegalFor();
    }

    /** `receiveOrNull()`, the consumer's call: take the emitted value, or learn how the producer finished. */
    method ReceiveOrNull() returns (reply: Reply<V>, thrown: Throwable?)
      requires Valid()
      modifies this
      ensures Valid()
      ensures Took(Step<H, V>(old(state), Op.ReceiveOrNull), old(launches), old(producerHints))
      ensures reply == Step<H, V>(old(state), Op.ReceiveOrNull).reply && Raises(reply, thrown)
      ensures thrown != null ==> fresh(thrown) && thrown.Valid()
    {
      match state
      case Producing =>
        reply, thrown := Suspended, null;
      case Consuming(value) =>
        state := Consumed;
        reply, thrown := Received(Some(value)), null;
      case Finished(_, exception) =>
        if exception == null {
          reply, thrown := Received(None), null;
        } else {
          thrown := NewProducerFailure(exception);
          reply := ProducerFailed(exception);
        }
      case JustInitialized =>
        reply, thrown := IllegalFor();
      case Consumed =>
        reply, thrown := IllegalFor();
    }

    /** The common body of finish and finishExceptionally. */
    method FinishWith(cause: Throwable?) returns (reply: Reply<V>, thrown: Throwable?)
      requires Valid()
      modifies this
      ensures Valid()
      ensures Took(Step<H, V>(old(state), Op.Finish(cause)), old(launches), old(producerHints))
      ensures reply == Step<H, V>(old(state), Op.Finish(cause)).reply && Raises(reply, thrown)
      ensures thrown != null ==> fresh(thrown) && thrown.Valid()
    {
      if state.Finished? {
        thrown := CreateAlreadyFinishedException(state, cause);
        reply := AlreadyFinished(state, cause);
      } else {
        state := Finished(state, cause);
        reply, thrown := Returned, null;
      }
    }

    /** `finish()`: end the channel normally. */
    method Finish() returns (reply: Reply<V>, thrown: Throwable?)
      requires Valid()
      modifies this
      ensures Valid()
      ensures Took(Step<H, V>(old(state), Op.Finish(null)), old(launches), old(producerHints))
      ensures reply == Step<H, V>(old(state), Op.Finish(null)).reply && Raises(reply, thrown)
      ensures thrown != null ==> fresh(thrown) && thrown.Valid()
    {
      reply, thrown := FinishWith(null);
    }

    /** `finishExceptionally(exception)`: end the channel with a failure. */
    method FinishExceptionally(exception: Throwable) returns (reply: Reply<V>, thrown: Throwable?)
      requires Valid()
      modifies this
      ensures Valid()
      ensures Took(Step<H, V>(old(state), Op.Finish(exception)), old(launches), old(producerHints))
      ensures reply == Step<H, V>(old(state), Op.Finish(exception)).reply && Raises(reply, thrown)
      ensures thrown != null ==> fresh(thrown) && thrown.Valid()
    {
      reply, thrown := FinishWith(exception);
    }

    /** `close()`, the consumer's request to end the channel normally without another hint. */
    method Close() returns (reply: Reply<V>, thrown: Throwable?)
      requires Valid()
      modifies this
      ensures Valid()
      ensures Took(Step<H, V>(old(state), Op.Finish(null)), old(launches), old(producerHints))
      ensures reply == Step<H, V>(old(state), Op.Finish(null)).reply && Raises(reply, thrown)
      ensures thrown != null ==> fresh(thrown) && thrown.Valid()
    {
      reply, thrown := FinishWith(null);
    }
  }
}
