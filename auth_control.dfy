/**
 * AuthControl (mirai-core, network/auth/AuthControl.kt): the session
 * manager's side of the authorization loop. The user's authorization
 * strategy runs as the producer of an on-demand channel whose hints are the
 * previous attempt's failure (or null) and whose values are authorization
 * methods; AuthControl is its consumer.
 */
module AuthControls {
  import opened Wrappers
  import opened Failures
  import opened Channels
  import opened OnDemandChannels

  /**
   * `SsoProcessorImpl.AuthMethod` as AuthControl sees it: the two variants it
   * builds itself, and any method the strategy decides on (password, QR code,
   * ...), which it passes through untouched.
   */
  datatype AuthMethod =
    | NotAvailable
    | Error(cause: Throwable)
    | Method(description: string)

  /** What a call of acquireAuth comes to. */
  datatype Outcome =
      /** It returned this method. */
    | Acquired(auth: AuthMethod)
      /** It is suspended until the strategy emits a method or finishes. */
    | Waiting
      /** An exception escaped it: only an illegal-state error can. */
    | Raised(exception: Throwable)

  /** What acquireAuth does in a given channel state, as the channel's step table determines it. */
  datatype Expected = Returns(auth: AuthMethod) | Waits | ThrowsIllegalState

  /**
   * acquireAuth over one receiveOrNull (AuthControl.kt:52-63): a received
   * method is returned unchanged, a normally finished channel gives
   * NotAvailable, and a producer failure is caught and becomes `Error` of the
   * unwrapped cause (the producer's original exception). Only a call made out
   * of turn throws.
   */
  function AcquireAuthOutcome(s: State<AuthMethod>): (r: Expected)
    ensures s.Consuming? ==> r == Returns(s.value)
    ensures s.Finished? && s.exception == null ==> r == Returns(NotAvailable)
    ensures s.Finished? && s.exception != null ==> r == Returns(Error(s.exception))
    ensures s.Producing? ==> r == Waits
    ensures s.JustInitialized? || s.ProducerReady? || s.Consumed? ==> r == ThrowsIllegalState
  {
    match Step<Throwable?, AuthMethod>(s, ReceiveOrNull).reply
    case Received(value) => Returns(if value.Some? then value.value else NotAvailable)
    case ProducerFailed(cause) => Returns(Error(cause))
    case Suspended => Waits
    case _ => ThrowsIllegalState
  }

  /** `answer` is what `expected` describes. */
  ghost predicate Meets(answer: Outcome, expected: Expected)
    reads if answer.Raised? then {answer.exception} else {}
  {
    match expected
    case Returns(m) => answer == Acquired(m)
    case Waits => answer == Waiting
    case ThrowsIllegalState => answer.Raised? && answer.exception.kind == IllegalChannelStateException
  }

  class AuthControl {
    const userDecisions: OnDemandChannel<Throwable?, AuthMethod>

    constructor ()
      ensures fresh(userDecisions) && userDecisions.Valid()
      ensures userDecisions.state == JustInitialized && userDecisions.launches == 0 && userDecisions.producerHints == []
    {
      userDecisions := new OnDemandChannel<Throwable?, AuthMethod>();
    }

    /** `start()`: `expectMore(null)` launches the strategy with "no previous failure" as its first hint. */
    method Start() returns (thrown: Throwable?)
      requires userDecisions.Valid()
      modifies userDecisions
      ensures userDecisions.Valid()
      ensures userDecisions.Took(Step<Throwable?, AuthMethod>(old(userDecisions.state), Op.ExpectMore(null)),
                                 old(userDecisions.launches), old(userDecisions.producerHints))
      ensures old(userDecisions.state).JustInitialized? ==>
                && thrown == null && userDecisions.state == Producing && userDecisions.launches == 1
                && userDecisions.producerHints == old(userDecisions.producerHints) + [null]
    {
      var _, t := userDecisions.ExpectMore(null);
      thrown := t;
    }

    /**
     * `acquireAuth()`: receive the strategy's next decision; producer failures
     * become a result, not an exception. The failure is unwrapped as
     * ProducerFailureException.kt:16-19 writes it, so the producer's exception
     * is returned untouched: it does not gain the failure as a suppressed one.
     */
    method AcquireAuth() returns (answer: Outcome)
      requires userDecisions.Valid()
      modifies userDecisions
      ensures userDecisions.Valid()
      ensures userDecisions.Took(Step<Throwable?, AuthMethod>(old(userDecisions.state), Op.ReceiveOrNull),
                                 old(userDecisions.launches), old(userDecisions.producerHints))
      ensures Meets(answer, AcquireAuthOutcome(old(userDecisions.state)))
      ensures answer.Raised? ==> fresh(answer.exception) && answer.exception.kind == IllegalChannelStateException
      ensures old(userDecisions.state).Finished? && old(userDecisions.state).exception != null ==>
                var e := old(userDecisions.state).exception;
                e.suppressed == old(e.suppressed) && e.cause == old(e.cause)
    {
      var reply, thrown := userDecisions.ReceiveOrNull();
      if reply.Received? {
        answer := Acquired(if reply.value.Some? then reply.value.value else NotAvailable);
      } else if reply.ProducerFailed? {
        var cause := thrown.UnwrapAsWritten();
        answer := Acquired(Error(cause));
      } else if reply.Suspended? {
        answer := Waiting;
      } else {
        answer := Raised(thrown);
      }
    }

    /**
     * acquireAuth with the corrected `unwrap()` (`Failures.Throwable.Unwrap`):
     * the same answer, and the producer's exception records the
     * ProducerFailureException that carried it, once.
     */
    method AcquireAuthCorrected() returns (answer: Outcome)
      requires userDecisions.Valid()
      modifies userDecisions, userDecisions.RecordedFailure()
      ensures userDecisions.Valid()
      ensures userDecisions.Took(Step<Throwable?, AuthMethod>(old(userDecisions.state), Op.ReceiveOrNull),
                                 old(userDecisions.launches), old(userDecisions.producerHints))
      ensures Meets(answer, AcquireAuthOutcome(old(userDecisions.state)))
      ensures answer.Raised? ==> fresh(answer.exception) && answer.exception.kind == IllegalChannelStateException
      ensures old(userDecisions.state).Finished? && old(userDecisions.state).exception != null ==>
                var e := old(userDecisions.state).exception;
                && |e.suppressed| == |old(e.suppressed)| + 1
                && e.suppressed[..|old(e.suppressed)|] == old(e.suppressed)
                && fresh(e.suppressed[|old(e.suppressed)|])
                && e.suppressed[|old(e.suppressed)|].kind == ProducerFailureException
    {
      var reply, thrown := userDecisions.ReceiveOrNull();
      if reply.Received? {
        answer := Acquired(if reply.value.Some? then reply.value.value else NotAvailable);
      } else if reply.ProducerFailed? {
        var cause := thrown.Unwrap();
        answer := Acquired(Error(cause));
      } else if reply.Suspended? {
        answer := Waiting;
      } else {
        answer := Raised(thrown);
      }
    }

    /** `actMethodFailed(cause)`: the failure becomes the strategy's next hint. */
    method ActMethodFailed(cause: Throwable) returns (thrown: Throwable?)
      requires userDecisions.Valid()
      modifies userDecisions
      ensures userDecisions.Valid()
      ensures userDecisions.Took(Step<Throwable?, AuthMethod>(old(userDecisions.state), Op.ExpectMore(cause)),
                                 old(userDecisions.launches), old(userDecisions.producerHints))
      ensures old(userDecisions.state).Consumed? ==>
                && thrown == null && userDecisions.state == Producing
                && userDecisions.producerHints == old(userDecisions.producerHints) + [cause]
    {
      var _, t := userDecisions.ExpectMore(cause);
      thrown := t;
    }

    /** `actComplete()`: close the channel; no further round is requested. */
    method ActComplete() returns (thrown: Throwable?)
      requires userDecisions.Valid()
      modifies userDecisions
      ensures userDecisions.Valid()
      ensures userDecisions.Took(Step<Throwable?, AuthMethod>(old(userDecisions.state), Op.Finish(null)),
                                 old(userDecisions.launches), old(userDecisions.producerHints))
      ensures !old(userDecisions.state).Finished? ==>
                thrown == null && userDecisions.state == Finished(old(userDecisions.state), null)
      ensures userDecisions.producerHints == old(userDecisions.producerHints)
    {
      var _, t := userDecisions.Close();
      thrown := t;
    }
  }

  /**
   * The retry round: the strategy offers a QR code, the session manager
   * reports that it failed, the strategy (handed that failure) offers a
   * password, and the session manager completes.
   */
  method RetryScenario() returns (first: Outcome, second: Outcome, failure: Throwable, hints: seq<Throwable?>)
    ensures first == Acquired(Method("QR")) && second == Acquired(Method("Password"))
    ensures hints == [null, failure]
    ensures failure.kind == OtherException("java.lang.IllegalStateException") && failure.message == Some("QR expired")
  {
    var control := new AuthControl();
    var channel := control.userDecisions;
    var _ := control.Start();
    assert channel.state == Producing && channel.producerHints == [null];
    var _, _ := channel.Emit(Method("QR"));
    assert channel.state == Consuming(Method("QR")) && channel.producerHints == [null];
    first := control.AcquireAuth();
    assert channel.state == Consumed && channel.producerHints == [null];
    failure := new Throwable(OtherException("java.lang.IllegalStateException"), Some("QR expired"), null);
    var _ := control.ActMethodFailed(failure);
    assert channel.state == Producing && channel.producerHints == [null, failure];
    var _, _ := channel.Emit(Method("Password"));
    assert channel.state == Consuming(Method("Password")) && channel.producerHints == [null, failure];
    second := control.AcquireAuth();
    var _ := control.ActComplete();
    hints := channel.producerHints;
  }

  /**
   * The strategy crashes before deciding anything: acquireAuth returns an
   * Error carrying the crash itself, and the channel stays finished. The
   * crash never learns of the ProducerFailureExceptions that carried it.
   */
  method CrashScenario() returns (answer: Outcome, crash: Throwable, again: Outcome)
    ensures answer == Acquired(Error(crash)) && again == Acquired(Error(crash))
    ensures crash.kind == OtherException("java.io.IOException") && crash.message == Some("net down")
    ensures crash.suppressed == [] && crash.cause == null
  {
    var control := new AuthControl();
    var _ := control.Start();
    crash := new Throwable(OtherException("java.io.IOException"), Some("net down"), null);
    var _, _ := control.userDecisions.FinishExceptionally(crash);
    answer := control.AcquireAuth();
    again := control.AcquireAuth();
  }
}
