/**
 * Exceptions as objects, and `ProducerFailureException` with its memoised
 * `unwrap()` (mirai-core-utils, channels/ProducerFailureException.kt).
 *
 * A Kotlin `Throwable` is a heap object: its `cause` may be reassigned and its
 * list of suppressed exceptions grows in place, so it is a class here. The one
 * exception class with behaviour of its own, ProducerFailureException, is a
 * `Throwable` whose `kind` says so; its lazily computed `unwrapped` value is the
 * field `unwrapped` (null until first read).
 */
module Failures {
  import opened Wrappers

  /** The exception classes the model distinguishes. */
  datatype ExceptionKind =
    | ProducerFailureException
    | IllegalChannelStateException
    | OtherException(className: string)

  /** The message a ProducerFailureException gets when none is given. */
  const DefaultProducerFailureMessage: string := "Producer failed to produce a value, see cause"

  class Throwable {
    const kind: ExceptionKind
    const message: Option<string>
    var cause: Throwable?
    var suppressed: seq<Throwable>
    /** The lazily initialised `unwrapped` of a ProducerFailureException; null while uninitialised. */
    var unwrapped: Throwable?

    /** The object invariant: no exception is its own cause, and once unwrapped the cause is cleared. */
    ghost predicate Valid()
      reads this
    {
      cause != this && (unwrapped != null ==> cause == null)
    }

    /** A plain exception of the given class, with an optional message and cause. */
    constructor (kind: ExceptionKind, message: Option<string>, cause: Throwable?)
      ensures Valid()
      ensures this.kind == kind && this.message == message && this.cause == cause
      ensures suppressed == [] && unwrapped == null
    {
      this.kind := kind;
      this.message := message;
      this.cause := cause;
      suppressed := [];
      unwrapped := null;
    }

    /** `ProducerFailureException(cause = cause)`: the default message, `unwrapped` not yet computed. */
    constructor ProducerFailure(cause: Throwable?)
      ensures Valid()
      ensures kind == ProducerFailureException && message == Some(DefaultProducerFailureMessage)
      ensures this.cause == cause && suppressed == [] && unwrapped == null
    {
      kind := ProducerFailureException;
      message := Some(DefaultProducerFailureMessage);
      this.cause := cause;
      suppressed := [];
      unwrapped := null;
    }

    /**
     * Kotlin's `Throwable.addSuppressed(e)`: appends `e` to the suppressed
     * list, except that an exception is never recorded as suppressing itself.
     */
    method AddSuppressed(e: Throwable)
      modifies this
      ensures cause == old(cause) && unwrapped == old(unwrapped)
      ensures suppressed == if e == this then old(suppressed) else old(suppressed) + [e]
    {
      if e != this {
        suppressed := suppressed + [e];
      }
    }

    /**
     * `unwrap()` of ProducerFailureException.kt:16-22 with the back-link put
     * where it is evidently meant to go: the first call moves the cause out
     * (clearing `cause`), records this exception as suppressed by that cause,
     * and memoises the result; without a cause the exception itself is the
     * result. Every later call returns the memoised value and changes nothing.
     */
    method Unwrap() returns (r: Throwable)
      requires kind == ProducerFailureException && Valid()
      modifies this, cause
      ensures Valid() && r == unwrapped && cause == null
      ensures old(unwrapped) != null ==> r == old(unwrapped) && unchanged(this)
      ensures old(unwrapped) == null && old(cause) == null ==>
                r == this && suppressed == old(suppressed)
      ensures old(unwrapped) == null && old(cause) != null ==>
                && r == old(cause)
                && r.suppressed == old(r.suppressed) + [this]
                && r.cause == old(r.cause) && r.unwrapped == old(r.unwrapped)
                && suppressed == old(suppressed)
    {
      if unwrapped != null {
        return unwrapped;
      }
      var c := cause;
      if c == null {
        unwrapped := this;
        return this;
      }
      cause := null;
      c.AddSuppressed(this);
      unwrapped := c;
      r := c;
    }

    /**
     * `unwrap()` exactly as ProducerFailureException.kt:16-19 writes it:
     * `cause.also { addSuppressed(this) }` calls `addSuppressed` on this very
     * exception with itself as argument, so the cause gains no back-link.
     */
    method UnwrapAsWritten() returns (r: Throwable)
      requires kind == ProducerFailureException && Valid()
      modifies this
      ensures Valid() && r == unwrapped && cause == null
      ensures old(unwrapped) != null ==> r == old(unwrapped) && unchanged(this)
      ensures old(unwrapped) == null && old(cause) == null ==> r == this
      ensures old(unwrapped) == null && old(cause) != null ==> r == old(cause)
      ensures suppressed == old(suppressed)
    {
      if unwrapped != null {
        return unwrapped;
      }
      var c := cause;
      if c == null {
        unwrapped := this;
        return this;
      }
      cause := null;
      AddSuppressed(this);
      unwrapped := c;
      r := c;
    }
  }

  /** `ProducerFailureException(cause = cause)` as the channel throws it. */
  method NewProducerFailure(cause: Throwable?) returns (e: Throwable)
    ensures fresh(e) && e.Valid()
    ensures e.kind == ProducerFailureException && e.message == Some(DefaultProducerFailureMessage)
    ensures e.cause == cause && e.suppressed == [] && e.unwrapped == null
  {
    e := new Throwable.ProducerFailure(cause);
  }

  /**
   * The as-written `unwrap()` on a concrete failure: the original cause comes
   * back, but the failure is not among the cause's suppressed exceptions.
   */
  method AsWrittenUnwrapLosesBackLink() returns (cause: Throwable, failure: Throwable, r: Throwable)
    ensures r == cause && failure != cause
    ensures failure !in cause.suppressed && failure.cause == null
  {
    cause := new Throwable(OtherException("java.io.IOException"), Some("net down"), null);
    failure := new Throwable.ProducerFailure(cause);
    r := failure.UnwrapAsWritten();
  }

  /**
   * The corrected `unwrap()` on the same failure: the cause comes back and
   * lists the failure as suppressed, exactly once, however often it is called.
   */
  method UnwrapRecordsBackLinkOnce() returns (cause: Throwable, failure: Throwable, r: Throwable)
    ensures r == cause && failure != cause
    ensures cause.suppressed == [failure] && failure.cause == null
  {
    cause := new Throwable(OtherException("java.io.IOException"), Some("net down"), null);
    failure := new Throwable.ProducerFailure(cause);
    r := failure.Unwrap();
    var again := failure.Unwrap();
    assert again == r;
  }
}
