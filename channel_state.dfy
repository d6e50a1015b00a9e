/**
 * The turn-taking state machine of the on-demand channel
 * (mirai-core-utils, channels/ChannelState.kt).
 *
 * The channel hands control back and forth between one consumer and one
 * producer. `Step` is the transition table drawn in ChannelState.kt:32-88:
 * for every state and every operation it gives the next state, what the
 * caller gets back, and what crosses to the producer (the hint, and whether
 * the producer is launched). A call that would suspend in the source is
 * "not yet enabled" here: the state is unchanged and the other side must act.
 */
module Channels {
  import opened Wrappers
  import opened Failures
  import opened Text

  /** The variants of ChannelState. Futures and producer handles are not modelled: turns are. */
  datatype State<V> =
    | JustInitialized
    | ProducerReady
    | Producing
    | Consuming(value: V)
    | Consumed
    | Finished(previous: State<V>, exception: Throwable?)
  {
    /** `Finished.isSuccess`: the channel finished without an exception. */
    predicate IsSuccess()
      requires Finished?
    {
      exception == null
    }
  }

  /** The operations that change the state: expectMore, emit, receiveOrNull, finish / finishExceptionally. */
  datatype Op<H, V> =
    | ExpectMore(hint: H)
    | Emit(value: V)
    | ReceiveOrNull
    | Finish(cause: Throwable?)

  /** What the caller of an operation observes. */
  datatype Reply<V> =
      /** The call returned normally (expectMore, emit, finish). */
    | Returned
      /** receiveOrNull cannot proceed yet: the producer has to emit or finish first. */
    | Suspended
      /** receiveOrNull's result: the emitted value, or None once the channel finished normally. */
    | Received(value: Option<V>)
      /** receiveOrNull throws a ProducerFailureException wrapping the producer's exception. */
    | ProducerFailed(cause: Throwable)
      /** An IllegalChannelStateException: the call is not drawn for this state. */
    | IllegalState(state: State<V>)
      /** The error `finished.createAlreadyFinishedException(attemptedCause)`. */
    | AlreadyFinished(finished: State<V>, attemptedCause: Throwable?)

  /** The outcome of one step: next state, reply, the hint handed to the producer, and whether it was launched. */
  datatype Transition<H, V> = Transition(next: State<V>, reply: Reply<V>, toProducer: Option<H>, launch: bool)

  /** The non-finished states the diagram's cycle passes through, in order. */
  predicate CycleStep<V>(from: State<V>, to: State<V>)
  {
    || ((from.JustInitialized? || from.ProducerReady? || from.Consumed?) && to.Producing?)
    || (from.Producing? && to.Consuming?)
    || (from.Consuming? && to.Consumed?)
  }

  /** Whether the producer has been launched by the time the channel is in state `s`. */
  predicate Launched<V>(s: State<V>)
  {
    match s
    case JustInitialized => false
    case Finished(previous, _) => Launched(previous)
    case _ => true
  }

  /** The value emitted but not yet received in `s` (kept by a Finished state, where it is lost). */
  function Pending<V>(s: State<V>): seq<V>
  {
    match s
    case Consuming(v) => [v]
    case Finished(previous, _) => Pending(previous)
    case _ => []
  }

  /** The transition table of ChannelState.kt:32-88. */
  function Step<H, V>(s: State<V>, op: Op<H, V>): (t: Transition<H, V>)
    // Finished is absorbing.
    ensures s.Finished? ==> t.next == s && t.toProducer == None && !t.launch
    // A call not drawn for the state fails and changes nothing.
    ensures t.reply.IllegalState? ==> t.reply.state == s && t.next == s && t.toProducer == None && !t.launch
    // Only expectMore, emit, receiveOrNull on Consuming, and finish move the state.
    ensures t.next == s || CycleStep(s, t.next) || (op.Finish? && t.next == Finished(s, op.cause))
    // finish / finishExceptionally from any non-finished state ends it, recording both.
    ensures op.Finish? && !s.Finished? ==> t == Transition(Finished(s, op.cause), Returned, None, false)
    // Only the first expectMore launches the producer; every successful expectMore hands its hint over.
    ensures t.launch <==> s.JustInitialized? && op.ExpectMore?
    ensures t.toProducer.Some? <==> (s.JustInitialized? || s.Consumed?) && op.ExpectMore?
    ensures t.toProducer.Some? ==> t.toProducer.value == op.hint
  {
    match s
    case Finished(_, exception) =>
      (match op
       case ReceiveOrNull =>
         Transition(s, if exception == null then Received(None) else ProducerFailed(exception), None, false)
       case Finish(cause) => Transition(s, AlreadyFinished(s, cause), None, false)
       case ExpectMore(_) => Transition(s, AlreadyFinished(s, null), None, false)
       case Emit(_) => Transition(s, AlreadyFinished(s, null), None, false))
    case JustInitialized =>
      (match op
       case ExpectMore(hint) => Transition(Producing, Returned, Some(hint), true)
       case Finish(cause) => Transition(Finished(s, cause), Returned, None, false)
       case _ => Illegal(s))
    case ProducerReady =>
      (match op
       case ExpectMore(_) => Transition(Producing, Returned, None, false)
       case Finish(cause) => Transition(Finished(s, cause), Returned, None, false)
       case _ => Illegal(s))
    case Producing =>
      (match op
       case Emit(value) => Transition(Consuming(value), Returned, None, false)
       case ReceiveOrNull => Transition(s, Suspended, None, false)
       case Finish(cause) => Transition(Finished(s, cause), Returned, None, false)
       case ExpectMore(_) => Illegal(s))
    case Consuming(value) =>
      (match op
       case ReceiveOrNull => Transition(Consumed, Received(Some(value)), None, false)
       case Finish(cause) => Transition(Finished(s, cause), Returned, None, false)
       case _ => Illegal(s))
    case Consumed =>
      (match op
       case ExpectMore(hint) => Transition(Producing, Returned, Some(hint), false)
       case Finish(cause) => Transition(Finished(s, cause), Returned, None, false)
       case _ => Illegal(s))
  }

  /** The IllegalChannelStateException outcome: nothing moves. */
  function Illegal<H, V>(s: State<V>): Transition<H, V>
  {
    Transition(s, IllegalState(s), None, false)
  }

  /** What a sequence of operations does: final state, replies, values that crossed, hints, launches. */
  datatype Trace<H, V> = Trace(
    final: State<V>,
    replies: seq<Reply<V>>,
    emitted: seq<V>,
    received: seq<V>,
    hints: seq<H>,
    launches: nat)

  /** The value an accepted emit hands over. */
  function EmittedBy<H, V>(op: Op<H, V>, t: Transition<H, V>): seq<V>
  {
    if op.Emit? && t.reply == Returned then [op.value] else []
  }

  /** The value a receiveOrNull takes. */
  function ReceivedBy<V>(r: Reply<V>): seq<V>
  {
    if r.Received? && r.value.Some? then [r.value.value] else []
  }

  /** Runs `ops` one after the other from `s`. */
  function Run<H, V>(s: State<V>, ops: seq<Op<H, V>>): Trace<H, V>
    decreases |ops|
  {
    if ops == [] then Trace(s, [], [], [], [], 0)
    else
      var t := Step(s, ops[0]);
      var rest := Run(t.next, ops[1..]);
      Trace(rest.final,
            [t.reply] + rest.replies,
            EmittedBy(ops[0], t) + rest.emitted,
            ReceivedBy(t.reply) + rest.received,
            (if t.toProducer.Some? then [t.toProducer.value] else []) + rest.hints,
            (if t.launch then 1 else 0) + rest.launches)
  }

  /**
   * Values cross the channel exactly once and in order: what was pending at
   * the start, followed by everything emitted, is everything received
   * followed by what is still pending (at most one value) at the end.
   */
  lemma {:induction false} RunConservesValues<H, V>(s: State<V>, ops: seq<Op<H, V>>)
    ensures Pending(s) + Run(s, ops).emitted == Run(s, ops).received + Pending(Run(s, ops).final)
    decreases |ops|
  {
    if ops != [] {
      var t := Step(s, ops[0]);
      RunConservesValues(t.next, ops[1..]);
      var rest := Run(t.next, ops[1..]);
      StepConservesValues(s, ops[0]);
      AppendAssociates(Pending(s), EmittedBy(ops[0], t), rest.emitted);
      AppendAssociates(ReceivedBy(t.reply), Pending(t.next), rest.emitted);
      AppendAssociates(ReceivedBy(t.reply), rest.received, Pending(rest.final));
    }
  }

  /** One step conserves values: what was pending and what it emits is what it hands over and what is left pending. */
  lemma StepConservesValues<H, V>(s: State<V>, op: Op<H, V>)
    ensures Pending(s) + EmittedBy(op, Step(s, op)) == ReceivedBy(Step(s, op).reply) + Pending(Step(s, op).next)
  {
    match s
    case Finished(_, _) =>
    case Producing =>
    case Consuming(_) =>
    case _ =>
  }

  lemma AppendAssociates<T>(a: seq<T>, b: seq<T>, c: seq<T>)
    ensures a + (b + c) == (a + b) + c
  {
  }

  /** From a fresh channel, no value is received twice or invented: the received values are the emitted ones, in order, less at most the last. */
  lemma ReceivedAreEmitted<H, V>(ops: seq<Op<H, V>>)
    ensures var tr := Run(JustInitialized, ops);
      && |tr.emitted| - |tr.received| in {0, 1}
      && tr.received == tr.emitted[..|tr.received|]
  {
    RunConservesValues(JustInitialized, ops);
    var tr := Run(JustInitialized, ops);
    PendingAtMostOne(tr.final);
    assert tr.emitted == tr.received + Pending(tr.final);
  }

  lemma {:induction false} PendingAtMostOne<V>(s: State<V>)
    ensures |Pending(s)| <= 1
  {
    match s
    case Finished(previous, _) => PendingAtMostOne(previous);
    case _ =>
  }

  /**
   * The producer is launched at most once: a run launches it exactly when it
   * had not been launched at the start and has been by the end.
   */
  lemma {:induction false} RunLaunchesOnce<H, V>(s: State<V>, ops: seq<Op<H, V>>)
    ensures Run(s, ops).launches + (if Launched(s) then 1 else 0) == (if Launched(Run(s, ops).final) then 1 else 0)
    decreases |ops|
  {
    if ops != [] {
      var t := Step(s, ops[0]);
      RunLaunchesOnce(t.next, ops[1..]);
      assert Launched(t.next) == (Launched(s) || t.launch);
      assert t.launch ==> !Launched(s);
    }
  }

  /** Once finished, a channel stays finished with the same record, whatever is called. */
  lemma {:induction false} FinishedIsAbsorbing<H, V>(s: State<V>, ops: seq<Op<H, V>>)
    requires s.Finished?
    ensures Run(s, ops).final == s
    ensures Run(s, ops).emitted == [] && Run(s, ops).received == [] && Run(s, ops).hints == []
    decreases |ops|
  {
    if ops != [] {
      FinishedIsAbsorbing(Step(s, ops[0]).next, ops[1..]);
    }
  }

  /**
   * Strict alternation: a second receiveOrNull after a value was received,
   * and a second expectMore after one was accepted, are illegal.
   */
  lemma StrictAlternation<H, V>(s: State<V>, h1: H, h2: H)
    ensures Step<H, V>(s, ReceiveOrNull).reply.Received? && Step<H, V>(s, ReceiveOrNull).reply.value.Some? ==>
              Step<H, V>(Step<H, V>(s, ReceiveOrNull).next, ReceiveOrNull).reply.IllegalState?
    ensures !s.Finished? && Step(s, ExpectMore(h1)).reply == Returned ==>
              Step(Step(s, ExpectMore(h1)).next, ExpectMore(h2)).reply.IllegalState?
  {
  }

  // ----- The "already finished" error (ChannelState.kt:154-176) -----

  /** The fully qualified class name a Throwable's `toString` starts with. */
  function ClassName(kind: ExceptionKind): string
  {
    match kind
    case ProducerFailureException => "net.mamoe.mirai.utils.channels.ProducerFailureException"
    case IllegalChannelStateException => "net.mamoe.mirai.utils.channels.IllegalChannelStateException"
    case OtherException(name) => name
  }

  /** `Throwable.toString()`: the class name, then ": " and the message when there is one. */
  function Describe(t: Throwable): string
  {
    ClassName(t.kind) + (if t.message.Some? then ": " + t.message.value else "")
  }

  /** The variant name a state's `toString` starts with. */
  function StateName<V>(s: State<V>): string
  {
    match s
    case JustInitialized => "JustInitialized"
    case ProducerReady => "ProducerReady"
    case Producing => "Producing"
    case Consuming(_) => "Consuming"
    case Consumed => "Consumed"
    case Finished(_, _) => "Finished"
  }

  const NormallyHead: string := "Producer has already finished normally"
  const SuppressedHead: string := "Producer has already finished with the suppressed exception"
  const AttemptClause: string := ", but attempting to finish with the cause "

  /** The first part of the message: how the channel finished. */
  function FinishHead(exception: Throwable?): string
  {
    if exception == null then NormallyHead else SuppressedHead
  }

  /** The optional clause naming a cause that finishing was attempted with again. */
  function CauseClause(cause: Throwable?): string
  {
    if cause == null then "" else AttemptClause + Describe(cause)
  }

  /** Everything after the head: the optional cause clause, then the previous state. */
  function MessageTail<V>(previous: State<V>, cause: Throwable?): string
  {
    CauseClause(cause) + PreviousClause + StateName(previous)
  }

  const PreviousClause: string := ". Previous state was: "

  /** The message of `createAlreadyFinishedException(cause)` on `Finished(previous, exception)`. */
  function AlreadyFinishedMessage<V>(previous: State<V>, exception: Throwable?, cause: Throwable?): string
  {
    FinishHead(exception) + MessageTail(previous, cause)
  }

  lemma PrefixOfConcat(a: string, b: string)
    ensures StartsWith(a + b, a) && (a + b)[|a|..] == b
  {
    assert (a + b)[..|a|] == a;
  }

  /** Two prefixes of one string agree on their common length. */
  lemma PrefixesAgree(s: string, p: string, q: string, i: nat)
    requires StartsWith(s, p) && StartsWith(s, q) && i < |p| && i < |q|
    ensures p[i] == q[i]
  {
    assert p[i] == s[..|p|][i] == s[i] == s[..|q|][i];
  }

  /** The message says "finished normally" exactly when no exception was recorded, and "with the suppressed exception" otherwise. */
  lemma AlreadyFinishedSaysNormally<V>(previous: State<V>, exception: Throwable?, cause: Throwable?)
    ensures StartsWith(AlreadyFinishedMessage(previous, exception, cause), NormallyHead) <==> exception == null
    ensures StartsWith(AlreadyFinishedMessage(previous, exception, cause), SuppressedHead) <==> exception != null
  {
    var m := AlreadyFinishedMessage(previous, exception, cause);
    PrefixOfConcat(FinishHead(exception), MessageTail(previous, cause));
    assert NormallyHead[30] == 'n' && SuppressedHead[30] == 'w';
    if exception == null && StartsWith(m, SuppressedHead) {
      PrefixesAgree(m, NormallyHead, SuppressedHead, 30);
    }
    if exception != null && StartsWith(m, NormallyHead) {
      PrefixesAgree(m, NormallyHead, SuppressedHead, 30);
    }
  }

  /** Without a cause the tail begins with the previous-state clause, never with the cause clause. */
  lemma TailWithoutCause<V>(previous: State<V>)
    ensures !StartsWith(MessageTail(previous, null), AttemptClause)
  {
    var rest := MessageTail(previous, null);
    PrefixOfConcat(PreviousClause, StateName(previous));
    assert rest == PreviousClause + StateName(previous);
    assert rest[0] == PreviousClause[0] == '.' && AttemptClause[0] == ',';
  }

  /** A prefix of a prefix is a prefix. */
  lemma StartsWithTransitive(s: string, p: string, q: string)
    requires StartsWith(s, p) && StartsWith(p, q)
    ensures StartsWith(s, q)
  {
    assert s[..|q|] == s[..|p|][..|q|];
  }

  /** With a cause the tail begins with the cause clause naming that cause. */
  lemma TailWithCause<V>(previous: State<V>, cause: Throwable)
    ensures StartsWith(MessageTail(previous, cause), AttemptClause + Describe(cause))
    ensures StartsWith(MessageTail(previous, cause), AttemptClause)
  {
    var clause := AttemptClause + Describe(cause);
    assert CauseClause(cause) == clause;
    PrefixOfConcat(clause + PreviousClause, StateName(previous));
    PrefixOfConcat(clause, PreviousClause);
    StartsWithTransitive(MessageTail(previous, cause), clause + PreviousClause, clause);
    PrefixOfConcat(AttemptClause, Describe(cause));
    StartsWithTransitive(MessageTail(previous, cause), clause, AttemptClause);
  }

  /** After the head, the "attempting to finish with the cause" clause (naming the cause) appears exactly when a cause is given. */
  lemma AlreadyFinishedNamesCause<V>(previous: State<V>, exception: Throwable?, cause: Throwable?)
    ensures var rest := AlreadyFinishedMessage(previous, exception, cause)[|FinishHead(exception)|..];
      && (StartsWith(rest, AttemptClause) <==> cause != null)
      && (cause != null ==> StartsWith(rest, AttemptClause + Describe(cause)))
  {
    PrefixOfConcat(FinishHead(exception), MessageTail(previous, cause));
    if cause == null {
      TailWithoutCause(previous);
    } else {
      TailWithCause(previous, cause);
    }
  }

  /**
   * `createAlreadyFinishedException(cause)`: a fresh IllegalChannelStateException
   * whose cause is the attempted cause and whose only suppressed exception is
   * the recorded one, when there is one.
   */
  method CreateAlreadyFinishedException<V>(finished: State<V>, cause: Throwable?) returns (e: Throwable)
    requires finished.Finished?
    ensures fresh(e) && e.Valid()
    ensures IsAlreadyFinishedError(e, finished, cause)
  {
    var message := AlreadyFinishedMessage(finished.previous, finished.exception, cause);
    e := new Throwable(IllegalChannelStateException, Some(message), cause);
    if finished.exception != null {
      e.AddSuppressed(finished.exception);
    }
  }

  /** What the already-finished error carries. */
  ghost predicate IsAlreadyFinishedError<V>(e: Throwable, finished: State<V>, cause: Throwable?)
    requires finished.Finished?
    reads e
  {
    && e.kind == IllegalChannelStateException
    && e.message == Some(AlreadyFinishedMessage(finished.previous, finished.exception, cause))
    && e.cause == cause
    && e.suppressed == (if finished.exception == null then [] else [finished.exception])
  }
}
