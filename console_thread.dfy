/**
 * The terminal frontend's input handling (mirai-console-terminal,
 * ConsoleThread.kt): how a typed line becomes a command line, and how the
 * reasons a command call matched none of a command's signatures are shown.
 *
 * The command prefix and the help command's primary name are parameters, and
 * so are the parts of the command system the rendering calls into: the usage
 * text `CommandReflector.generateUsage` writes for one signature (`usageOf`),
 * whether a string-constant parameter accepts an argument (`accepts`), and
 * the name a receiver parameter renders as (`renderAsName`, held in the
 * failure reason).
 */
module ConsoleThreads {
  import opened Wrappers
  import opened Text

  /**
   * The input-normalisation lambda of the console command loop: blank input
   * and input that already starts with the prefix are kept, `?` asks for
   * help, and anything else gets the prefix.
   */
  function Normalize(line: string, prefix: string, helpName: string): (r: string)
    ensures IsBlank(line) ==> r == line
    ensures !IsBlank(line) && StartsWith(line, prefix) ==> r == line
    ensures !IsBlank(line) && !StartsWith(line, prefix) && line == "?" ==> r == prefix + helpName
    ensures !IsBlank(line) && !StartsWith(line, prefix) && line != "?" ==> r == prefix + line
  {
    if IsBlank(line) then line
    else if StartsWith(line, prefix) then line
    else if line == "?" then prefix + helpName
    else prefix + line
  }

  /** `s` followed by anything starts with `s`. */
  lemma {:induction false} StartsWithConcat(s: string, t: string)
    ensures StartsWith(s + t, s)
  {
    assert (s + t)[..|s|] == s;
  }

  /** A string with a non-whitespace part is not blank. */
  lemma {:induction false} NotBlankConcat(s: string, t: string)
    requires !IsBlank(t)
    ensures !IsBlank(s + t)
  {
    var i :| 0 <= i < |t| && !IsWhitespace(t[i]);
    assert (s + t)[|s| + i] == t[i];
  }

  /** Every non-blank line becomes a non-blank line that starts with the prefix. */
  lemma {:induction false} NormalizedStartsWithPrefix(line: string, prefix: string, helpName: string)
    requires !IsBlank(helpName)
    ensures !IsBlank(line) ==> StartsWith(Normalize(line, prefix, helpName), prefix)
    ensures !IsBlank(line) ==> !IsBlank(Normalize(line, prefix, helpName))
  {
    if !IsBlank(line) && !StartsWith(line, prefix) {
      if line == "?" {
        StartsWithConcat(prefix, helpName);
        NotBlankConcat(prefix, helpName);
      } else {
        StartsWithConcat(prefix, line);
        NotBlankConcat(prefix, line);
      }
    }
  }

  /** Normalising a normalised line changes nothing. */
  lemma {:induction false} NormalizeIdempotent(line: string, prefix: string, helpName: string)
    requires !IsBlank(helpName)
    ensures Normalize(Normalize(line, prefix, helpName), prefix, helpName) == Normalize(line, prefix, helpName)
  {
    NormalizedStartsWithPrefix(line, prefix, helpName);
  }

  /**
   * One turn of the command loop: the command line that gets executed, or
   * None when the normalised line is blank and the loop reads the next one.
   */
  function CommandToExecute(line: string, prefix: string, helpName: string): (r: Option<string>)
    requires !IsBlank(helpName)
    ensures r.None? <==> IsBlank(line)
    ensures r.Some? ==> r.value == Normalize(line, prefix, helpName)
    ensures r.Some? ==> StartsWith(r.value, prefix) && !IsBlank(r.value)
  {
    var next := Normalize(line, prefix, helpName);
    NormalizedStartsWithPrefix(line, prefix, helpName);
    if IsBlank(next) then None else Some(next)
  }

  /** A command value parameter: a literal word the call must contain, or any other kind. */
  datatype ValueParameter =
    | StringConstant(expected: string, ignoreCase: bool)
    | OtherParameter(name: string)

  /** Why a call did not match a signature (`FailureReason`). */
  datatype FailureReason =
      /** The sender cannot run this signature; the receiver parameter renders as `receiverName`. */
    | InapplicableReceiverArgument(receiverName: string)
      /** A value argument does not fit `parameter`. */
    | InapplicableValueArgument(parameter: ValueParameter)
    | TooManyArguments
    | NotEnoughArguments
    | ResolutionAmbiguity
    | ArgumentLengthMismatch

  datatype CommandSignature = CommandSignature(receiverName: Option<string>, valueParameters: seq<ValueParameter>)

  datatype UnmatchedCommandSignature = UnmatchedCommandSignature(signature: CommandSignature, failureReason: FailureReason)

  const ReceiverHead: string := "需要由 "
  const ReceiverTail: string := " 执行"

  /** `FailureReason.render()`: a fixed message per kind, naming the required sender for a receiver mismatch. */
  function RenderReason(reason: FailureReason): (r: string)
    ensures reason.InapplicableReceiverArgument? <==> StartsWith(r, ReceiverHead)
    ensures reason.InapplicableReceiverArgument? ==> r == ReceiverHead + reason.receiverName + ReceiverTail
    ensures reason.InapplicableValueArgument? ==> r == "参数类型错误"
    ensures reason.TooManyArguments? ==> r == "参数过多"
    ensures reason.NotEnoughArguments? ==> r == "参数不足"
    ensures reason.ResolutionAmbiguity? ==> r == "调用歧义"
    ensures reason.ArgumentLengthMismatch? ==> r == "参数长度不匹配"
  {
    assert ReceiverHead[0] == '需';
    match reason
    case InapplicableReceiverArgument(name) =>
      StartsWithConcat(ReceiverHead, name + ReceiverTail);
      assert ReceiverHead + name + ReceiverTail == ReceiverHead + (name + ReceiverTail);
      ReceiverHead + name + ReceiverTail
    case InapplicableValueArgument(_) => "参数类型错误"
    case TooManyArguments => "参数过多"
    case NotEnoughArguments => "参数不足"
    case ResolutionAmbiguity => "调用歧义"
    case ArgumentLengthMismatch => "参数长度不匹配"
  }

  /** The kind of a reason, without its payload. */
  function Kind(reason: FailureReason): nat
  {
    match reason
    case InapplicableReceiverArgument(_) => 0
    case InapplicableValueArgument(_) => 1
    case TooManyArguments => 2
    case NotEnoughArguments => 3
    case ResolutionAmbiguity => 4
    case ArgumentLengthMismatch => 5
  }

  /** The message tells the kind of reason: different kinds never render alike. */
  lemma {:induction false} RenderReasonTellsKind(a: FailureReason, b: FailureReason)
    requires Kind(a) != Kind(b)
    ensures RenderReason(a) != RenderReason(b)
  {
    var ra, rb := RenderReason(a), RenderReason(b);
    if !a.InapplicableReceiverArgument? && !b.InapplicableReceiverArgument? {
      // The five fixed messages differ in length or in their second or third character.
      assert ra != rb by {
        if |ra| == |rb| {
          assert ra[0] != rb[0] || ra[1] != rb[1] || ra[2] != rb[2];
        }
      }
    }
  }

  /**
   * `anyStringConstantUnmatched`: some string-constant parameter does not
   * accept the argument at its position. Parameters and arguments are paired
   * up (`zip`) only as far as the shorter list goes.
   */
  function AnyStringConstantUnmatched(parameters: seq<ValueParameter>, arguments: seq<string>,
                                      accepts: (ValueParameter, string) -> bool): (r: bool)
    ensures r <==> exists i :: 0 <= i < |parameters| && i < |arguments| &&
                              parameters[i].StringConstant? && !accepts(parameters[i], arguments[i])
  {
    if parameters == [] || arguments == [] then false
    else
      var rest := AnyStringConstantUnmatched(parameters[1..], arguments[1..], accepts);
      assert rest ==> exists i :: 0 <= i < |parameters| && i < |arguments| &&
                                 parameters[i].StringConstant? && !accepts(parameters[i], arguments[i]) by {
        if rest {
          var j :| 0 <= j < |parameters[1..]| && j < |arguments[1..]| &&
                   parameters[1..][j].StringConstant? && !accepts(parameters[1..][j], arguments[1..][j]);
          assert parameters[j + 1] == parameters[1..][j] && arguments[j + 1] == arguments[1..][j];
        }
      }
      assert (exists i :: 0 <= i < |parameters| && i < |arguments| &&
                          parameters[i].StringConstant? && !accepts(parameters[i], arguments[i]))
             ==> (parameters[0].StringConstant? && !accepts(parameters[0], arguments[0])) || rest by {
        if exists i :: 0 <= i < |parameters| && i < |arguments| &&
                       parameters[i].StringConstant? && !accepts(parameters[i], arguments[i]) {
          var i :| 0 <= i < |parameters| && i < |arguments| &&
                   parameters[i].StringConstant? && !accepts(parameters[i], arguments[i]);
          if i > 0 {
            assert parameters[1..][i - 1] == parameters[i] && arguments[1..][i - 1] == arguments[i];
          }
        }
      }
      (parameters[0].StringConstant? && !accepts(parameters[0], arguments[0])) || rest
  }

  /**
   * The filter of `List<UnmatchedCommandSignature>.render`: a signature is
   * shown unless it failed on a string-constant parameter, or one of its
   * string constants rejects the argument given for it; such a signature is
   * evidently not the one the user meant.
   */
  predicate Shown(s: UnmatchedCommandSignature, arguments: seq<string>, accepts: (ValueParameter, string) -> bool)
  {
    && !(s.failureReason.InapplicableValueArgument? && s.failureReason.parameter.StringConstant?)
    && !AnyStringConstantUnmatched(s.signature.valueParameters, arguments, accepts)
  }

  /** The shown signatures, in their order. */
  function ShownSignatures(signatures: seq<UnmatchedCommandSignature>, arguments: seq<string>,
                           accepts: (ValueParameter, string) -> bool): (r: seq<UnmatchedCommandSignature>)
    ensures |r| <= |signatures|
    ensures forall i :: 0 <= i < |r| ==> Shown(r[i], arguments, accepts) && r[i] in signatures
    ensures forall i :: 0 <= i < |signatures| && Shown(signatures[i], arguments, accepts) ==> signatures[i] in r
    ensures |signatures| == 1 ==> r == (if Shown(signatures[0], arguments, accepts) then signatures else [])
  {
    if signatures == [] then []
    else
      var rest := ShownSignatures(signatures[1..], arguments, accepts);
      assert forall i :: 1 <= i < |signatures| ==> signatures[i] == signatures[1..][i - 1];
      if Shown(signatures[0], arguments, accepts) then [signatures[0]] + rest else rest
  }

  /** Filtering keeps order and multiplicity: it distributes over concatenation. */
  lemma {:induction false} ShownSignaturesConcat(a: seq<UnmatchedCommandSignature>, b: seq<UnmatchedCommandSignature>,
                                                 arguments: seq<string>, accepts: (ValueParameter, string) -> bool)
    ensures ShownSignatures(a + b, arguments, accepts) ==
              ShownSignatures(a, arguments, accepts) + ShownSignatures(b, arguments, accepts)
  {
    if a == [] {
      assert a + b == b;
    } else {
      assert (a + b)[0] == a[0];
      assert (a + b)[1..] == a[1..] + b;
      ShownSignaturesConcat(a[1..], b, arguments, accepts);
    }
  }

  /** `UnmatchedCommandSignature.render(command)`: the trimmed usage, four spaces, then the reason in parentheses. */
  function RenderSignature(s: UnmatchedCommandSignature, usageOf: CommandSignature -> string): (r: string)
    ensures StartsWith(r, Trim(usageOf(s.signature)))
    ensures |r| == |Trim(usageOf(s.signature))| + 6 + |RenderReason(s.failureReason)|
    ensures r[|Trim(usageOf(s.signature))|..] == "    (" + RenderReason(s.failureReason) + ")"
  {
    var usage := Trim(usageOf(s.signature));
    var r := usage + ("    (" + RenderReason(s.failureReason) + ")");
    assert r[..|usage|] == usage;
    r
  }

  function RenderEach(signatures: seq<UnmatchedCommandSignature>, usageOf: CommandSignature -> string): (r: seq<string>)
    ensures |r| == |signatures|
    ensures forall i :: 0 <= i < |r| ==> r[i] == RenderSignature(signatures[i], usageOf)
  {
    seq(|signatures|, i requires 0 <= i < |signatures| => RenderSignature(signatures[i], usageOf))
  }

  lemma RenderEachConcat(a: seq<UnmatchedCommandSignature>, b: seq<UnmatchedCommandSignature>,
                         usageOf: CommandSignature -> string)
    ensures RenderEach(a + b, usageOf) == RenderEach(a, usageOf) + RenderEach(b, usageOf)
  {
    var l, r := RenderEach(a + b, usageOf), RenderEach(a, usageOf) + RenderEach(b, usageOf);
    assert |l| == |r|;
    forall i | 0 <= i < |l| ensures l[i] == r[i] {
      if i < |a| {
        assert (a + b)[i] == a[i];
      } else {
        assert (a + b)[i] == b[i - |a|];
      }
    }
  }

  /**
   * `List<UnmatchedCommandSignature>.render(command, call)`: the shown
   * signatures' renders, one per line; the command's whole usage when none
   * is shown.
   */
  function RenderUnmatched(signatures: seq<UnmatchedCommandSignature>, commandUsage: string, arguments: seq<string>,
                           accepts: (ValueParameter, string) -> bool, usageOf: CommandSignature -> string): (r: string)
    ensures ShownSignatures(signatures, arguments, accepts) == [] ==> r == commandUsage
    ensures |ShownSignatures(signatures, arguments, accepts)| == 1 ==>
              r == RenderSignature(ShownSignatures(signatures, arguments, accepts)[0], usageOf)
    // In particular the usage is the answer when every signature failed on a string constant.
    ensures (forall i :: 0 <= i < |signatures| ==>
               signatures[i].failureReason.InapplicableValueArgument? &&
               signatures[i].failureReason.parameter.StringConstant?) ==> r == commandUsage
  {
    var list := ShownSignatures(signatures, arguments, accepts);
    if list == [] then commandUsage else Join(RenderEach(list, usageOf), "\n")
  }

  /**
   * The renders of two lists each showing something are one "\n" apart: a
   * list renders as its shown signatures' renders, in order, one per line.
   */
  lemma RenderUnmatchedConcat(a: seq<UnmatchedCommandSignature>, b: seq<UnmatchedCommandSignature>, commandUsage: string,
                              arguments: seq<string>, accepts: (ValueParameter, string) -> bool,
                              usageOf: CommandSignature -> string)
    requires ShownSignatures(a, arguments, accepts) != [] && ShownSignatures(b, arguments, accepts) != []
    ensures RenderUnmatched(a + b, commandUsage, arguments, accepts, usageOf) ==
              RenderUnmatched(a, commandUsage, arguments, accepts, usageOf) + "\n" +
              RenderUnmatched(b, commandUsage, arguments, accepts, usageOf)
  {
    var la, lb := ShownSignatures(a, arguments, accepts), ShownSignatures(b, arguments, accepts);
    ShownSignaturesConcat(a, b, arguments, accepts);
    RenderEachConcat(la, lb, usageOf);
    JoinConcat(RenderEach(la, usageOf), RenderEach(lb, usageOf), "\n");
  }

}
