/** The evaluator call of main() and the mapping of its outcome, and of the
    resolution's early exits, to the process's exit status. */
module Dispatcher {
  import opened Values
  import opened Resolver

  /** What the evaluator's evaluate() can do: return, raise a ValueError
      with a message, or raise anything else. */
  datatype EvalOutcome = Ok | ValueErr(msg: string) | OtherErr(kind: string)

  /** How main() ends: it returns (exit status 0), it logs messages and
      calls sys.exit(1), or an exception escapes it. */
  datatype ExitStatus = Exit0 | Exit1(messages: seq<string>) | Propagate(exc: Exception)

  const ContactHint: string :=
    "please fix the error and try again, or contact zerospeech2020@gmail.com if you need assistance"

  /** The try/except around the evaluator call: returning is exit 0, a
      ValueError logs exactly the fatal error line and the contact hint and
      exits 1, and anything else is not caught. */
  function ExitOf(outcome: EvalOutcome): (r: ExitStatus)
    ensures r == Exit0 <==> outcome == Ok
    ensures r.Exit1? <==> outcome.ValueErr?
    ensures outcome.ValueErr? ==> r.messages == ["fatal error: " + outcome.msg, ContactHint]
    ensures r.Propagate? <==> outcome.OtherErr?
    ensures outcome.OtherErr? ==> r.exc == EvaluatorError(outcome.kind)
  {
    match outcome
    case Ok => Exit0
    case ValueErr(msg) => Exit1(["fatal error: " + msg, ContactHint])
    case OtherErr(kind) => Propagate(EvaluatorError(kind))
  }

  /** main() after parsing: resolve the namespace, then hand the request to
      the evaluator, whose behaviour is the parameter `evaluate`. It ends
      with status 0 only when resolution succeeded and the evaluator
      returned; an early exit or an exception of the resolution ends it
      as it is. */
  function Main(args: Bag, evaluate: Request -> EvalOutcome): (r: ExitStatus)
    ensures r == Exit0 <==> Resolve(args).Success? && evaluate(Resolve(args).value) == Ok
    ensures Resolve(args).Failure? && Resolve(args).error.Exit? ==> r == Exit1(Resolve(args).error.messages)
    ensures Resolve(args).Failure? && Resolve(args).error.Raise? ==> r == Propagate(Resolve(args).error.exc)
    ensures Resolve(args).Success? ==> r == ExitOf(evaluate(Resolve(args).value))
  {
    match Resolve(args)
    case Failure(Exit(messages)) => Exit1(messages)
    case Failure(Raise(exc)) => Propagate(exc)
    case Success(request) => ExitOf(evaluate(request))
  }
}
