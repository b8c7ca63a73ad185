/** Python values as they appear in the argparse namespace of the
    evaluation command line, and the failure-compatible Result used to
    model the early exits and exceptions of main(). */
module Values {

  /** A value stored under a key of the parsed namespace: None, a string, an
      integer (the -j and -n defaults, -j after int conversion) or a list
      (the -dr default, and the lists main() builds). */
  datatype Value = VNone | VStr(s: string) | VInt(i: int) | VList(items: seq<Value>)

  /** The keys (argparse dests) the namespace can hold. */
  datatype Key =
    | Submission | Output | NJobs | Edition | Track | Language
    | Distance | Distance17 | Distance19 | Duration | Normalize | TaskFolder

  /** The parsed namespace: a key is absent exactly when no argument of the
      selected parser path declares it (the `'x' in args` test). */
  type Bag = map<Key, Value>

  /** The exceptions the resolution code can raise on its own. */
  datatype Exception =
    | AttributeError(attr: Key)      // reading args.<attr> when the key is absent
    | UnboundLocalError(name: Key)   // reading a local no branch assigned
    | EvaluatorError(kind: string)      // anything but a ValueError raised by the evaluator

  datatype Option<+T> = None | Some(value: T)

  datatype Result<+T, +E> = Success(value: T) | Failure(error: E) {
    predicate IsFailure() { Failure? }

    function PropagateFailure<U>(): Result<U, E>
      requires Failure?
    {
      Failure(error)
    }

    function Extract(): T
      requires Success?
    {
      value
    }
  }

  /** Promotion of a bare string to a one-element list; anything else is
      left as it is. */
  function Promote(v: Value): Value
  {
    if v.VStr? then VList([v]) else v
  }
}
