/** Failure-compatible result type for the schema compiler, and the error
    kinds it can report.

    The library raises three exception classes of its own (a type error, a
    reference error and a combiner error); everything else that can go wrong
    on malformed input is a Python built-in exception raised by the
    interpreter (a `KeyError`, an `AttributeError` on a missing method, a
    built-in `TypeError` for an unhashable key or a non-subscriptable value,
    or a `RecursionError` once the interpreter's stack is exhausted).
 */
module Outcomes {

  datatype Option<+T> = None | Some(value: T) {
    function GetOr(default: T): T {
      match this
      case Some(v) => v
      case None => default
    }
  }

  /** Built-in Python exceptions the compiler can let escape. */
  datatype PyExc = KeyError | AttributeError | BuiltinTypeError | RecursionError

  /** Error kinds; message text is not modelled. */
  datatype Error =
    | TypeErr       // json_schema_to_pydantic.TypeError
    | RefErr        // json_schema_to_pydantic.ReferenceError
    | CombinerErr   // json_schema_to_pydantic.CombinerError
    | PyErr(exc: PyExc)

  datatype Result<+T> = Ok(value: T) | Err(error: Error) {
    predicate IsFailure() {
      Err?
    }

    function PropagateFailure<U>(): Result<U>
      requires Err?
    {
      Err(error)
    }

    function Extract(): T
      requires Ok?
    {
      value
    }
  }

  /** Applies `f` to every element in order and stops at the first failure,
      the way a Python loop or comprehension does when a call raises. */
  function MapAll<A, B>(f: A -> Result<B>, xs: seq<A>): (r: Result<seq<B>>)
    ensures r.Ok? <==> forall i :: 0 <= i < |xs| ==> f(xs[i]).Ok?
    ensures r.Ok? ==> |r.value| == |xs| && forall i :: 0 <= i < |xs| ==> f(xs[i]) == Ok(r.value[i])
    ensures r.Err? ==>
      exists i :: 0 <= i < |xs| && f(xs[i]) == Err(r.error) && forall j :: 0 <= j < i ==> f(xs[j]).Ok?
  {
    if xs == [] then Ok([])
    else
      match f(xs[0])
      case Err(e) => Err(e)
      case Ok(y) =>
        match MapAll(f, xs[1..])
        case Err(e) =>
          assert forall i :: 1 <= i < |xs| ==> f(xs[i]) == f(xs[1..][i - 1]);
          Err(e)
        case Ok(ys) => Ok([y] + ys)
  }
}
