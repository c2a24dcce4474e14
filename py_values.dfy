/** The Python values the backend services handle: a decoded JSON value, the
    exceptions the service code can raise on it, and the few operations it
    applies (truthiness, `x[k]`, iteration, `.strip()`). */
module PyValues {
  import opened Text

  /** A decoded JSON value.  A JSON object is represented by its keys, which
      is all that iterating or indexing it with an integer depends on. */
  datatype PyVal =
    | PNone
    | PBool(b: bool)
    | PNum(x: real)
    | PStr(s: string)
    | PList(items: seq<PyVal>)
    | PDict(keys: seq<string>)

  datatype PyExc = ValueError | IndexError | KeyError | TypeError | AttributeError

  /** The result of evaluating Python code: a value, or the exception raised. */
  datatype Outcome<+T> = Ok(value: T) | Raised(exc: PyExc)
  {
    predicate IsFailure() { Raised? }

    function PropagateFailure<U>(): Outcome<U>
      requires Raised?
    {
      Raised(exc)
    }

    function Extract(): T
      requires Ok?
    {
      value
    }
  }

  /** Python truthiness: None, False, 0, "" and empty containers are false. */
  predicate Truthy(v: PyVal)
  {
    match v
    case PNone => false
    case PBool(b) => b
    case PNum(x) => x != 0.0
    case PStr(s) => s != ""
    case PList(items) => items != []
    case PDict(keys) => keys != []
  }

  /** `v[k]` for a non-negative integer k. */
  function Index(v: PyVal, k: nat): (r: Outcome<PyVal>)
    ensures r.Ok? <==> (v.PList? && k < |v.items|) || (v.PStr? && k < |v.s|)
    ensures r.Ok? && v.PList? ==> r.value == v.items[k]
    ensures r.Ok? && v.PStr? ==> r.value == PStr([v.s[k]])
    ensures r.Raised? && (v.PList? || v.PStr?) ==> r.exc == IndexError
    ensures v.PDict? ==> r == Raised(KeyError)
    ensures !(v.PList? || v.PStr? || v.PDict?) ==> r == Raised(TypeError)
  {
    match v
    case PList(items) => if k < |items| then Ok(items[k]) else Raised(IndexError)
    case PStr(s) => if k < |s| then Ok(PStr([s[k]])) else Raised(IndexError)
    case PDict(_) => Raised(KeyError)
    case _ => Raised(TypeError)
  }

  /** The elements `for x in v` visits: the items of a list, the one-character
      strings of a string, the keys of a dict. */
  function Iterate(v: PyVal): (r: Outcome<seq<PyVal>>)
    ensures r.Ok? <==> v.PList? || v.PStr? || v.PDict?
    ensures r.Ok? && v.PList? ==> r.value == v.items
    ensures r.Ok? && v.PStr? ==> |r.value| == |v.s| && forall i :: 0 <= i < |v.s| ==> r.value[i] == PStr([v.s[i]])
    ensures r.Ok? && v.PDict? ==> |r.value| == |v.keys| && forall i :: 0 <= i < |v.keys| ==> r.value[i] == PStr(v.keys[i])
    ensures r.Raised? ==> r.exc == TypeError
  {
    match v
    case PList(items) => Ok(items)
    case PStr(s) => Ok(seq(|s|, i requires 0 <= i < |s| => PStr([s[i]])))
    case PDict(keys) => Ok(seq(|keys|, i requires 0 <= i < |keys| => PStr(keys[i])))
    case _ => Raised(TypeError)
  }

  /** `v.strip()`: only strings have the method. */
  function StripOf(v: PyVal): (r: Outcome<string>)
    ensures r.Ok? <==> v.PStr?
    ensures r.Ok? ==> r.value == Strip(v.s)
    ensures r.Raised? ==> r.exc == AttributeError
  {
    if v.PStr? then Ok(Strip(v.s)) else Raised(AttributeError)
  }

  /** `v or default`. */
  function OrElse(v: PyVal, default: PyVal): (r: PyVal)
    ensures Truthy(v) ==> r == v
    ensures !Truthy(v) ==> r == default
  {
    if Truthy(v) then v else default
  }
}
