/** Values shared by every module: an optional value (Python's `None`), the
    exceptions the harness raises or catches, and a result that is either a
    value or a raised exception. */
module Py {

  datatype Option<T> = None | Some(value: T) {
    predicate IsFailure() { None? }
    function PropagateFailure<U>(): Option<U> requires None? { None }
    function Extract(): T requires Some? { value }
  }

  /** The truth value of an optional string: neither None nor empty. */
  predicate Truthy(s: Option<string>)
  {
    s.Some? && s.value != ""
  }

  /** A Python exception, by class; the message is kept where the harness
      reads it back (clue matching, error logs). */
  datatype Exception =
    | ValueError(msg: string)
    | KeyError(key: string)
    | IndexError(msg: string)
    | TypeError(msg: string)
    | AttributeError(msg: string)
    | FileNotFoundError(msg: string)
    | AssertionError
    | StopIteration
    | Raised(msg: string)   // any exception raised by foreign code, by its message

  /** The message `str(e)` of an exception. */
  function Message(e: Exception): string
  {
    match e
    case ValueError(m) => m
    case KeyError(k) => "'" + k + "'"
    case IndexError(m) => m
    case TypeError(m) => m
    case AttributeError(m) => m
    case FileNotFoundError(m) => m
    case AssertionError => ""
    case StopIteration => ""
    case Raised(m) => m
  }

  /** A value as the harness stores it in a status dict and dumps it as
      JSON. Times are kept as integers; `Other` is an object JSON cannot
      encode, by its `repr`. */
  datatype Value =
    | Null
    | Bool(b: bool)
    | Int(i: int)
    | Str(s: string)
    | List(items: seq<Value>)
    | Other(repr: string)

  /** A Python dict from strings to such values. */
  type Dict = map<string, Value>

  /** Either the value a Python call returns, or the exception it raises. */
  datatype Result<T> = Ok(value: T) | Err(exc: Exception) {
    predicate IsFailure() { Err? }
    function PropagateFailure<U>(): Result<U> requires Err? { Err(exc) }
    function Extract(): T requires Ok? { value }
  }

  /** The result of a loop that has collected `done` and goes on with a
      remainder whose result is `rest`: an error of the remainder is the
      loop's error. */
  function Prepend<T>(done: seq<T>, rest: Result<seq<T>>): Result<seq<T>>
  {
    if rest.Ok? then Ok(done + rest.value) else rest
  }

  lemma {:induction false} PrependPrepend<T>(a: seq<T>, b: seq<T>, rest: Result<seq<T>>)
    ensures Prepend(a, Prepend(b, rest)) == Prepend(a + b, rest)
  {
    if rest.Ok? {
      assert a + (b + rest.value) == (a + b) + rest.value;
    }
  }

  lemma {:induction false} PrependEmpty<T>(rest: Result<seq<T>>)
    ensures Prepend([], rest) == rest
  {
    if rest.Ok? {
      assert [] + rest.value == rest.value;
    }
  }

  /** `[m[k] for k in keys]`: the first key the map lacks raises
      KeyError. */
  function Lookup<V>(m: map<string, V>, keys: seq<string>): Result<seq<V>>
  {
    if keys == [] then Ok([])
    else if keys[0] !in m then Err(KeyError(keys[0]))
    else Prepend([m[keys[0]]], Lookup(m, keys[1..]))
  }

  /** The lookup succeeds iff every key is in the map, and then gives the
      value of each key in order; otherwise it raises KeyError for the
      first key that is not. */
  lemma {:induction false} LookupSpec<V>(m: map<string, V>, keys: seq<string>)
    ensures Lookup(m, keys).Ok? <==> forall i :: 0 <= i < |keys| ==> keys[i] in m
    ensures Lookup(m, keys).Ok? ==> && |Lookup(m, keys).value| == |keys|
                                    && forall i :: 0 <= i < |keys| ==> Lookup(m, keys).value[i] == m[keys[i]]
    ensures Lookup(m, keys).Err? ==> exists i :: && 0 <= i < |keys| && keys[i] !in m
                                                && Lookup(m, keys).exc == KeyError(keys[i])
                                                && forall j :: 0 <= j < i ==> keys[j] in m
  {
    if keys != [] && keys[0] in m {
      var rest := keys[1..];
      LookupSpec(m, rest);
      assert forall i :: 0 <= i < |rest| ==> rest[i] == keys[i + 1];
      if Lookup(m, rest).Err? {
        var i :| && 0 <= i < |rest| && rest[i] !in m && Lookup(m, rest).exc == KeyError(rest[i])
                 && forall j :: 0 <= j < i ==> rest[j] in m;
        assert keys[i + 1] !in m;
        assert forall j :: 0 <= j < i + 1 ==> keys[j] in m by {
          forall j | 0 <= j < i + 1 ensures keys[j] in m {
            if j > 0 { assert keys[j] == rest[j - 1]; }
          }
        }
      } else {
        assert Lookup(m, keys).value == [m[keys[0]]] + Lookup(m, rest).value;
      }
    } else if keys != [] {
      assert keys[0] !in m;
    }
  }
}
