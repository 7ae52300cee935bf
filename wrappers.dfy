/** Option and Result, the Python exceptions the modelled code can raise,
    mapping a failing function over a list, and the associativity of
    sequence concatenation. */
module Wrappers {

  datatype Option<+T> = None | Some(value: T)

  datatype Result<+T, +E> = Ok(value: T) | Err(error: E)

  /** The exceptions the modelled code raises: a missing dictionary key, a
      failed `assert`, indexing past the end of a list, subscripting or
      calling a method on a value of the wrong type, and a bulk request that
      Elasticsearch did not carry out in full. */
  datatype PyError =
    | KeyError(key: string)
    | AssertionError
    | IndexError
    | TypeError
    | AttributeError
    | BulkIndexError

  /** `str(e)` of the exception, as it appears in an f-string. A KeyError
      prints its key in quotes and a bare `assert` prints nothing. The wording
      of the other errors depends on the values at hand and is not
      reproduced. */
  function ErrorText(e: PyError): (t: string)
    ensures e.KeyError? ==> t == "'" + e.key + "'"
    ensures e.AssertionError? <==> t == ""
  {
    match e
    case KeyError(k) => "'" + k + "'"
    case AssertionError => ""
    case IndexError => "list index out of range"
    case TypeError => "TypeError"
    case AttributeError => "AttributeError"
    case BulkIndexError => "BulkIndexError"
  }

  lemma AppendAssoc<T>(a: seq<T>, b: seq<T>, c: seq<T>)
    ensures a + b + c == a + (b + c)
  {
  }

  /** `list(map(f, xs))`: the images in order, or the exception of the
      first item `f` fails on. */
  function MapAll<A, B>(f: A -> Result<B, PyError>, xs: seq<A>): (r: Result<seq<B>, PyError>)
    ensures r.Ok? <==> forall i :: 0 <= i < |xs| ==> f(xs[i]).Ok?
    ensures r.Ok? ==> |r.value| == |xs| && forall i :: 0 <= i < |xs| ==> f(xs[i]) == Ok(r.value[i])
  {
    if |xs| == 0 then Ok([])
    else match f(xs[0])
      case Err(e) => Err(e)
      case Ok(y) =>
        match MapAll(f, xs[1..])
        case Err(e) => Err(e)
        case Ok(ys) =>
          assert forall i :: 1 <= i < |xs| ==> xs[i] == xs[1..][i - 1];
          Ok([y] + ys)
  }

  /** A failure is the exception of the first item `f` fails on. */
  lemma {:induction false} MapAllFirstError<A, B>(f: A -> Result<B, PyError>, xs: seq<A>)
    requires MapAll(f, xs).Err?
    ensures exists i :: && 0 <= i < |xs| && f(xs[i]) == Err(MapAll(f, xs).error)
                        && forall k :: 0 <= k < i ==> f(xs[k]).Ok?
  {
    if f(xs[0]).Ok? {
      var rest := xs[1..];
      MapAllFirstError(f, rest);
      var i :| && 0 <= i < |rest| && f(rest[i]) == Err(MapAll(f, rest).error)
               && forall k :: 0 <= k < i ==> f(rest[k]).Ok?;
      assert forall k :: 0 <= k < i ==> rest[k] == xs[k + 1];
      assert f(xs[i + 1]) == Err(MapAll(f, xs).error);
      assert forall k :: 1 <= k < i + 1 ==> f(xs[k]).Ok?;
    }
  }

}
