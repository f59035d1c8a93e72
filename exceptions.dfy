/** Option and Result, and the Python exceptions the core raises or catches. */
module Exceptions {
  import opened Strings

  datatype Option<+T> = None | Some(value: T)

  /** The Python exception classes that occur in the core. */
  datatype Exception =
    | ValueError(msg: string)
    | KeyError(key: string)
    | IndexError(msg: string)
    | AttributeError(msg: string)
    | TypeError(msg: string)
    | FileNotFoundError(msg: string)
    | RuntimeError(msg: string)
    | EOFError
    | HttpException(status: nat, detail: string)
    | OtherError(kind: string, msg: string)

  /** `str(e)`. A KeyError shows the repr of its key; EOFError raised by `input()`
      carries a fixed text; an HTTPException shows "status: detail". */
  function Str(e: Exception): string
  {
    match e
    case KeyError(k) => Quote(k)
    case EOFError => "EOF when reading a line"
    case HttpException(status, detail) => IntToString(status) + ": " + detail
    case ValueError(m) => m
    case IndexError(m) => m
    case AttributeError(m) => m
    case TypeError(m) => m
    case FileNotFoundError(m) => m
    case RuntimeError(m) => m
    case OtherError(_, m) => m
  }

  /** A value, or the exception that the Python code raises instead. */
  datatype Result<+T> = Ok(value: T) | Err(error: Exception) {
    predicate IsFailure() { Err? }

    function PropagateFailure<U>(): Result<U>
      requires Err?
    {
      Err(error)
    }

    function Extract(): T
      requires Ok?
    {
      value
    }
  }

  const IndexOutOfRange := IndexError("list index out of range")

  /** `[f(x) for x in items]` where `f` may raise: every result in order, or the
      exception of the first item that raises. */
  function Traverse<T, U>(f: T -> Result<U>, items: seq<T>): (r: Result<seq<U>>)
    ensures r.Ok? <==> forall i :: 0 <= i < |items| ==> f(items[i]).Ok?
    ensures r.Ok? ==> |r.value| == |items| && forall i :: 0 <= i < |items| ==> r.value[i] == f(items[i]).value
    ensures r.Err? ==> exists k :: 0 <= k < |items| && f(items[k]) == Err(r.error) && forall i :: 0 <= i < k ==> f(items[i]).Ok?
  {
    if items == [] then Ok([])
    else
      var init := items[..|items| - 1];
      var last := items[|items| - 1];
      assert forall i :: 0 <= i < |init| ==> init[i] == items[i];
      match Traverse(f, init)
      case Err(e) => Err(e)
      case Ok(done) =>
        match f(last)
        case Err(e) => Err(e)
        case Ok(v) => Ok(done + [v])
  }

  /** Once a prefix raises, the whole list raises the same exception. */
  lemma {:induction false} TraverseFailsEarly<T, U>(f: T -> Result<U>, items: seq<T>, j: nat)
    requires j <= |items| && Traverse(f, items[..j]).Err?
    ensures Traverse(f, items) == Traverse(f, items[..j])
    decreases |items|
  {
    if j < |items| {
      var init := items[..|items| - 1];
      assert init[..j] == items[..j];
      TraverseFailsEarly(f, init, j);
    } else {
      assert items[..j] == items;
    }
  }

  /** Traversing one more item: the prefix's results, then that item's. */
  lemma TraverseStep<T, U>(f: T -> Result<U>, items: seq<T>, i: nat)
    requires i < |items| && Traverse(f, items[..i]).Ok?
    ensures Traverse(f, items[..i + 1]) ==
      if f(items[i]).Ok? then Ok(Traverse(f, items[..i]).value + [f(items[i]).value]) else Err(f(items[i]).error)
  {
    assert items[..i + 1][..i] == items[..i];
  }
}
