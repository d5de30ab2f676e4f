/** Optional values, results with an error usable with `:-`, and a fallible call mapped over a list. */
module Wrappers {

  /** Python's `Optional[T]`: either `None` or a present value. */
  datatype Option<+T> = None | Some(value: T)

  /** The outcome of a Python call that either returns a value or raises. */
  datatype Result<T, E> = Ok(value: T) | Err(error: E) {

    predicate IsFailure() {
      Err?
    }

    function PropagateFailure<U>(): Result<U, E>
      requires Err?
    {
      Err(error)
    }

    function Extract(): T
      requires Ok?
    {
      value
    }
  }

  /** Every element maps to a value under `parse`. */
  predicate AllOk<S, T, E>(xs: seq<S>, parse: S -> Result<T, E>) {
    forall i :: 0 <= i < |xs| ==> parse(xs[i]).Ok?
  }

  lemma AllOkCons<S, T, E>(x: S, rest: seq<S>, parse: S -> Result<T, E>)
    requires parse(x).Ok? && AllOk(rest, parse)
    ensures AllOk([x] + rest, parse)
  {
    forall i | 0 <= i < |[x] + rest| ensures parse(([x] + rest)[i]).Ok? {
      if i > 0 {
        assert ([x] + rest)[i] == rest[i - 1];
      }
    }
  }

  /**
   * Each element mapped in order: all the results, or the error of the first
   * element that fails, as a Python loop or `list(map(...))` raises there.
   */
  function ParseEach<S, T, E>(xs: seq<S>, parse: S -> Result<T, E>): (r: Result<seq<T>, E>)
    ensures r.Ok? <==> AllOk(xs, parse)
    ensures r.Ok? ==> |r.value| == |xs| && forall i :: 0 <= i < |xs| ==> Ok(r.value[i]) == parse(xs[i])
    ensures r.Err? ==> exists i :: 0 <= i < |xs| && parse(xs[i]) == Err(r.error) && AllOk(xs[..i], parse)
  {
    if xs == [] then Ok([])
    else
      match parse(xs[0])
      case Err(e) =>
        assert AllOk(xs[..0], parse);
        Err(e)
      case Ok(v) =>
        match ParseEach(xs[1..], parse)
        case Err(e) =>
          ParseEachFailsAt(xs, parse, e);
          Err(e)
        case Ok(rest) =>
          assert xs == [xs[0]] + xs[1..];
          AllOkCons(xs[0], xs[1..], parse);
          Ok([v] + rest)
  }

  /** When the tail fails at some element, the whole list fails at the element after it. */
  lemma ParseEachFailsAt<S, T, E>(xs: seq<S>, parse: S -> Result<T, E>, e: E)
    requires xs != [] && parse(xs[0]).Ok?
    requires exists i :: 0 <= i < |xs[1..]| && parse(xs[1..][i]) == Err(e) && AllOk(xs[1..][..i], parse)
    ensures exists i :: 0 <= i < |xs| && parse(xs[i]) == Err(e) && AllOk(xs[..i], parse)
  {
    var i :| 0 <= i < |xs[1..]| && parse(xs[1..][i]) == Err(e) && AllOk(xs[1..][..i], parse);
    assert xs[1..][i] == xs[i + 1];
    assert xs[..i + 1] == [xs[0]] + xs[1..][..i];
    AllOkCons(xs[0], xs[1..][..i], parse);
  }
}
