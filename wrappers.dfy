/** Optional values and results used across the model. */
module Wrappers {

  /** An optional value: a missing dictionary key, a `None`, a regex that did not match. */
  datatype Option<+T> = None | Some(value: T) {
    function GetOr(default: T): T {
      match this
      case Some(v) => v
      case None => default
    }
  }

  /** A computation that either produced a value or raised. */
  datatype Result<+T, +E> = Success(value: T) | Failure(error: E)

  /** The first present value of a sequence of options: the first regular expression that matched. */
  function FirstSome<T>(xs: seq<Option<T>>): (r: Option<T>)
    ensures r.Some? ==> r in xs
  {
    if |xs| == 0 then None
    else if xs[0].Some? then xs[0]
    else FirstSome(xs[1..])
  }

  /** The first present value is present exactly when some value is, and every earlier one is absent. */
  lemma {:induction false} FirstSomeSpec<T>(xs: seq<Option<T>>)
    ensures var d := FirstSome(xs);
      && (d.None? <==> forall i :: 0 <= i < |xs| ==> xs[i].None?)
      && (d.Some? ==> exists i :: 0 <= i < |xs| && d == xs[i] && forall j :: 0 <= j < i ==> xs[j].None?)
  {
    if |xs| > 0 && xs[0].None? {
      var rest := xs[1..];
      FirstSomeSpec(rest);
      assert forall i :: 1 <= i < |xs| ==> xs[i] == rest[i - 1];
      if FirstSome(xs).Some? {
        var i :| 0 <= i < |rest| && FirstSome(xs) == rest[i] && forall j :: 0 <= j < i ==> rest[j].None?;
        assert FirstSome(xs) == xs[i + 1];
      }
    }
  }
}
