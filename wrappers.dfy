/** Option and Result, the failure-compatible wrappers the rest of the model uses. */
module Wrappers {

  datatype Option<+T> = None | Some(value: T) {

    predicate IsFailure() {
      None?
    }

    function PropagateFailure<U>(): Option<U>
      requires None?
    {
      None
    }

    function Extract(): T
      requires Some?
    {
      value
    }

    function GetOr(default: T): T {
      match this
      case Some(v) => v
      case None => default
    }
  }

  datatype Result<+R, +E> = Ok(value: R) | Err(error: E) {

    predicate IsFailure() {
      Err?
    }

    function PropagateFailure<U>(): Result<U, E>
      requires Err?
    {
      Err(error)
    }

    function Extract(): R
      requires Ok?
    {
      value
    }
  }

  /** The values of a sequence of options when every one is present; None as soon as one is missing. */
  function AllSome<T>(xs: seq<Option<T>>): (r: Option<seq<T>>)
    ensures r.Some? ==> |r.value| == |xs|
  {
    if xs == [] then Some([])
    else
      var n := |xs| - 1;
      match (AllSome(xs[..n]), xs[n])
      case (Some(prefix), Some(x)) => Some(prefix + [x])
      case _ => None
  }

  /** All the options are present exactly when the combined option is. */
  lemma {:induction false} AllSomeIff<T>(xs: seq<Option<T>>)
    ensures AllSome(xs).Some? <==> forall i :: 0 <= i < |xs| ==> xs[i].Some?
    decreases |xs|
  {
    if xs != [] {
      var n := |xs| - 1;
      var front := xs[..n];
      AllSomeIff(front);
      if AllSome(xs).Some? {
        forall i | 0 <= i < |xs| ensures xs[i].Some? {
          if i < n {
            assert front[i] == xs[i];
          }
        }
      } else if AllSome(front).None? {
        var j :| 0 <= j < n && front[j].None?;
        assert front[j] == xs[j];
      }
    }
  }

  /** Each value of the combined option is the value at the same position. */
  lemma {:induction false} AllSomeAt<T>(xs: seq<Option<T>>, i: nat)
    requires i < |xs| && AllSome(xs).Some?
    ensures xs[i] == Some(AllSome(xs).value[i])
    decreases |xs|
  {
    var n := |xs| - 1;
    var front := xs[..n];
    var prefix := AllSome(front).value;
    assert AllSome(xs).value == prefix + [xs[n].value];
    if i < n {
      AllSomeAt(front, i);
      assert front[i] == xs[i];
    }
  }

  /** Appending one more option to a sequence extends the combined option by its value. */
  lemma AllSomeAppend<T>(xs: seq<Option<T>>, x: Option<T>)
    ensures AllSome(xs + [x]) == match (AllSome(xs), x)
                                 case (Some(prefix), Some(v)) => Some(prefix + [v])
                                 case _ => None
  {
    assert (xs + [x])[..|xs|] == xs;
  }
}
