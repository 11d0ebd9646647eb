/** Ordered, fail-fast traversal of a list: the shape of every
    `for (... : list) result.add(translate(...))` loop of the translator. */
module Sequences {
  import opened Wrappers

  /** Applies `f` to every element in order. The first failure aborts the
      traversal and is returned unchanged; otherwise there is exactly one
      output per input, in input order. */
  function MapResult<A, B, E>(xs: seq<A>, f: A -> Result<B, E>): (r: Result<seq<B>, E>)
    ensures r.Success? <==> forall i :: 0 <= i < |xs| ==> f(xs[i]).Success?
    ensures r.Success? ==> |r.value| == |xs|
    ensures r.Success? ==> forall i :: 0 <= i < |xs| ==> f(xs[i]) == Success(r.value[i])
    ensures r.Failure? ==>
              exists i :: 0 <= i < |xs| && f(xs[i]) == Failure(r.error)
                          && forall j :: 0 <= j < i ==> f(xs[j]).Success?
    decreases |xs|
  {
    if |xs| == 0 then Success([])
    else
      match f(xs[0])
      case Failure(e) => Failure(e)
      case Success(y) =>
        match MapResult(xs[1..], f)
        case Failure(e) =>
          assert forall j :: 1 <= j < |xs| ==> xs[j] == xs[1..][j - 1];
          Failure(e)
        case Success(ys) => Success([y] + ys)
  }

  /** A traversal succeeds with `ys` exactly when every element translates to
      the output at its own position. */
  lemma MapResultPointwise<A, B, E>(xs: seq<A>, f: A -> Result<B, E>, ys: seq<B>)
    requires |xs| == |ys|
    requires forall i :: 0 <= i < |xs| ==> f(xs[i]) == Success(ys[i])
    ensures MapResult(xs, f) == Success(ys)
  {
    var r := MapResult(xs, f);
    assert r.Success?;
    assert r.value == ys;
  }

  /** Traversals of two lists that agree pointwise agree. */
  lemma {:induction false} MapResultCongruence<A, A', B, E>(xs: seq<A>, f: A -> Result<B, E>,
                                                             ys: seq<A'>, g: A' -> Result<B, E>)
    requires |xs| == |ys|
    requires forall i :: 0 <= i < |xs| ==> f(xs[i]) == g(ys[i])
    ensures MapResult(xs, f) == MapResult(ys, g)
    decreases |xs|
  {
    if |xs| > 0 {
      assert f(xs[0]) == g(ys[0]);
      assert forall i :: 0 <= i < |xs| - 1 ==> xs[1..][i] == xs[i + 1] && ys[1..][i] == ys[i + 1];
      MapResultCongruence(xs[1..], f, ys[1..], g);
    }
  }
}
