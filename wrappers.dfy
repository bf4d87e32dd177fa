/** Optional values (Kotlin's nullable types) and results (a value or a thrown exception's message). */
module Wrappers {

  /** A Kotlin `T?`: `None` stands for `null`. */
  datatype Option<+T> = None | Some(value: T) {
    /** Kotlin's elvis operator `this ?: default`. */
    function GetOr(default: T): T {
      match this
      case Some(v) => v
      case None => default
    }
  }

  /** The outcome of a call that either returns a value or throws. */
  datatype Result<+R, +E> = Success(value: R) | Failure(error: E)

  /**
   * `xs.map(f)` where `f` may throw: the first failing element's exception escapes and no
   * partial list is returned.
   */
  function MapAll<A, B, E>(xs: seq<A>, f: A -> Result<B, E>): (r: Result<seq<B>, E>)
    ensures r.Success? <==> forall i :: 0 <= i < |xs| ==> f(xs[i]).Success?
    ensures r.Success? ==> |r.value| == |xs| && forall i :: 0 <= i < |xs| ==> f(xs[i]) == Success(r.value[i])
    ensures r.Failure? ==>
      exists k :: 0 <= k < |xs| && f(xs[k]) == Failure(r.error) && forall i :: 0 <= i < k ==> f(xs[i]).Success?
  {
    if xs == [] then Success([])
    else match f(xs[0])
      case Failure(e) =>
        Failure(e)
      case Success(y) =>
        match MapAll(xs[1..], f)
        case Failure(e) =>
          ghost var k :| 0 <= k < |xs[1..]| && f(xs[1..][k]) == Failure(e) && forall i :: 0 <= i < k ==> f(xs[1..][i]).Success?;
          assert f(xs[k + 1]) == Failure(e);
          assert forall i :: 0 <= i < k + 1 ==> f(xs[i]).Success? by {
            forall i | 0 <= i < k + 1 ensures f(xs[i]).Success? {
              if i > 0 { assert xs[i] == xs[1..][i - 1]; }
            }
          }
          Failure(e)
        case Success(ys) =>
          assert forall i :: 1 <= i < |xs| ==> xs[i] == xs[1..][i - 1];
          Success([y] + ys)
  }
}
