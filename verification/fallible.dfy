/** The two shapes a step of the evaluator can end in. */
module Fallible {

  /** A lookup or a decode that may find nothing. */
  datatype Option<+T> = None | Some(value: T)

  /** A step that returns `value`, or raises `error`; a `Failure` is a
      Python exception that propagates out of `main()`. */
  datatype Result<+R, +E> = Success(value: R) | Failure(error: E)

  /** Run a sequence of steps in order: all their values if every step
      succeeds, otherwise the error of the first step that fails, as a
      Python loop does when one iteration raises. */
  function AllOk<T, E>(steps: seq<Result<T, E>>): (r: Result<seq<T>, E>)
    ensures r.Success? <==> forall j :: 0 <= j < |steps| ==> steps[j].Success?
    ensures r.Success? ==> |r.value| == |steps|
    ensures r.Success? ==> forall j :: 0 <= j < |steps| ==> steps[j] == Success(r.value[j])
    ensures r.Failure? ==>
              (exists j :: 0 <= j < |steps| && steps[j] == Failure(r.error) &&
                 forall k :: 0 <= k < j ==> steps[k].Success?)
    decreases |steps|
  {
    if |steps| == 0 then Success([])
    else
      var n := |steps| - 1;
      var front := AllOk(steps[..n]);
      assert forall j :: 0 <= j < n ==> steps[..n][j] == steps[j];
      if front.Failure? then Failure(front.error)
      else if steps[n].Failure? then Failure(steps[n].error)
      else Success(front.value + [steps[n].value])
  }

  /** The combined result fails with the error of the first failing step. */
  lemma AllOkFailsAt<T, E>(steps: seq<Result<T, E>>, j: int)
    requires 0 <= j < |steps|
    requires forall k :: 0 <= k < j ==> steps[k].Success?
    requires steps[j].Failure?
    ensures AllOk(steps) == Failure(steps[j].error)
  {
  }
}
