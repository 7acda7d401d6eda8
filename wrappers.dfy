/** Option and Result, and the Python exceptions the dashboard can raise. */
module Wrappers {

  datatype Option<+T> = None | Some(value: T)

  /** Exceptions that reach a handler (or the user) somewhere in the dashboard. */
  datatype Error =
    | KeyError(column: string)   // `row['X']` on a row without column X
    | AttributeError             // `None.query(...)` when no client could be built
    | ServiceError               // the warehouse call raised
    | IndexError                 // `label.split('(')[1]` on a label without '('

  datatype Result<+T> = Success(value: T) | Failure(error: Error)

  /** `x if x is present else d`: `dict.get` with a default, or `fillna(d)` on one cell. */
  function GetOr<T>(o: Option<T>, d: T): (r: T)
    ensures o.Some? ==> r == o.value
    ensures o.None? ==> r == d
  {
    match o
    case Some(v) => v
    case None => d
  }

  /**
   * Runs through per-item results in order and stops at the first failure, as
   * a loop stops at the first exception: all values when every item succeeded,
   * otherwise the error of the earliest item that failed.
   */
  function Collect<T>(rs: seq<Result<T>>): (r: Result<seq<T>>)
    ensures r.Success? <==> forall i :: 0 <= i < |rs| ==> rs[i].Success?
    ensures r.Success? ==> |r.value| == |rs| && forall i :: 0 <= i < |rs| ==> rs[i] == Success(r.value[i])
    ensures r.Failure? ==>
              exists i :: 0 <= i < |rs| && rs[i] == Failure(r.error) && forall j :: 0 <= j < i ==> rs[j].Success?
  {
    if rs == [] then Success([])
    else if rs[0].Failure? then Failure(rs[0].error)
    else
      var rest := Collect(rs[1..]);
      assert forall i :: 1 <= i < |rs| ==> rs[i] == rs[1..][i - 1];
      if rest.Failure? then
        var k :| 0 <= k < |rs| - 1 && rs[1..][k] == Failure(rest.error) && forall j :: 0 <= j < k ==> rs[1..][j].Success?;
        assert rs[k + 1] == Failure(rest.error);
        Failure(rest.error)
      else
        Success([rs[0].value] + rest.value)
  }
}
