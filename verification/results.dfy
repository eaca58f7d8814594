/** Failure-compatible wrappers shared by every adapter.

    A host-callable function in the bridge either returns one script value or
    raises one script exception carrying a message. The exception is modelled
    as `Err(msg)`: once a step yields `Err`, the `:-` operator skips the rest of
    the call, which is the abrupt transfer of control the runtime performs. */
module Results {

  /** An optional value; used for error slots such as a failed `Set`. */
  datatype Option<+T> = None | Some(value: T)

  /** A value or the message of the exception that aborted its computation. */
  datatype Result<+T> = Ok(value: T) | Err(msg: string) {

    predicate IsFailure() {
      Err?
    }

    function PropagateFailure<U>(): Result<U>
      requires Err?
    {
      Err(msg)
    }

    function Extract(): T
      requires Ok?
    {
      value
    }
  }

  /** The error of a step, if it failed. */
  function ErrorOf<T>(r: Result<T>): (e: Option<string>)
    ensures e.None? <==> r.Ok?
    ensures r.Err? ==> e == Some(r.msg)
  {
    if r.Err? then Some(r.msg) else None
  }

  /** The first error among the outcomes of steps taken in order, if any. */
  function FirstFault(faults: seq<Option<string>>): (e: Option<string>)
    ensures e.None? <==> forall i :: 0 <= i < |faults| ==> faults[i].None?
    ensures e.Some? ==> exists i :: 0 <= i < |faults|
                          && (forall j :: 0 <= j < i ==> faults[j].None?)
                          && faults[i] == e
    decreases |faults|
  {
    if |faults| == 0 then None
    else if faults[0].Some? then faults[0]
    else
      var rest := FirstFault(faults[1..]);
      assert forall i :: 1 <= i < |faults| ==> faults[i] == faults[1..][i - 1];
      rest
  }

  /** No element of `s` occurs twice. */
  predicate Distinct<T(==)>(s: seq<T>) {
    forall i, j :: 0 <= i < j < |s| ==> s[i] != s[j]
  }

  /** Applies `f` to every item in order and collects the results; the first
      failure aborts with its error, and no item after it is looked at. */
  function MapEach<T, U>(f: T -> Result<U>, items: seq<T>): (r: Result<seq<U>>)
    ensures r.Ok? <==> forall i :: 0 <= i < |items| ==> f(items[i]).Ok?
    ensures r.Ok? ==> |r.value| == |items|
    ensures r.Ok? ==> forall i :: 0 <= i < |items| ==> f(items[i]) == Ok(r.value[i])
    ensures r.Err? ==> exists i :: 0 <= i < |items|
                        && (forall j :: 0 <= j < i ==> f(items[j]).Ok?)
                        && f(items[i]) == Err(r.msg)
    decreases |items|
  {
    if |items| == 0 then
      Ok([])
    else
      var v :- f(items[0]);
      var rest :- MapEach(f, items[1..]);
      assert forall i :: 1 <= i < |items| ==> items[i] == items[1..][i - 1];
      Ok([v] + rest)
  }
}
