/** The bounded retry of src/util/retryInvoke.ts. */
module RetryInvoke {
  import opened Wrappers

  datatype Answer<T, E> = Ok(value: T) | Err(error: E)

  /** `Threw(None)` is the code's `throw undefined`, when no attempt was allowed at all. */
  datatype Outcome<T, E> = Returned(value: T) | Cancelled | Threw(error: Option<E>)

  /**
   `answer(i)` is what the i-th attempt would come back with and `cancelled(i)` what the i-th look at the
   cancellation would see; look `attempts` is the one after the last attempt.  `calls` is how many attempts were made,
   `waits` for how long it slept after each failed one.
   */
  method RetryAsync<T, E>(attempts: nat, baseDelay: nat, factor: nat, answer: nat -> Answer<T, E>,
                          cancelled: nat -> bool)
    returns (r: Outcome<T, E>, calls: nat, waits: seq<nat>)
    ensures calls <= attempts
    ensures forall i :: 0 <= i < calls ==> !cancelled(i)
    ensures forall i :: 0 <= i < calls - 1 ==> answer(i).Err?
    ensures r.Returned? <==> calls > 0 && answer(calls - 1).Ok?
    ensures r.Returned? ==> answer(calls - 1) == Ok(r.value)
    ensures r.Cancelled? <==> cancelled(calls) && (calls > 0 ==> answer(calls - 1).Err?)
    ensures r.Threw? ==> calls == attempts && r.error == if attempts == 0 then None else Some(answer(attempts - 1).error)
    ensures |waits| == if calls == 0 then 0 else if calls == attempts || r.Returned? then calls - 1 else calls
    ensures forall i :: 0 <= i < |waits| ==> waits[i] == baseDelay * Power(factor, i)
  {
    var lastErr: Option<E> := None;
    calls, waits := 0, [];
    for i := 0 to attempts
      invariant calls == i
      invariant |waits| == if i == attempts && i > 0 then i - 1 else i
      invariant forall j :: 0 <= j < i ==> !cancelled(j) && answer(j).Err?
      invariant lastErr == if i == 0 then None else Some(answer(i - 1).error)
      invariant forall j :: 0 <= j < |waits| ==> waits[j] == baseDelay * Power(factor, j)
    {
      if cancelled(i) {
        return Cancelled, calls, waits;
      }
      calls := calls + 1;
      var a := answer(i);
      if a.Ok? {
        return Returned(a.value), calls, waits;
      }
      lastErr := Some(a.error);
      if i != attempts - 1 {
        waits := waits + [baseDelay * Power(factor, i)];
      }
    }
    if cancelled(attempts) {
      return Cancelled, calls, waits;
    }
    return Threw(lastErr), calls, waits;
  }

  function Power(b: nat, n: nat): nat {
    if n == 0 then 1 else b * Power(b, n - 1)
  }
}
