/** The executor of the older `bgg` module (src/bgg/request.rs): the same
    loop as src/request.rs, started with a wait of one second. */
module BggRequest {
  import opened Errors
  import opened Request

  /** Initial wait of src/bgg/request.rs, in seconds. */
  const WAIT_SECONDS: u8 := 1

  /** `do_request` of src/bgg/request.rs: waits of 1, 2, 4, ... seconds,
      at most six calls. */
  method DoRequest<T>(exec: nat -> Attempt<T>) returns (r: Result<T>, calls: nat, sleeps: seq<nat>)
    ensures Execution(r, calls, sleeps) == Execute(exec, WAIT_SECONDS)
    ensures calls <= MAX_RETRIES + 1
    ensures forall i :: 0 <= i < |sleeps| ==> sleeps[i] == Pow2(Throttles(exec, i))
  {
    r, calls, sleeps := RunRequest(exec, WAIT_SECONDS);
    forall i | 0 <= i < |sleeps|
      ensures sleeps[i] == Pow2(Throttles(exec, i))
    {
      BackoffIsScaledPower(1, Throttles(exec, i));
    }
  }

  /** The initial wait decides only how long the executor sleeps: started
      with one second instead of two, it makes the same calls and returns
      the same result, and each sleep lasts half as long. */
  lemma HalfTheWait<T>(exec: nat -> Attempt<T>)
    ensures Execute(exec, WAIT_SECONDS).result == Execute(exec, Request.WAIT_SECONDS).result
    ensures Execute(exec, WAIT_SECONDS).calls == Execute(exec, Request.WAIT_SECONDS).calls
    ensures |Execute(exec, WAIT_SECONDS).sleeps| == |Execute(exec, Request.WAIT_SECONDS).sleeps|
    ensures forall i :: 0 <= i < |Execute(exec, WAIT_SECONDS).sleeps| ==>
              Execute(exec, Request.WAIT_SECONDS).sleeps[i] == 2 * Execute(exec, WAIT_SECONDS).sleeps[i]
  {
    var short := Execute(exec, WAIT_SECONDS).sleeps;
    var long := Execute(exec, Request.WAIT_SECONDS).sleeps;
    forall i | 0 <= i < |short| ensures long[i] == 2 * short[i] {
      BackoffIsScaledPower(1, Throttles(exec, i));
      BackoffIsScaledPower(2, Throttles(exec, i));
    }
  }
}
