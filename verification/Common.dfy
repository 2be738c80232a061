/** Values shared by every part of the model. */
module Common {

  type Byte = b: int | 0 <= b < 256

  datatype Option<+T> = None | Some(value: T)

  /** How one call to Postgres, Redis, the task queue or the Kubernetes API ends.
      A call can fail without effect, or take effect although the caller is told that it failed. */
  datatype Fault = Answered | Refused | Unacknowledged

  /** The callee's state once the call is over; `done` is the state when the call took effect. */
  function Effect<S>(fault: Fault, before: S, done: S): S {
    if fault.Refused? then before else done
  }
}
