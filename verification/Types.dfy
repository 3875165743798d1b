// Values shared by the server and the worker.
module Types {
  datatype Option<+T> = None | Some(value: T)

  datatype Result<+T, +E> = Ok(value: T) | Error(error: E)

  datatype Status = Accepted | Passed | Failed | DeadlineExceeded | Errored | Inconclusive

  // The table a submission lives in. A worker started without any identifier flag sends `Unknown`.
  datatype JobType = PovJob | PatchJob | GenericJob | Unknown

  // An identifier as it is sent around: the text of a UUID, or something else.
  datatype EntityId = Id(uuid: nat) | Malformed

  type Bytes = seq<bv8>

  // How creating a job in the cluster goes; it may also succeed although an error is reported.
  datatype Launch = Launches | Refuses | Unconfirmed

  function Bit(b: bool): nat { if b then 1 else 0 }

  // What is asked of SHA-256: different inputs have different digests.
  ghost predicate CollisionFree<T(!new)>(digest: T -> string) {
    forall x, y :: digest(x) == digest(y) ==> x == y
  }
}
