/** Go's unsigned integers, optional values, and the two-way results of fallible operations. */
module Outcomes {
  const GIB := 0x4000_0000
  const U64 := 0x1_0000_0000_0000_0000

  /** uint and uint64. */
  type u64 = x: int | 0 <= x < U64

  datatype Option<+T> = None | Some(value: T)

  /** Why an operation returned an error. CallFailed covers every refusal by libvirt or the guest. */
  datatype Error =
    | CallFailed
    | ZeroSize
    | NoFreeTarget
    | NoVolumeName
    | NoDiskInXml
    | NotLarger(currentGB: nat)
    | Invalid
    | NoAddress

  datatype Result<+T> = Ok(value: T) | Err(error: Error) {
    predicate IsFailure() {
      Err?
    }

    function PropagateFailure<U>(): Result<U>
      requires Err?
    {
      Err(error)
    }

    function Extract(): T
      requires Ok?
    {
      value
    }
  }
}
