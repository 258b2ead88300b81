/** Shared vocabulary: the runtime's status codes and an option type. */
module Common {

  /** Outcome of a runtime entry point. `Failed(code)` stands for every status
      that a guest or host callback may report and that is only passed on. */
  datatype Status =
    | Ok
    | InvalidArgument
    | MalformedModule
    | Unsupported
    | OutOfMemory
    | Trapped
    | TypeMismatch
    | Yielded
    | Failed(code: nat)

  const MAX32 := 0xffff_ffff
  const MAX64 := 0xffff_ffff_ffff_ffff

  datatype Option<+T> = None | Some(value: T)

  function Min(a: int, b: int): (m: int)
    ensures m <= a && m <= b && (m == a || m == b)
  {
    if a <= b then a else b
  }
}
