/** Result types shared by the models. */
module Common {
  /** 2^53 - 1, the largest safe integer of the source's number type. */
  const MAX_SAFE_INTEGER: int := 0x1f_ffff_ffff_ffff

  datatype Option<+T> = None | Some(value: T)

  datatype Result<+T, +E> = Success(value: T) | Failure(error: E)
}
