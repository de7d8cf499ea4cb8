/** Shared vocabulary: optional values, results, opaque driver handles and sizes. */
module Base {

  /** An opaque driver object (device, queue, command buffer, pool, window, texture handle).
      The value 0 plays the role of a null pointer. */
  type Handle = nat

  const NullHandle: Handle := 0

  datatype Option<+T> = None | Some(value: T)

  datatype Result<+R, +E> = Success(value: R) | Failure(error: E)

  /** A width/height pair in pixels (the UI library's display size). */
  datatype Size = Size(width: int, height: int)
}
