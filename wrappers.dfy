/** Optional values: Python's `X | None`. */
module Wrappers {

  datatype Option<+T> = None | Some(value: T)

  /** A window rectangle `(x, y, width, height)` in screen pixels. */
  datatype Rect = Rect(x: int, y: int, width: int, height: int)
}
