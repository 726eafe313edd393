/** Fixed-width numbers, constants and the option type shared by every module. */
module Basics {

  type byte = x: int | 0 <= x < 0x100
  type u16 = x: int | 0 <= x < 0x1_0000
  type u32 = x: int | 0 <= x < 0x1_0000_0000

  const U32_MAX: int := 0xFFFF_FFFF

  /** Initial window of every stream, as the yamux specification fixes it (256 KiB). */
  const DEFAULT_CREDIT: int := 256 * 1024

  /** Longest data frame body the reader accepts (1 MiB). */
  const MAX_FRAME_BODY_LEN: int := 1024 * 1024

  /** Outbound streams that may be open without an acknowledgement. */
  const MAX_ACK_BACKLOG: int := 256

  datatype Option<+T> = None | Some(value: T)

  /** The elements of an option as a sequence of length 0 or 1. */
  function Opt<T>(o: Option<T>): seq<T> {
    if o.Some? then [o.value] else []
  }

  function Min(a: int, b: int): int {
    if a <= b then a else b
  }
}
