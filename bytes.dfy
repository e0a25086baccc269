/** Bytes as they travel between the components: a C `char`/`u8`, a C#
    `byte`, a protobuf `bytes` element. */
module Bytes {
  newtype byte = x: int | 0 <= x < 256
}
