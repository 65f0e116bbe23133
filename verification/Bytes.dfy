/** Bytes, as they travel through pipes and sockets. */
module Bytes {
  type Byte = n: int | 0 <= n < 0x100
}
