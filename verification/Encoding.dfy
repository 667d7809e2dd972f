/** Bytes and the integers they spell. */
module Encoding {
  type Byte = b: int | 0 <= b < 256

  function LittleEndian(bytes: seq<Byte>): nat {
    if bytes == [] then 0 else bytes[0] + 256 * LittleEndian(bytes[1..])
  }
}
