/** Bytes and byte strings. */
module Bytes {
  newtype Byte = x: int | 0 <= x < 256

  type Text = seq<Byte>

  /** The bytes between two positions of a buffer */
  function Slice(buf: Text, begin: nat, end: nat): Text {
    if begin <= end <= |buf| then buf[begin..end] else []
  }

  /** `toupper` of the C locale */
  function Upper(b: Byte): Byte {
    if 97 <= b <= 122 then b - 32 else b
  }
}
