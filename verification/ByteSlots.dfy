/** Bytes, and positions in storage that goes round. */
module ByteSlots {

  newtype byte = x: int | 0 <= x < 256

  type Bytes = seq<byte>

  /** A position that ran at most one turn past the end. */
  function Turn(x: int, length: int): int { if x < length then x else x - length }
}
