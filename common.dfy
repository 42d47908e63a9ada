/** Small shared vocabulary of the three framing variants. */
module Common {
  /** A C uint8_t: a byte on the wire, or a count or index stored in one. */
  type Byte = x: int | 0 <= x < 0x100

  /** The byte that opens every frame, in all three variants. */
  const STX: Byte := 0x02
  /** The byte that closes every frame, in all three variants. */
  const ETX: Byte := 0x03

  /** The two bytes that open a frame: STX and the length byte. */
  function Head(n: Byte): seq<Byte>
  {
    [STX, n]
  }

  /** A value that may be absent: a step that did or did not produce a byte. */
  datatype Option<T> = None | Some(value: T)
}
