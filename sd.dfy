/** The card-side vocabulary the block write uses: the block size, the
    write commands, the data tokens and the data-response classes.  Their
    wire values live outside the write path, so every value here that the
    write path does not fix itself is left uninterpreted: a constant with no
    initializer stands for "some value of this type", and nothing proved
    about the write depends on which one. */
module Sd {

  /** A byte on the wire. */
  type Byte = b: int | 0 <= b < 0x100

  /** A 32-bit block address. */
  type U32 = x: int | 0 <= x < 0x1_0000_0000

  type Positive = n: nat | 0 < n witness 1

  /** Payload bytes per block; only known to be positive. */
  const BLOCK_SIZE: Positive

  /** The two write commands a block write can announce. */
  datatype Command =
    | WriteBlock(address: U32)
    | WriteMultipleBlock(address: U32)

  /** Data tokens: the start of a single-block transfer, the start of each
      block of a multiple-block transfer, and stop-transmission. */
  datatype Token = Start | StartWriteMultipleBlock | Stop

  const START_BYTE: Byte
  const START_MULTIPLE_BYTE: Byte
  const STOP_BYTE: Byte

  /** `token as u8`. */
  function TokenByte(t: Token): Byte
  {
    match t
    case Start => START_BYTE
    case StartWriteMultipleBlock => START_MULTIPLE_BYTE
    case Stop => STOP_BYTE
  }

  /** The recognized data-response tokens. */
  datatype Response = Accepted | CrcError | WriteError

  datatype Option<T> = None | Some(value: T)

  /** `data::Response::try_from`: decodes the byte the card returns after a
      data block, `None` for a byte that matches no known pattern. */
  const ResponseTryFrom: Byte -> Option<Response>

  /** `data::Error`, as far as the write path produces it. */
  datatype DataError = Generic
}
