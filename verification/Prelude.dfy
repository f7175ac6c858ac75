/** Values the other modules share. */
module Prelude {

  datatype Option<+T> = None | Some(value: T)

  newtype Byte = x: int | 0 <= x < 256

  type Bytes = seq<Byte>

  /** SHA-256, as an injective function of the bytes. */
  datatype Digest = Sha256(content: Bytes)
}
