/** Types shared by the models. */
module Common {

  newtype byte = x: int | 0 <= x < 256
  type Bytes = seq<byte>

  datatype Option<+T> = None | Some(value: T)

  datatype Result<+T, +E> = Ok(value: T) | Err(error: E)

  /** A BLAKE3 digest, idealised: equal digests mean equal contents. */
  datatype Digest = Blake3(content: Bytes)
}
