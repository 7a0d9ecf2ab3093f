/** Result types and byte strings shared by the modules of the project. */
module Prelude {
  datatype Option<+T> = None | Some(value: T)

  datatype Result<+T, +E> = Ok(value: T) | Err(error: E)

  type byte = c: char | c as int < 256

  /** A Go string or byte slice: each char stands for one byte. */
  type Bytes = seq<byte>

  const TWO_TO_32 := 0x1_0000_0000

  function Concat(chunks: seq<Bytes>): Bytes {
    if chunks == [] then [] else chunks[0] + Concat(chunks[1..])
  }

  /** The first n bytes, or all of them when there are fewer. */
  function Prefix(bs: Bytes, n: int): Bytes {
    if n <= 0 then [] else if |bs| <= n then bs else bs[..n]
  }
}
