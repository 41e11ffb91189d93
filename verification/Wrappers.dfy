/** The types the other modules share. */
module Wrappers {
  datatype Option<+T> = None | Some(value: T)
}

/** A byte is its value; bit operations other than `^` are written as arithmetic: `& 0x80` asks
    for at least 128, `& 0x0f` is a remainder, `|` on disjoint bits is a sum, a shift is a
    product or a quotient. */
module Octets {
  type byte = n: nat | n < 256
  type Bytes = seq<byte>
}
