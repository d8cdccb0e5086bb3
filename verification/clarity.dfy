/** The Clarity values a contract call carries as arguments and returns in its receipts. */
module Clarity {

  newtype byte = x: int | 0 <= x < 256

  /** The subset of Clarity values the client and the contracts exchange. */
  datatype Value =
    | UInt(n: nat)
    | Utf8(s: string)
    | Ascii(s: string)
    | Bool(b: bool)
    | NoneV
    | SomeV(inner: Value)
    | Buffer(bytes: seq<byte>)
}
