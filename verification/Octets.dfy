/** The bytes that streams and downloads are made of. */
module Octets {
  type Byte = n: nat | n < 256 witness 0
}
