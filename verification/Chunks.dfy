/** Checksums and the lines an index is made of (checksum/checksum.go, procs/index.go:35-39). */
module Chunks {
  newtype byte = x: int | 0 <= x < 256

  const HASH_SIZE: nat := 32

  datatype Hash = Hash(bytes: seq<byte>)

  // One index line: the checksum and target size of a final chunk.
  datatype Line = Line(hash: Hash, size: int)
}
