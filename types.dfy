// Value types shared by the chunk list decrypter model: bytes, the chunk list
// entries (the protobuf ChunkInfo), chunk references, stored chunks and the
// outcome of one read from a stream.
module Types {

  type byte = bv8

  /** A chunk checksum, the identity of a chunk in the content-addressed store. */
  type Checksum = seq<byte>

  datatype Option<T> = None | Some(value: T)

  /** The outcome of an operation that may throw java.io.IOException. */
  datatype Result<T> = Ok(value: T) | IOException

  /**
   * One entry of a storage host chunk list: where its ciphertext starts in the
   * shared stream, how many bytes it spans, the checksum of its plaintext and
   * its wrapped encryption key.
   */
  datatype ChunkInfo = ChunkInfo(offset: nat, length: nat, checksum: Checksum, key: seq<byte>)

  /** Identifies an entry: the index of its container and its index in that container's list. */
  datatype ChunkReference = ChunkReference(containerIndex: int, chunkIndex: nat)

  /** A chunk held by the store: its checksum and its plaintext. */
  datatype Chunk = Chunk(checksum: Checksum, data: seq<byte>)

  /** One call of InputStream.read(): a byte, end of stream (-1), or a thrown IOException. */
  datatype ReadResult = Byte(b: byte) | Eof | ReadFailure
}
