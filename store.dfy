// The content-addressed chunk store the decrypter fills, reduced to one map
// from checksum to plaintext.  Its persistence and its locking are not part of
// this model; what the decrypter relies on is its interface: a lookup, and a
// writer that may be refused.
module ChunkStores {
  import opened Types

  /** What ChunkStore.chunk(checksum) reports for a store holding `chunks`. */
  function Lookup(chunks: map<Checksum, seq<byte>>, checksum: Checksum): (r: Option<Chunk>)
    ensures r.Some? <==> checksum in chunks
    ensures r.Some? ==> r.value.checksum == checksum && r.value.data == chunks[checksum]
  {
    if checksum in chunks then Some(Chunk(checksum, chunks[checksum])) else None
  }

  /**
   * The store after a writer for `checksum` is closed having received `data`:
   * the store decides whether the write takes (`accepts`, for instance a
   * digest check); when it does not, nothing changes.
   */
  function Commit(chunks: map<Checksum, seq<byte>>, accepts: (Checksum, seq<byte>) -> bool,
                  checksum: Checksum, data: seq<byte>): (r: map<Checksum, seq<byte>>)
    ensures r.Keys == if accepts(checksum, data) then chunks.Keys + {checksum} else chunks.Keys
    ensures forall c :: c in chunks && c != checksum ==> r[c] == chunks[c]
    ensures checksum in r ==> r[checksum] == (if accepts(checksum, data) then data else chunks[checksum])
  {
    if accepts(checksum, data) then chunks[checksum := data] else chunks
  }

  /**
   * The store as it stands when outputStream(checksum) is refused because
   * another contributor holds the writer: that contributor may have committed
   * its chunk by then (`pending`), and a chunk already stored stays as it is.
   */
  function Refused(chunks: map<Checksum, seq<byte>>, pending: map<Checksum, seq<byte>>,
                   checksum: Checksum): (r: map<Checksum, seq<byte>>)
    ensures r.Keys == if checksum in pending then chunks.Keys + {checksum} else chunks.Keys
    ensures forall c :: c in chunks ==> r[c] == chunks[c]
    ensures checksum in r && checksum !in chunks ==> r[checksum] == pending[checksum]
  {
    if checksum in pending && checksum !in chunks then chunks[checksum := pending[checksum]] else chunks
  }

  class ChunkStore {
    var chunks: map<Checksum, seq<byte>>
    /** Checksums for which another contributor holds the writer: outputStream is refused. */
    const busy: set<Checksum>
    const accepts: (Checksum, seq<byte>) -> bool
    /** For a busy checksum, the chunk its writer's holder has committed by the time a writer is refused, if any. */
    const pending: map<Checksum, seq<byte>>

    constructor (chunks: map<Checksum, seq<byte>>, busy: set<Checksum>, accepts: (Checksum, seq<byte>) -> bool,
                 pending: map<Checksum, seq<byte>>)
      ensures this.chunks == chunks && this.busy == busy && this.accepts == accepts && this.pending == pending
    {
      this.chunks := chunks;
      this.busy := busy;
      this.accepts := accepts;
      this.pending := pending;
    }

    /** ChunkStore.chunk(checksum): the stored chunk for the checksum, if there is one. */
    function GetChunk(checksum: Checksum): (r: Option<Chunk>)
      reads this
      ensures r.Some? <==> checksum in chunks
      ensures r.Some? ==> r.value == Chunk(checksum, chunks[checksum])
    {
      Lookup(chunks, checksum)
    }

    /**
     * ChunkStore.outputStream(checksum): a fresh writer, unless the checksum
     * is busy; a refusal may come with the holder's chunk landing in the store.
     */
    method OutputStream(checksum: Checksum) returns (os: Option<ChunkWriter>)
      modifies this
      ensures os.Some? <==> checksum !in busy
      ensures os.Some? ==> fresh(os.value) && os.value.store == this && os.value.checksum == checksum
      ensures os.Some? ==> os.value.written == [] && !os.value.closed
      ensures chunks == if os.Some? then old(chunks) else Refused(old(chunks), pending, checksum)
    {
      if checksum in busy {
        chunks := Refused(chunks, pending, checksum);
        os := None;
      } else {
        var w := new ChunkWriter(this, checksum);
        os := Some(w);
      }
    }
  }

  /** The output stream a store hands out for one checksum; what it received is committed on close. */
  class ChunkWriter {
    const store: ChunkStore
    const checksum: Checksum
    var written: seq<byte>
    var closed: bool

    constructor (store: ChunkStore, checksum: Checksum)
      ensures this.store == store && this.checksum == checksum
      ensures written == [] && !closed
    {
      this.store := store;
      this.checksum := checksum;
      written := [];
      closed := false;
    }

    method Write(b: byte)
      requires !closed
      modifies this
      ensures written == old(written) + [b] && !closed
    {
      written := written + [b];
    }

    /** Closing never fails; the first close hands what was written to the store. */
    method Close()
      modifies this, store
      ensures closed && written == old(written)
      ensures store.chunks == if old(closed) then old(store.chunks)
                              else Commit(old(store.chunks), store.accepts, checksum, written)
    {
      if !closed {
        store.chunks := Commit(store.chunks, store.accepts, checksum, written);
        closed := true;
      }
    }
  }
}
