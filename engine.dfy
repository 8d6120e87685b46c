// ChunkListDecrypter: walks a storage host chunk list against the one shared
// stream that carries the list's ciphertext, and fills the chunk store with
// the decrypted chunks.  Every method is proved to do what the functions of
// ChunkListSpec describe.
module Engine {
  import opened Types
  import Cfb
  import opened Streams
  import opened ChunkStores
  import opened OffsetWalk
  import opened ChunkListSpec

  class ChunkListDecrypter {
    const store: ChunkStore
    const container: seq<ChunkInfo>
    const containerIndex: int
    /** The AES block function the CFB-128 decrypter runs on. */
    const aes: Cfb.BlockCipher

    constructor (store: ChunkStore, container: seq<ChunkInfo>, containerIndex: int, aes: Cfb.BlockCipher)
      ensures this.store == store && this.container == container
      ensures this.containerIndex == containerIndex && this.aes == aes
    {
      this.store := store;
      this.container := container;
      this.containerIndex := containerIndex;
      this.aes := aes;
    }

    /** The fixed part of a call on `s`, which was closed or not when the call began. */
    function EnvOf(s: InputStream, closed: bool): Env {
      Env(s.data, s.broken, closed, store.busy, store.accepts, store.pending, aes, containerIndex)
    }

    /**
     * apply: the offset walk over the chunk list.  The stream is closed on
     * every exit, including the one by IOException.
     */
    method Apply(inputStream: InputStream) returns (r: Result<map<ChunkReference, Chunk>>)
      requires inputStream.Valid()
      modifies inputStream, store
      ensures inputStream.Valid() && inputStream.closed
      ensures (r, World(store.chunks, inputStream.pos)) ==
              ApplyOutcome(EnvOf(inputStream, old(inputStream.closed)),
                           World(old(store.chunks), old(inputStream.pos)), container)
    {
      ghost var e := EnvOf(inputStream, inputStream.closed);
      ghost var w0 := World(store.chunks, inputStream.pos);
      var chunks: map<ChunkReference, Chunk> := map[];
      var i, offset: nat, n := 0, 0, |container|;
      ghost var kept: seq<nat> := [];
      while i < n
        invariant 0 <= i <= n
        invariant inputStream.Valid() && inputStream.closed == e.closed
        invariant AfterEntries(e, w0, container[..i]) ==
                  Snapshot(offset, kept, Running, chunks, World(store.chunks, inputStream.pos))
      {
        var info := container[i];
        if info.offset > offset {
          // bad offset: the rest of the list is not processed
          StopAt(e, w0, container, i);
          HaltedStays(e, w0, container, i + 1);
          break;
        } else if info.offset != offset {
          // an entry for bytes already passed
          SkipAt(e, w0, container, i);
          i := i + 1;
          continue;
        }
        KeepAt(e, w0, container, i);
        ghost var before := World(store.chunks, inputStream.pos);
        offset := offset + info.length;
        var chunkReference := ChunkReference(containerIndex, i);
        var chunk := ChunkFromStream(inputStream, info);
        assert (chunk, World(store.chunks, inputStream.pos)) == ChunkStep(e, before, info);
        kept := kept + [i];
        if chunk.IOException? {
          HaltedStays(e, w0, container, i + 1);
          inputStream.Close();
          return IOException;
        }
        if chunk.value.Some? {
          chunks := chunks[chunkReference := chunk.value.value];
        }
        i := i + 1;
      }
      if i == n {
        assert container[..n] == container;
      }
      inputStream.Close();
      r := Ok(chunks);
    }

    /**
     * chunk(InputStream, ChunkInfo): one processed entry, read through a
     * bounded view of its length that does not close the shared stream, and
     * drained to the end of that view whichever path it took.
     */
    method ChunkFromStream(inputStream: InputStream, info: ChunkInfo) returns (r: Result<Option<Chunk>>)
      requires inputStream.Valid()
      modifies inputStream, store
      ensures inputStream.Valid() && inputStream.closed == old(inputStream.closed)
      ensures (r, World(store.chunks, inputStream.pos)) ==
              ChunkStep(EnvOf(inputStream, inputStream.closed),
                        World(old(store.chunks), old(inputStream.pos)), info)
    {
      var bis := new BoundedInputStream(inputStream, info.length);
      bis.SetPropagateClose(false);
      var chunk := ChunkFromBounded(bis, info);
      if chunk.IOException? {
        return IOException;
      }
      var ok := Consume(bis);
      if !ok {
        return IOException;
      }
      r := chunk;
    }

    /** chunk(BoundedInputStream, ChunkInfo): the dedup gate in front of the decrypter. */
    method ChunkFromBounded(bis: BoundedInputStream, info: ChunkInfo) returns (r: Result<Option<Chunk>>)
      requires bis.Valid() && bis.count == 0 && bis.max == info.length && !bis.propagateClose
      modifies bis, bis.inner, store
      ensures bis.Valid() && !bis.propagateClose && bis.inner.closed == old(bis.inner.closed)
      ensures var e := EnvOf(bis.inner, bis.inner.closed);
              var w := World(old(store.chunks), old(bis.inner.pos));
              var n := if PathOf(e, w.chunks, info) == Decrypted
                       then Drained(e.data, e.closed, w.pos, info.length) else 0;
              && bis.count == n && bis.inner.pos == w.pos + n
              && store.chunks == ChunkStep(e, w, info).1.chunks
              && (r.IOException? <==>
                    PathOf(e, w.chunks, info) == Decrypted && DrainFails(e.data, e.broken, e.closed, w.pos, info.length))
              && (r.Ok? ==> r.value == Lookup(store.chunks, info.checksum))
    {
      var checksum := info.checksum;
      var chunk := store.GetChunk(checksum);
      if chunk.Some? {
        return Ok(chunk);
      }
      r := Decrypt(bis, info.key, checksum);
    }

    /**
     * decrypt: a supported key is unwrapped and the view decrypted into the
     * store; any other key is passed over.  Either way the result is what the
     * store then holds.
     */
    method Decrypt(bis: BoundedInputStream, chunkEncryptionKey: seq<byte>, checksum: Checksum)
      returns (r: Result<Option<Chunk>>)
      requires bis.Valid() && bis.count == 0 && !bis.propagateClose
      modifies bis, bis.inner, store
      ensures bis.Valid() && !bis.propagateClose && bis.inner.closed == old(bis.inner.closed)
      ensures var writes := KeySupported(chunkEncryptionKey) && checksum !in store.busy;
              var n := if writes then Drained(bis.inner.data, bis.inner.closed, old(bis.inner.pos), bis.max) else 0;
              && bis.count == n && bis.inner.pos == old(bis.inner.pos) + n
              && store.chunks == (if !KeySupported(chunkEncryptionKey) then old(store.chunks)
                                  else if writes
                                  then Commit(old(store.chunks), store.accepts, checksum,
                                              Cfb.Decrypt(aes, AesKey(chunkEncryptionKey),
                                                          bis.inner.data[old(bis.inner.pos)..old(bis.inner.pos) + n]))
                                  else Refused(old(store.chunks), store.pending, checksum))
              && (r.IOException? <==>
                    writes && DrainFails(bis.inner.data, bis.inner.broken, bis.inner.closed, old(bis.inner.pos), bis.max))
              && (r.Ok? ==> r.value == Lookup(store.chunks, checksum))
    {
      if !KeySupported(chunkEncryptionKey) {
        // unsupported chunk encryption key: nothing is decrypted
      } else {
        var cis := new CipherInputStream(bis, aes, AesKey(chunkEncryptionKey));
        var ok := Store(cis, checksum);
        if !ok {
          return IOException;
        }
      }
      r := Ok(store.GetChunk(checksum));
    }

    /**
     * store: copies the decrypted view into the store, if the store hands out
     * a writer; a refusal reads nothing.
     */
    method Store(cis: CipherInputStream, checksum: Checksum) returns (ok: bool)
      requires cis.Valid() && cis.ciphertext == [] && !cis.source.propagateClose
      modifies cis, cis.source, cis.source.inner, store
      ensures cis.source.Valid() && !cis.source.propagateClose
      ensures cis.source.inner.closed == old(cis.source.inner.closed)
      ensures var src := cis.source.inner;
              var writes := checksum !in store.busy;
              var n := if writes then Drained(src.data, src.closed, old(src.pos), cis.source.max - old(cis.source.count)) else 0;
              && cis.source.count == old(cis.source.count) + n && src.pos == old(src.pos) + n
              && store.chunks == (if writes
                                  then Commit(old(store.chunks), store.accepts, checksum,
                                              Cfb.Decrypt(cis.aes, cis.key, src.data[old(src.pos)..old(src.pos) + n]))
                                  else Refused(old(store.chunks), store.pending, checksum))
              && (ok <==> !(writes && DrainFails(src.data, src.broken, src.closed, old(src.pos),
                                                  cis.source.max - old(cis.source.count))))
    {
      var os := store.OutputStream(checksum);
      if os.Some? {
        ok := Copy(cis, os.value);
      } else {
        ok := true;
      }
    }

    /** consume: drains what is left of a view, discarding it, then closes the view. */
    method Consume(bis: BoundedInputStream) returns (ok: bool)
      requires bis.Valid() && !bis.propagateClose
      modifies bis, bis.inner
      ensures bis.Valid() && !bis.propagateClose && bis.inner.closed == old(bis.inner.closed)
      ensures var n := Drained(bis.inner.data, bis.inner.closed, old(bis.inner.pos), bis.max - old(bis.count));
              bis.inner.pos == old(bis.inner.pos) + n && bis.count == old(bis.count) + n
      ensures ok <==> !DrainFails(bis.inner.data, bis.inner.broken, bis.inner.closed, old(bis.inner.pos),
                                  bis.max - old(bis.count))
    {
      ghost var p0, c0 := bis.inner.pos, bis.count;
      var done := false;
      ok := true;
      while !done
        invariant bis.Valid() && !bis.propagateClose && bis.inner.closed == old(bis.inner.closed)
        invariant p0 <= bis.inner.pos && bis.count - c0 == bis.inner.pos - p0
        invariant bis.inner.closed ==> bis.inner.pos == p0
        invariant !done ==> ok
        invariant done ==> bis.inner.pos - p0 == Drained(bis.inner.data, bis.inner.closed, p0, bis.max - c0)
        invariant done ==> (ok <==> !DrainFails(bis.inner.data, bis.inner.broken, bis.inner.closed, p0, bis.max - c0))
        decreases bis.max - bis.count, !done
      {
        var r := bis.Read();
        match r
        case Byte(_) =>
        case Eof =>
          done := true;
        case ReadFailure =>
          done := true;
          ok := false;
      }
      bis.Close();
    }

    /**
     * copy: moves every byte of the decrypting stream into the store's
     * writer, then closes both whether or not the transfer failed, so the
     * writer hands what it received to the store.
     */
    method Copy(cis: CipherInputStream, os: ChunkWriter) returns (ok: bool)
      requires cis.Valid() && cis.ciphertext == [] && !cis.source.propagateClose
      requires os.store == store && os.written == [] && !os.closed
      modifies cis, cis.source, cis.source.inner, os, store
      ensures cis.source.Valid() && !cis.source.propagateClose
      ensures cis.source.inner.closed == old(cis.source.inner.closed)
      ensures var src := cis.source.inner;
              var n := Drained(src.data, src.closed, old(src.pos), cis.source.max - old(cis.source.count));
              && cis.source.count == old(cis.source.count) + n && src.pos == old(src.pos) + n
              && store.chunks == Commit(old(store.chunks), store.accepts, os.checksum,
                                        Cfb.Decrypt(cis.aes, cis.key, src.data[old(src.pos)..old(src.pos) + n]))
              && (ok <==> !DrainFails(src.data, src.broken, src.closed, old(src.pos),
                                      cis.source.max - old(cis.source.count)))
      ensures os.closed
    {
      ok := CopyAll(cis, os);
      cis.Close();
      os.Close();
    }
  }

  /**
   * IOUtils.copy: reads the decrypting stream to its end (or to the read that
   * throws) and writes every byte it yields to `os`.
   */
  method CopyAll(cis: CipherInputStream, os: ChunkWriter) returns (ok: bool)
    requires cis.Valid() && cis.ciphertext == [] && !cis.source.propagateClose
    requires os.written == [] && !os.closed
    modifies cis, cis.source, cis.source.inner, os
    ensures cis.Valid() && !cis.source.propagateClose && !os.closed
    ensures cis.source.inner.closed == old(cis.source.inner.closed)
    ensures var src := cis.source.inner;
            var n := Drained(src.data, src.closed, old(src.pos), cis.source.max - old(cis.source.count));
            && cis.source.count == old(cis.source.count) + n && src.pos == old(src.pos) + n
            && cis.ciphertext == src.data[old(src.pos)..old(src.pos) + n]
            && os.written == Cfb.Decrypt(cis.aes, cis.key, cis.ciphertext)
            && (ok <==> !DrainFails(src.data, src.broken, src.closed, old(src.pos),
                                    cis.source.max - old(cis.source.count)))
  {
    var src := cis.source.inner;
    ghost var p0, c0 := src.pos, cis.source.count;
    var done := false;
    ok := true;
    while !done
      invariant cis.Valid() && cis.origin == p0
      invariant !cis.source.propagateClose && src.closed == old(src.closed) && !os.closed
      invariant p0 <= src.pos && cis.source.count - c0 == src.pos - p0
      invariant src.closed ==> src.pos == p0
      invariant os.written == Cfb.Decrypt(cis.aes, cis.key, cis.ciphertext)
      invariant !done ==> ok
      invariant done ==> src.pos - p0 == Drained(src.data, src.closed, p0, cis.source.max - c0)
      invariant done ==> (ok <==> !DrainFails(src.data, src.broken, src.closed, p0, cis.source.max - c0))
      decreases cis.source.max - cis.source.count, !done
    {
      ghost var pos := src.pos;
      ghost var s := if cis.source.count >= cis.source.max then Eof
                     else ReadAt(src.data, src.broken, src.closed, pos);
      var r := cis.Read();
      match r
      case Byte(b) =>
        os.Write(b);
      case Eof =>
        ViewEnd(src.data, src.broken, src.closed, p0, pos, cis.source.max - c0, s);
        done := true;
      case ReadFailure =>
        ViewEnd(src.data, src.broken, src.closed, p0, pos, cis.source.max - c0, s);
        done := true;
        ok := false;
    }
    MirrorsSlice(cis.ciphertext, src.data, p0);
  }
}
