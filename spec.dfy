// What ChunkListDecrypter.apply computes, as functions of the stream's bytes,
// the store's contents and the chunk list.  The imperative class in module
// Engine is proved to compute exactly this.
module ChunkListSpec {
  import opened Types
  import Cfb
  import opened Streams
  import opened ChunkStores
  import opened OffsetWalk

  /**
   * What stays fixed during one call of apply: the transport's bytes, whether
   * it fails after them, whether it was already closed, the store's policy
   * (refused writers, accepted writes, what the holders of refused writers
   * commit), the block cipher and the container index.
   */
  datatype Env = Env(data: seq<byte>, broken: bool, closed: bool,
                     busy: set<Checksum>, accepts: (Checksum, seq<byte>) -> bool,
                     pending: map<Checksum, seq<byte>>,
                     aes: Cfb.BlockCipher, containerIndex: int)

  /** What changes: the store's contents and the transport's cursor. */
  datatype World = World(chunks: map<Checksum, seq<byte>>, pos: nat)

  predicate Fits(e: Env, w: World) {
    w.pos <= |e.data|
  }

  /** The only wrapped-key format handled: tag 0x01 followed by a 16-byte AES key. */
  predicate KeySupported(key: seq<byte>) {
    |key| == 0x11 && key[0] == 0x01
  }

  /** A supported wrapped key is exactly the tag 0x01 followed by some 16-byte key. */
  lemma {:induction false} KeyFormat(key: seq<byte>)
    ensures KeySupported(key) <==> exists k: seq<byte> :: |k| == 16 && key == [0x01 as byte] + k
  {
    if KeySupported(key) {
      assert key == [0x01 as byte] + key[1..];
    }
  }

  /** The AES key inside a supported wrapped key. */
  function AesKey(key: seq<byte>): (k: seq<byte>)
    requires KeySupported(key)
    ensures |k| == 16 && [0x01 as byte] + k == key
  {
    key[1..]
  }

  /** The path one processed entry takes through the dedup gate and the decrypter. */
  datatype ChunkPath = StoreHit | UnsupportedKey | WriterUnavailable | Decrypted

  function PathOf(e: Env, chunks: map<Checksum, seq<byte>>, info: ChunkInfo): (p: ChunkPath)
    // the store is asked first; only a miss looks at the key, and only a supported key asks for a writer
    ensures p == StoreHit <==> info.checksum in chunks
    ensures p == UnsupportedKey <==> info.checksum !in chunks && !KeySupported(info.key)
    ensures p == Decrypted <==> info.checksum !in chunks && KeySupported(info.key) && info.checksum !in e.busy
  {
    if info.checksum in chunks then StoreHit
    else if !KeySupported(info.key) then UnsupportedKey
    else if info.checksum in e.busy then WriterUnavailable
    else Decrypted
  }

  /** The ciphertext of a processed entry: what its bounded view lets through. */
  function Ciphertext(e: Env, w: World, info: ChunkInfo): (c: seq<byte>)
    requires Fits(e, w)
    ensures |c| == Drained(e.data, e.closed, w.pos, info.length)
  {
    e.data[w.pos..w.pos + Drained(e.data, e.closed, w.pos, info.length)]
  }

  /**
   * One processed entry (chunk(InputStream, ChunkInfo)): the store lookup,
   * the decryption into the store when it misses, and the draining of the
   * entry's bytes, as the returned chunk and the new world.
   */
  function ChunkStep(e: Env, w: World, info: ChunkInfo): (out: (Result<Option<Chunk>>, World))
    requires Fits(e, w)
    ensures Fits(e, out.1)
    // the cursor advances by min(length, bytes left) whatever the path
    ensures out.1.pos == w.pos + Drained(e.data, e.closed, w.pos, info.length)
    ensures out.0.IOException? <==> DrainFails(e.data, e.broken, e.closed, w.pos, info.length)
    // a store hit returns the stored chunk and writes nothing
    ensures info.checksum in w.chunks ==>
              out.1.chunks == w.chunks &&
              (out.0.Ok? ==> out.0.value == Some(Chunk(info.checksum, w.chunks[info.checksum])))
    // a rejected key writes nothing and finds nothing
    ensures PathOf(e, w.chunks, info) == UnsupportedKey ==>
              out.1.chunks == w.chunks && (out.0.Ok? ==> out.0.value == None)
    // a refused writer writes nothing itself; the writer's holder may have stored the chunk meanwhile
    ensures PathOf(e, w.chunks, info) == WriterUnavailable ==>
              out.1.chunks == Refused(w.chunks, e.pending, info.checksum) &&
              (out.0.Ok? ==> (out.0.value.Some? <==> info.checksum in e.pending))
    // a decryption stores the plaintext of exactly this entry's bytes, if the store accepts it
    ensures PathOf(e, w.chunks, info) == Decrypted ==>
              out.1.chunks == Commit(w.chunks, e.accepts, info.checksum,
                                     Cfb.Decrypt(e.aes, AesKey(info.key), Ciphertext(e, w, info)))
    // the result is whatever the store then holds for the checksum
    ensures out.0.Ok? ==> out.0.value == Lookup(out.1.chunks, info.checksum)
  {
    var n := Drained(e.data, e.closed, w.pos, info.length);
    var chunks := match PathOf(e, w.chunks, info)
                  case Decrypted => Commit(w.chunks, e.accepts, info.checksum,
                                           Cfb.Decrypt(e.aes, AesKey(info.key), Ciphertext(e, w, info)))
                  case WriterUnavailable => Refused(w.chunks, e.pending, info.checksum)
                  case _ => w.chunks;
    var r := if DrainFails(e.data, e.broken, e.closed, w.pos, info.length) then IOException
             else Ok(Lookup(chunks, info.checksum));
    (r, World(chunks, w.pos + n))
  }

  /** On the decrypting path, the store gains the plaintext of the bytes from the cursor on. */
  lemma {:induction false} DecryptedStep(e: Env, w: World, info: ChunkInfo)
    requires Fits(e, w) && PathOf(e, w.chunks, info) == Decrypted
    ensures var n := Drained(e.data, e.closed, w.pos, info.length);
            && w.pos + n <= |e.data|
            && ChunkStep(e, w, info).1.chunks ==
               Commit(w.chunks, e.accepts, info.checksum, Cfb.Decrypt(e.aes, AesKey(info.key), e.data[w.pos..w.pos + n]))
  {
  }

  /** Why the loop over the chunk list ended, if it has. */
  datatype Halt = Running | BadOffset | Thrown

  /**
   * The loop's variables: the running offset, the indices processed so far
   * (a ghost record), how the loop ended, the result map and the world.
   */
  datatype Snapshot = Snapshot(offset: nat, kept: seq<nat>, halt: Halt,
                               chunks: map<ChunkReference, Chunk>, world: World)

  /** The loop of apply after it has visited the entries `infos`, starting from world `w0`. */
  function AfterEntries(e: Env, w0: World, infos: seq<ChunkInfo>): (s: Snapshot)
    requires Fits(e, w0)
    ensures Fits(e, s.world)
    decreases |infos|
  {
    if infos == [] then Snapshot(0, [], Running, map[], w0)
    else
      var last := |infos| - 1;
      var s := AfterEntries(e, w0, infos[..last]);
      if s.halt != Running then s
      else match Classify(s.offset, infos[last])
        case Stop => s.(halt := BadOffset)
        case Skip => s
        case Keep =>
          var (r, w) := ChunkStep(e, s.world, infos[last]);
          var offset := s.offset + infos[last].length;
          var kept := s.kept + [last];
          match r
          case IOException => Snapshot(offset, kept, Thrown, s.chunks, w)
          case Ok(None) => Snapshot(offset, kept, Running, s.chunks, w)
          case Ok(Some(c)) => Snapshot(offset, kept, Running, s.chunks[ChunkReference(e.containerIndex, last) := c], w)
  }

  /** One more entry after a still-running loop that processes it: the loop's step, spelled out. */
  lemma {:induction false} KeepStep(e: Env, w0: World, infos: seq<ChunkInfo>)
    requires Fits(e, w0) && infos != []
    requires var p := AfterEntries(e, w0, infos[..|infos| - 1]);
             p.halt == Running && Classify(p.offset, infos[|infos| - 1]) == Keep
    ensures var last := |infos| - 1;
            var p, s := AfterEntries(e, w0, infos[..last]), AfterEntries(e, w0, infos);
            var out := ChunkStep(e, p.world, infos[last]);
            && s.world == out.1
            && s.kept == p.kept + [last]
            && s.offset == p.offset + infos[last].length
            && (s.halt == Thrown <==> out.0.IOException?)
            && s.halt != BadOffset
            && s.chunks == (if out.0.Ok? && out.0.value.Some?
                            then p.chunks[ChunkReference(e.containerIndex, last) := out.0.value.value]
                            else p.chunks)
  {
    var last := |infos| - 1;
    var p := AfterEntries(e, w0, infos[..last]);
    var out := ChunkStep(e, p.world, infos[last]);
    var s := AfterEntries(e, w0, infos);
    var offset, kept := p.offset + infos[last].length, p.kept + [last];
    if out.0.IOException? {
      assert s == Snapshot(offset, kept, Thrown, p.chunks, out.1);
    } else if out.0.value.None? {
      assert s == Snapshot(offset, kept, Running, p.chunks, out.1);
    } else {
      var ref := ChunkReference(e.containerIndex, last);
      assert s == Snapshot(offset, kept, Running, p.chunks[ref := out.0.value.value], out.1);
    }
  }

  /**
   * One more entry after a loop that has ended or that does not process it:
   * a bad offset ends the loop, anything else leaves it as it was.
   */
  lemma {:induction false} PassStep(e: Env, w0: World, infos: seq<ChunkInfo>)
    requires Fits(e, w0) && infos != []
    requires var p := AfterEntries(e, w0, infos[..|infos| - 1]);
             !(p.halt == Running && Classify(p.offset, infos[|infos| - 1]) == Keep)
    ensures var p, s := AfterEntries(e, w0, infos[..|infos| - 1]), AfterEntries(e, w0, infos);
            s == if p.halt == Running && Classify(p.offset, infos[|infos| - 1]) == Stop
                 then p.(halt := BadOffset) else p
  {
  }

  /** At an entry whose offset is the running offset, the loop processes it. */
  lemma {:induction false} KeepAt(e: Env, w0: World, infos: seq<ChunkInfo>, i: nat)
    requires Fits(e, w0) && i < |infos|
    requires var p := AfterEntries(e, w0, infos[..i]);
             p.halt == Running && infos[i].offset == p.offset
    ensures var p := AfterEntries(e, w0, infos[..i]);
            var out := ChunkStep(e, p.world, infos[i]);
            AfterEntries(e, w0, infos[..i + 1]) ==
              Snapshot(p.offset + infos[i].length, p.kept + [i],
                       if out.0.IOException? then Thrown else Running,
                       if out.0.Ok? && out.0.value.Some?
                       then p.chunks[ChunkReference(e.containerIndex, i) := out.0.value.value]
                       else p.chunks,
                       out.1)
  {
    PrefixOfPrefix(infos, i + 1, i);
    KeepStep(e, w0, infos[..i + 1]);
  }

  /** At an entry behind the running offset, the loop passes over it. */
  lemma {:induction false} SkipAt(e: Env, w0: World, infos: seq<ChunkInfo>, i: nat)
    requires Fits(e, w0) && i < |infos|
    requires var p := AfterEntries(e, w0, infos[..i]);
             p.halt == Running && infos[i].offset < p.offset
    ensures AfterEntries(e, w0, infos[..i + 1]) == AfterEntries(e, w0, infos[..i])
  {
    PrefixOfPrefix(infos, i + 1, i);
    PassStep(e, w0, infos[..i + 1]);
  }

  /** At an entry ahead of the running offset, the loop ends. */
  lemma {:induction false} StopAt(e: Env, w0: World, infos: seq<ChunkInfo>, i: nat)
    requires Fits(e, w0) && i < |infos|
    requires var p := AfterEntries(e, w0, infos[..i]);
             p.halt == Running && infos[i].offset > p.offset
    ensures AfterEntries(e, w0, infos[..i + 1]) == AfterEntries(e, w0, infos[..i]).(halt := BadOffset)
  {
    PrefixOfPrefix(infos, i + 1, i);
    PassStep(e, w0, infos[..i + 1]);
  }

  /** What apply returns, and the world it leaves behind. */
  function ApplyOutcome(e: Env, w0: World, infos: seq<ChunkInfo>): (out: (Result<map<ChunkReference, Chunk>>, World))
    requires Fits(e, w0)
    // only an IOException discards the map; a bad offset still returns the chunks gathered before it
    ensures out.0.IOException? <==> AfterEntries(e, w0, infos).halt == Thrown
    ensures AfterEntries(e, w0, infos).halt == BadOffset ==> out.0 == Ok(AfterEntries(e, w0, infos).chunks)
  {
    var s := AfterEntries(e, w0, infos);
    (if s.halt == Thrown then IOException else Ok(s.chunks), s.world)
  }

  /** Once the loop has ended, later entries change nothing. */
  lemma {:induction false} HaltedStays(e: Env, w0: World, infos: seq<ChunkInfo>, m: nat)
    requires Fits(e, w0)
    requires m <= |infos| && AfterEntries(e, w0, infos[..m]).halt != Running
    ensures AfterEntries(e, w0, infos) == AfterEntries(e, w0, infos[..m])
    decreases |infos|
  {
    if m < |infos| {
      var last := |infos| - 1;
      PrefixOfPrefix(infos, last, m);
      HaltedStays(e, w0, infos[..last], m);
    } else {
      assert infos[..m] == infos;
    }
  }
}
