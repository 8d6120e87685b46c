// What ChunkListDecrypter.apply guarantees, stated about the loop's
// specification AfterEntries: it processes exactly the entries the offset walk
// keeps, it reads exactly their bytes, the result map holds exactly the chunks
// the store reports after each processed entry, and the store only grows.
module ChunkListProperties {
  import opened Types
  import Cfb
  import opened Streams
  import opened ChunkStores
  import opened OffsetWalk
  import opened ChunkListSpec

  /**
   * The loop processes the entries the offset walk keeps, in that order and
   * with the same running offset: neither the stream's bytes nor the store
   * influence which entries are processed.  Only an IOException cuts the
   * list short, right after the entry that threw.
   */
  lemma {:induction false} LoopFollowsWalk(e: Env, w0: World, infos: seq<ChunkInfo>)
    requires Fits(e, w0)
    ensures var s, wk := AfterEntries(e, w0, infos), Walk(infos);
            && |s.kept| <= |wk.kept| && wk.kept[..|s.kept|] == s.kept
            && (s.halt != Thrown ==>
                  s.kept == wk.kept && s.offset == wk.offset && (s.halt == BadOffset <==> wk.stopped))
    decreases |infos|
  {
    if infos != [] {
      var last := |infos| - 1;
      var pre := infos[..last];
      LoopFollowsWalk(e, w0, pre);
      var p, pw := AfterEntries(e, w0, pre), Walk(pre);
      var s, wk := AfterEntries(e, w0, infos), Walk(infos);
      if p.halt == Running && Classify(p.offset, infos[last]) == Keep {
        KeepStep(e, w0, infos);
        WalkKeepStep(infos);
      } else if p.halt == Thrown {
        PassStep(e, w0, infos);
        WalkExtends(infos, last);
        assert wk.kept[..|p.kept|] == pw.kept[..|p.kept|];
      } else {
        PassStep(e, w0, infos);
        WalkPassStep(infos);
      }
    }
  }

  /** The processed indices are indices of the list. */
  lemma {:induction false} LoopKeptIndices(e: Env, w0: World, infos: seq<ChunkInfo>)
    requires Fits(e, w0)
    ensures forall k :: k in AfterEntries(e, w0, infos).kept ==> k < |infos|
    decreases |infos|
  {
    if infos != [] {
      var last := |infos| - 1;
      LoopKeptIndices(e, w0, infos[..last]);
      if AfterEntries(e, w0, infos[..last]).halt == Running && Classify(AfterEntries(e, w0, infos[..last]).offset, infos[last]) == Keep {
        KeepStep(e, w0, infos);
      } else {
        PassStep(e, w0, infos);
      }
    }
  }

  lemma {:induction false} DrainedAdds(data: seq<byte>, closed: bool, p: nat, a: nat, b: nat)
    requires p <= |data|
    ensures Drained(data, closed, p, a) + Drained(data, closed, p + Drained(data, closed, p, a), b)
            == Drained(data, closed, p, a + b)
  {
  }

  /**
   * However the loop ends, the stream has advanced by the running offset, or
   * to its end if it holds fewer bytes: skipped entries and the entries after
   * a bad offset read nothing.
   */
  lemma {:induction false} CursorFollowsOffset(e: Env, w0: World, infos: seq<ChunkInfo>)
    requires Fits(e, w0)
    ensures var s := AfterEntries(e, w0, infos);
            s.world.pos == w0.pos + Drained(e.data, e.closed, w0.pos, s.offset)
    decreases |infos|
  {
    if infos != [] {
      var last := |infos| - 1;
      CursorFollowsOffset(e, w0, infos[..last]);
      var p := AfterEntries(e, w0, infos[..last]);
      if p.halt == Running && Classify(p.offset, infos[last]) == Keep {
        DrainedAdds(e.data, e.closed, w0.pos, p.offset, infos[last].length);
      }
    }
  }

  /**
   * When the call does not throw, the bytes it took from the stream are the
   * total length of the entries the walk keeps, capped by what the stream holds.
   */
  lemma {:induction false} ReadsKeptLengths(e: Env, w0: World, infos: seq<ChunkInfo>)
    requires Fits(e, w0)
    ensures var s := AfterEntries(e, w0, infos);
            s.halt != Thrown ==>
              Indices(infos, Walk(infos).kept) &&
              s.world.pos == w0.pos + Drained(e.data, e.closed, w0.pos, SumLengths(infos, Walk(infos).kept))
  {
    LoopFollowsWalk(e, w0, infos);
    CursorFollowsOffset(e, w0, infos);
    WalkKeepsInvariant(infos);
  }

  /**
   * A processed entry is read from its declared offset: when the loop reaches
   * an entry the walk keeps, the stream has given up exactly the bytes before
   * that offset, or all it had.  This is what draining every view buys.
   */
  lemma {:induction false} ReadsAtDeclaredOffset(e: Env, w0: World, infos: seq<ChunkInfo>, k: nat)
    requires Fits(e, w0) && k < |infos|
    requires AfterEntries(e, w0, infos[..k]).halt == Running && k in Walk(infos).kept
    ensures AfterEntries(e, w0, infos[..k]).world.pos == w0.pos + Drained(e.data, e.closed, w0.pos, infos[k].offset)
  {
    KeptAtOffset(e, w0, infos, k);
    CursorFollowsOffset(e, w0, infos[..k]);
  }

  /** When the loop reaches an entry the walk keeps, its running offset is that entry's declared offset. */
  lemma {:induction false} KeptAtOffset(e: Env, w0: World, infos: seq<ChunkInfo>, k: nat)
    requires Fits(e, w0) && k < |infos|
    requires AfterEntries(e, w0, infos[..k]).halt == Running && k in Walk(infos).kept
    ensures AfterEntries(e, w0, infos[..k]).offset == infos[k].offset
  {
    LoopFollowsWalk(e, w0, infos[..k]);
    KeptIff(infos, k);
  }

  /** The store's contents right after the loop has handled entry `k`. */
  function ChunksAfter(e: Env, w0: World, infos: seq<ChunkInfo>, k: nat): map<Checksum, seq<byte>>
    requires Fits(e, w0) && k < |infos|
  {
    AfterEntries(e, w0, infos[..k + 1]).world.chunks
  }

  /**
   * A processed entry that is decrypted is decrypted from its own bytes: the
   * store after it gains the plaintext of the stream's bytes from the entry's
   * declared offset on, as many as its length or as the stream still has.
   */
  lemma {:induction false} DecryptsAtDeclaredOffset(e: Env, w0: World, infos: seq<ChunkInfo>, k: nat)
    requires Fits(e, w0) && k < |infos|
    requires AfterEntries(e, w0, infos[..k]).halt == Running && k in Walk(infos).kept
    ensures var before := AfterEntries(e, w0, infos[..k]).world.chunks;
            var start := w0.pos + Drained(e.data, e.closed, w0.pos, infos[k].offset);
            var n := Drained(e.data, e.closed, start, infos[k].length);
            PathOf(e, before, infos[k]) == Decrypted ==>
              && start + n <= |e.data|
              && ChunksAfter(e, w0, infos, k) ==
                 Commit(before, e.accepts, infos[k].checksum,
                        Cfb.Decrypt(e.aes, AesKey(infos[k].key), e.data[start..start + n]))
  {
    var p := AfterEntries(e, w0, infos[..k]);
    ReadsAtDeclaredOffset(e, w0, infos, k);
    KeptAtOffset(e, w0, infos, k);
    StoreAfterKept(e, w0, infos, k);
    if PathOf(e, p.world.chunks, infos[k]) == Decrypted {
      DecryptedStep(e, p.world, infos[k]);
    }
  }

  /** The store after an entry the loop processes is what that entry's step leaves. */
  lemma {:induction false} StoreAfterKept(e: Env, w0: World, infos: seq<ChunkInfo>, k: nat)
    requires Fits(e, w0) && k < |infos|
    requires var p := AfterEntries(e, w0, infos[..k]);
             p.halt == Running && infos[k].offset == p.offset
    ensures ChunksAfter(e, w0, infos, k) == ChunkStep(e, AfterEntries(e, w0, infos[..k]).world, infos[k]).1.chunks
  {
    KeepAt(e, w0, infos, k);
  }

  /** What a result map holds for entry `k` of container `containerIndex`. */
  function ResultAt(result: map<ChunkReference, Chunk>, containerIndex: int, k: nat): Option<Chunk> {
    var ref := ChunkReference(containerIndex, k);
    if ref in result then Some(result[ref]) else None
  }

  /** Only processed entries of this container appear in the result map. */
  lemma {:induction false} ResultKeys(e: Env, w0: World, infos: seq<ChunkInfo>)
    requires Fits(e, w0)
    ensures var s := AfterEntries(e, w0, infos);
            forall r :: r in s.chunks ==> r.containerIndex == e.containerIndex && r.chunkIndex in s.kept
    decreases |infos|
  {
    if infos != [] {
      ResultKeys(e, w0, infos[..|infos| - 1]);
      var p := AfterEntries(e, w0, infos[..|infos| - 1]);
      if p.halt == Running && Classify(p.offset, infos[|infos| - 1]) == Keep {
        KeepStep(e, w0, infos);
      } else {
        PassStep(e, w0, infos);
      }
    }
  }

  /**
   * Unless the stream throws, the result holds, for each processed entry,
   * exactly what the store reported for its checksum right after that entry
   * was handled: a chunk when the lookup found one, no key when it did not.
   */
  lemma {:induction false} ResultIsPostLookup(e: Env, w0: World, infos: seq<ChunkInfo>)
    requires Fits(e, w0)
    ensures var s := AfterEntries(e, w0, infos);
            s.halt != Thrown ==>
              forall k :: k in s.kept && k < |infos| ==>
                ResultAt(s.chunks, e.containerIndex, k) == Lookup(ChunksAfter(e, w0, infos, k), infos[k].checksum)
    decreases |infos|
  {
    if infos != [] {
      var last := |infos| - 1;
      var pre := infos[..last];
      ResultIsPostLookup(e, w0, pre);
      LoopKeptIndices(e, w0, pre);
      var p := AfterEntries(e, w0, pre);
      var s := AfterEntries(e, w0, infos);
      forall k | 0 <= k < last
        ensures ChunksAfter(e, w0, infos, k) == ChunksAfter(e, w0, pre, k)
      {
        PrefixOfPrefix(infos, last, k + 1);
      }
      if p.halt == Running && Classify(p.offset, infos[last]) == Keep {
        KeepStep(e, w0, infos);
        ResultKeys(e, w0, pre);
        var out := ChunkStep(e, p.world, infos[last]);
        if out.0.Ok? {
          assert infos[..last + 1] == infos;
          forall k | k in s.kept && k < |infos|
            ensures ResultAt(s.chunks, e.containerIndex, k) == Lookup(ChunksAfter(e, w0, infos, k), infos[k].checksum)
          {
            if k != last {
              assert k in p.kept;
            }
          }
        }
      } else {
        PassStep(e, w0, infos);
      }
    }
  }

  /**
   * Every chunk in the result is the store's current chunk for that entry's
   * checksum.
   */
  lemma {:induction false} ResultMatchesStore(e: Env, w0: World, infos: seq<ChunkInfo>)
    requires Fits(e, w0)
    ensures var s := AfterEntries(e, w0, infos);
            forall r :: r in s.chunks ==>
              && r.chunkIndex < |infos|
              && s.chunks[r].checksum == infos[r.chunkIndex].checksum
              && s.chunks[r].checksum in s.world.chunks
              && s.chunks[r].data == s.world.chunks[s.chunks[r].checksum]
    decreases |infos|
  {
    if infos != [] {
      var last := |infos| - 1;
      var pre := infos[..last];
      ResultMatchesStore(e, w0, pre);
      var p := AfterEntries(e, w0, pre);
      if p.halt == Running && Classify(p.offset, infos[last]) == Keep {
        KeepStep(e, w0, infos);
        var (r, w) := ChunkStep(e, p.world, infos[last]);
        forall c | c in p.world.chunks
          ensures c in w.chunks && w.chunks[c] == p.world.chunks[c]
        {
        }
      } else {
        PassStep(e, w0, infos);
      }
    }
  }

  /** The store only grows: a chunk present before the call is still there, unchanged. */
  lemma {:induction false} StoreKeepsChunks(e: Env, w0: World, infos: seq<ChunkInfo>)
    requires Fits(e, w0)
    ensures var s := AfterEntries(e, w0, infos);
            forall c :: c in w0.chunks ==> c in s.world.chunks && s.world.chunks[c] == w0.chunks[c]
    decreases |infos|
  {
    if infos != [] {
      var last := |infos| - 1;
      StoreKeepsChunks(e, w0, infos[..last]);
      var p := AfterEntries(e, w0, infos[..last]);
      if p.halt == Running && Classify(p.offset, infos[last]) == Keep {
        KeepStep(e, w0, infos);
      } else {
        PassStep(e, w0, infos);
      }
    }
  }

  /** Every checksum the call adds to the store is that of a processed entry. */
  lemma {:induction false} NewChunksFromKept(e: Env, w0: World, infos: seq<ChunkInfo>)
    requires Fits(e, w0)
    ensures var s := AfterEntries(e, w0, infos);
            forall c :: c in s.world.chunks && c !in w0.chunks ==>
              exists j :: 0 <= j < |s.kept| && s.kept[j] < |infos| && infos[s.kept[j]].checksum == c
    decreases |infos|
  {
    if infos != [] {
      var last := |infos| - 1;
      var pre := infos[..last];
      NewChunksFromKept(e, w0, pre);
      var p := AfterEntries(e, w0, pre);
      var s := AfterEntries(e, w0, infos);
      if p.halt == Running && Classify(p.offset, infos[last]) == Keep {
        KeepStep(e, w0, infos);
        forall c | c in s.world.chunks && c !in w0.chunks
          ensures exists j :: 0 <= j < |s.kept| && s.kept[j] < |infos| && infos[s.kept[j]].checksum == c
        {
          if c in p.world.chunks {
            var j :| 0 <= j < |p.kept| && p.kept[j] < |pre| && pre[p.kept[j]].checksum == c;
            assert s.kept[j] == p.kept[j];
          } else {
            assert infos[s.kept[|p.kept|]].checksum == c;
          }
        }
      } else {
        PassStep(e, w0, infos);
        forall c | c in s.world.chunks && c !in w0.chunks
          ensures exists j :: 0 <= j < |s.kept| && s.kept[j] < |infos| && infos[s.kept[j]].checksum == c
        {
          var j :| 0 <= j < |p.kept| && p.kept[j] < |pre| && pre[p.kept[j]].checksum == c;
          assert s.kept[j] == p.kept[j];
        }
      }
    }
  }

  /** Entries the walk keeps all have their checksum in `chunks`. */
  ghost predicate AllStored(infos: seq<ChunkInfo>, chunks: map<Checksum, seq<byte>>) {
    forall k :: k in Walk(infos).kept ==> k < |infos| && infos[k].checksum in chunks
  }

  lemma {:induction false} AllStoredOfPrefix(infos: seq<ChunkInfo>, chunks: map<Checksum, seq<byte>>, m: nat)
    requires m <= |infos| && AllStored(infos, chunks)
    ensures AllStored(infos[..m], chunks)
  {
    WalkExtends(infos, m);
    WalkKeepsInvariant(infos[..m]);
    var wk, pw := Walk(infos), Walk(infos[..m]);
    forall k | k in pw.kept ensures k < m && infos[..m][k].checksum in chunks {
      var j :| 0 <= j < |pw.kept| && pw.kept[j] == k;
      assert wk.kept[j] == k;
    }
  }

  /**
   * A second call against a store that already holds every processed entry's
   * checksum decrypts nothing and writes nothing: every processed entry is a
   * store hit and the store ends as it began.
   */
  lemma {:induction false} AllStoreHitsWriteNothing(e: Env, w0: World, infos: seq<ChunkInfo>)
    requires Fits(e, w0) && AllStored(infos, w0.chunks)
    ensures var s := AfterEntries(e, w0, infos);
            && s.world.chunks == w0.chunks
            && (forall k :: k in s.kept ==> k < |infos| && PathOf(e, w0.chunks, infos[k]) == StoreHit)
    decreases |infos|
  {
    LoopFollowsWalk(e, w0, infos);
    if infos != [] {
      var last := |infos| - 1;
      AllStoredOfPrefix(infos, w0.chunks, last);
      AllStoreHitsWriteNothing(e, w0, infos[..last]);
      var p := AfterEntries(e, w0, infos[..last]);
      if p.halt == Running && Classify(p.offset, infos[last]) == Keep {
        KeepStep(e, w0, infos);
        var s, wk := AfterEntries(e, w0, infos), Walk(infos);
        assert last in wk.kept by {
          assert s.kept[|p.kept|] == last;
          assert wk.kept[|p.kept|] == last;
        }
        assert infos[last].checksum in p.world.chunks;
        forall k | k in s.kept
          ensures k < |infos| && PathOf(e, w0.chunks, infos[k]) == StoreHit
        {
          if k != last {
            assert k in p.kept;
          }
        }
      } else {
        PassStep(e, w0, infos);
      }
    }
  }

  /**
   * In that second call (unless the stream throws) every processed entry is
   * in the result, mapped to the chunk the store already held.
   */
  lemma {:induction false} AllStoreHitsReturnStored(e: Env, w0: World, infos: seq<ChunkInfo>)
    requires Fits(e, w0) && AllStored(infos, w0.chunks)
    ensures var s := AfterEntries(e, w0, infos);
            s.halt != Thrown ==>
              forall k :: k in s.kept ==>
                k < |infos| && infos[k].checksum in w0.chunks &&
                ResultAt(s.chunks, e.containerIndex, k) == Some(Chunk(infos[k].checksum, w0.chunks[infos[k].checksum]))
    decreases |infos|
  {
    LoopFollowsWalk(e, w0, infos);
    if infos != [] {
      var last := |infos| - 1;
      AllStoredOfPrefix(infos, w0.chunks, last);
      AllStoreHitsReturnStored(e, w0, infos[..last]);
      AllStoreHitsWriteNothing(e, w0, infos[..last]);
      var p := AfterEntries(e, w0, infos[..last]);
      if p.halt == Running && Classify(p.offset, infos[last]) == Keep {
        KeepStep(e, w0, infos);
        var s := AfterEntries(e, w0, infos);
        assert last in s.kept by {
          assert s.kept[|p.kept|] == last;
        }
        forall k | k in s.kept && s.halt != Thrown
          ensures k < |infos| && infos[k].checksum in w0.chunks &&
                  ResultAt(s.chunks, e.containerIndex, k) == Some(Chunk(infos[k].checksum, w0.chunks[infos[k].checksum]))
        {
          if k != last {
            assert k in p.kept;
          }
        }
      } else {
        PassStep(e, w0, infos);
      }
    }
  }

  /**
   * At an entry ahead of the running offset the loop ends: the result, the
   * store and the stream cursor are those before that entry.
   */
  lemma {:induction false} BadOffsetEndsLoop(e: Env, w0: World, infos: seq<ChunkInfo>, j: nat)
    requires Fits(e, w0) && j < |infos|
    requires var s := AfterEntries(e, w0, infos[..j]);
             s.halt == Running && infos[j].offset > s.offset
    ensures AfterEntries(e, w0, infos) == AfterEntries(e, w0, infos[..j]).(halt := BadOffset)
  {
    PrefixOfPrefix(infos, j + 1, j);
    HaltedStays(e, w0, infos, j + 1);
  }

  /**
   * Two entries for the same bytes: only the first is processed and the
   * stream gives up its bytes once, not twice.
   */
  lemma {:induction false} DuplicatePairReadOnce(e: Env, w0: World, a: ChunkInfo, b: ChunkInfo)
    requires Fits(e, w0)
    requires a.offset == 0 && b.offset == 0 && a.length > 0
    ensures Walk([a, b]).kept == [0]
    ensures var s := AfterEntries(e, w0, [a, b]);
            s.world.pos == w0.pos + Drained(e.data, e.closed, w0.pos, a.length)
            && forall r :: r in s.chunks ==> r.chunkIndex == 0
  {
    assert [a, b][..1] == [a];
    assert [a][..0] == [];
    assert Walk([a]) == WalkState(a.length, [0], false);
    assert AfterEntries(e, w0, [a]).offset == a.length;
    CursorFollowsOffset(e, w0, [a, b]);
    ResultKeys(e, w0, [a, b]);
    LoopFollowsWalk(e, w0, [a, b]);
  }
}
