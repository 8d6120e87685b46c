// The offset walk of ChunkListDecrypter.apply, on its own: which entries of a
// chunk list are processed, which are skipped as duplicates and where the walk
// stops.  It does not depend on the stream's bytes or on the store.
module OffsetWalk {
  import opened Types

  /** What the loop does with an entry, given the running offset. */
  datatype Decision = Stop | Skip | Keep

  function Classify(offset: nat, info: ChunkInfo): (d: Decision)
    ensures d == Stop <==> info.offset > offset
    ensures d == Keep <==> info.offset == offset
  {
    if info.offset > offset then Stop
    else if info.offset != offset then Skip
    else Keep
  }

  /** The running offset, the indices processed so far, and whether a bad offset ended the walk. */
  datatype WalkState = WalkState(offset: nat, kept: seq<nat>, stopped: bool)

  /** The walk over `infos`, as the loop leaves it after visiting every entry (or breaking). */
  function Walk(infos: seq<ChunkInfo>): (s: WalkState)
    // each entry is processed at most once
    ensures |s.kept| <= |infos|
    decreases |infos|
  {
    if infos == [] then WalkState(0, [], false)
    else
      var last := |infos| - 1;
      var s := Walk(infos[..last]);
      if s.stopped then s
      else match Classify(s.offset, infos[last])
        case Stop => s.(stopped := true)
        case Skip => s
        case Keep => WalkState(s.offset + infos[last].length, s.kept + [last], false)
  }

  /** One more entry after a running walk that keeps it. */
  lemma {:induction false} WalkKeepStep(infos: seq<ChunkInfo>)
    requires infos != []
    requires var p := Walk(infos[..|infos| - 1]);
             !p.stopped && Classify(p.offset, infos[|infos| - 1]) == Keep
    ensures var last := |infos| - 1;
            var p := Walk(infos[..last]);
            Walk(infos) == WalkState(p.offset + infos[last].length, p.kept + [last], false)
  {
  }

  /** One more entry after a walk that has stopped or that does not keep it. */
  lemma {:induction false} WalkPassStep(infos: seq<ChunkInfo>)
    requires infos != []
    requires var p := Walk(infos[..|infos| - 1]);
             !(!p.stopped && Classify(p.offset, infos[|infos| - 1]) == Keep)
    ensures var p := Walk(infos[..|infos| - 1]);
            Walk(infos) == if !p.stopped && Classify(p.offset, infos[|infos| - 1]) == Stop
                           then p.(stopped := true) else p
  {
  }

  predicate Indices(infos: seq<ChunkInfo>, ks: seq<nat>) {
    forall j :: 0 <= j < |ks| ==> ks[j] < |infos|
  }

  /** The total length of the entries at indices `ks`. */
  function SumLengths(infos: seq<ChunkInfo>, ks: seq<nat>): nat
    requires Indices(infos, ks)
    decreases |ks|
  {
    if ks == [] then 0 else SumLengths(infos, ks[..|ks| - 1]) + infos[ks[|ks| - 1]].length
  }

  predicate StrictlyIncreasing(ks: seq<nat>) {
    forall a, b :: 0 <= a < b < |ks| ==> ks[a] < ks[b]
  }

  /**
   * The walk's invariant: processed entries are visited in list order, each
   * one's declared offset is the total length of those processed before it,
   * and the running offset is the total length of all of them.
   */
  ghost predicate WalkInvariant(infos: seq<ChunkInfo>, s: WalkState) {
    && Indices(infos, s.kept)
    && StrictlyIncreasing(s.kept)
    && s.offset == SumLengths(infos, s.kept)
    && forall j :: 0 <= j < |s.kept| ==> infos[s.kept[j]].offset == SumLengths(infos, s.kept[..j])
  }

  lemma {:induction false} PrefixOfPrefix<T>(s: seq<T>, m: nat, k: nat)
    requires k <= m <= |s|
    ensures s[..m][..k] == s[..k]
  {
  }

  lemma {:induction false} SumLengthsOfLonger(infos: seq<ChunkInfo>, more: seq<ChunkInfo>, ks: seq<nat>)
    requires Indices(infos, ks)
    ensures Indices(infos + more, ks)
    ensures SumLengths(infos + more, ks) == SumLengths(infos, ks)
    decreases |ks|
  {
    if ks != [] {
      SumLengthsOfLonger(infos, more, ks[..|ks| - 1]);
    }
  }

  /** The invariant survives appending an entry the walk has not looked at yet. */
  lemma {:induction false} InvariantOfLonger(infos: seq<ChunkInfo>, x: ChunkInfo, s: WalkState)
    requires WalkInvariant(infos, s)
    ensures WalkInvariant(infos + [x], s)
  {
    SumLengthsOfLonger(infos, [x], s.kept);
    forall j | 0 <= j < |s.kept|
      ensures (infos + [x])[s.kept[j]].offset == SumLengths(infos + [x], s.kept[..j])
    {
      assert Indices(infos, s.kept[..j]);
      SumLengthsOfLonger(infos, [x], s.kept[..j]);
    }
  }

  /** The same, for the last entry of a list. */
  lemma {:induction false} InvariantOfLast(infos: seq<ChunkInfo>, s: WalkState)
    requires infos != [] && WalkInvariant(infos[..|infos| - 1], s)
    ensures WalkInvariant(infos, s)
  {
    var last := |infos| - 1;
    InvariantOfLonger(infos[..last], infos[last], s);
    assert infos[..last] + [infos[last]] == infos;
  }

  /** Appending entry `k`, which follows every processed entry, keeps the indices in list order. */
  lemma {:induction false} AppendKeepsOrder(infos: seq<ChunkInfo>, ks: seq<nat>, k: nat)
    requires Indices(infos, ks) && StrictlyIncreasing(ks) && k < |infos|
    requires forall j :: 0 <= j < |ks| ==> ks[j] < k
    ensures Indices(infos, ks + [k]) && StrictlyIncreasing(ks + [k])
  {
  }

  lemma {:induction false} SumLengthsAppend(infos: seq<ChunkInfo>, ks: seq<nat>, k: nat)
    requires Indices(infos, ks) && k < |infos|
    ensures Indices(infos, ks + [k])
    ensures SumLengths(infos, ks + [k]) == SumLengths(infos, ks) + infos[k].length
  {
    assert (ks + [k])[..|ks|] == ks;
  }

  /** Processing entry `k`, which starts at the running offset and follows every processed entry, keeps the invariant. */
  lemma {:induction false} InvariantOfKeep(infos: seq<ChunkInfo>, s: WalkState, k: nat, stopped: bool)
    requires WalkInvariant(infos, s) && k < |infos| && infos[k].offset == s.offset
    requires forall j :: 0 <= j < |s.kept| ==> s.kept[j] < k
    ensures WalkInvariant(infos, WalkState(s.offset + infos[k].length, s.kept + [k], stopped))
  {
    var ks := s.kept + [k];
    AppendKeepsOrder(infos, s.kept, k);
    SumLengthsAppend(infos, s.kept, k);
    forall j | 0 <= j < |ks|
      ensures infos[ks[j]].offset == SumLengths(infos, ks[..j])
    {
      StartAfterAppend(infos, s.kept, k, j);
    }
  }

  lemma {:induction false} StartAfterAppend(infos: seq<ChunkInfo>, ks: seq<nat>, k: nat, j: nat)
    requires Indices(infos, ks) && k < |infos| && j <= |ks|
    requires j < |ks| ==> infos[ks[j]].offset == SumLengths(infos, ks[..j])
    requires j == |ks| ==> infos[k].offset == SumLengths(infos, ks)
    ensures Indices(infos, (ks + [k])[..j])
    ensures infos[(ks + [k])[j]].offset == SumLengths(infos, (ks + [k])[..j])
  {
    if j < |ks| {
      assert (ks + [k])[j] == ks[j] && (ks + [k])[..j] == ks[..j];
    } else {
      assert (ks + [k])[j] == k && (ks + [k])[..j] == ks;
    }
  }

  lemma {:induction false} WalkKeepsInvariant(infos: seq<ChunkInfo>)
    ensures WalkInvariant(infos, Walk(infos))
    decreases |infos|
  {
    if infos != [] {
      var last := |infos| - 1;
      var pre := infos[..last];
      var s := Walk(pre);
      WalkKeepsInvariant(pre);
      InvariantOfLast(infos, s);
      if !s.stopped && Classify(s.offset, infos[last]) == Keep {
        WalkKeepStep(infos);
        InvariantOfKeep(infos, s, last, false);
      } else {
        WalkPassStep(infos);
      }
    }
  }

  /** Once the walk has stopped, later entries change nothing. */
  lemma {:induction false} StoppedStays(infos: seq<ChunkInfo>, m: nat)
    requires m <= |infos| && Walk(infos[..m]).stopped
    ensures Walk(infos) == Walk(infos[..m])
    decreases |infos|
  {
    if m < |infos| {
      var last := |infos| - 1;
      PrefixOfPrefix(infos, last, m);
      StoppedStays(infos[..last], m);
    } else {
      assert infos[..m] == infos;
    }
  }

  /** A longer list only extends the walk: earlier decisions stand and the running offset never decreases. */
  lemma {:induction false} WalkExtends(infos: seq<ChunkInfo>, m: nat)
    requires m <= |infos|
    ensures var p, s := Walk(infos[..m]), Walk(infos);
            && p.offset <= s.offset
            && |p.kept| <= |s.kept| && s.kept[..|p.kept|] == p.kept
            && (p.stopped ==> s.stopped)
            && forall j :: 0 <= j < |s.kept| && s.kept[j] < m ==> j < |p.kept|
    decreases |infos|
  {
    if m < |infos| {
      var last := |infos| - 1;
      PrefixOfPrefix(infos, last, m);
      WalkExtends(infos[..last], m);
      WalkKeepsInvariant(infos[..last]);
      var p, q := Walk(infos[..m]), Walk(infos[..last]);
      var s := Walk(infos);
      if !q.stopped && Classify(q.offset, infos[last]) == Keep {
        assert s.kept == q.kept + [last];
        forall j | 0 <= j < |s.kept| && s.kept[j] < m ensures j < |p.kept| {
          if j < |q.kept| {
            assert q.kept[j] < m;
          }
        }
      }
    } else {
      assert infos[..m] == infos;
    }
  }

  /**
   * An entry is processed exactly when the walk has not stopped before it and
   * its declared offset equals the running offset at that point.
   */
  lemma {:induction false} KeptIff(infos: seq<ChunkInfo>, j: nat)
    requires j < |infos|
    ensures j in Walk(infos).kept <==>
            !Walk(infos[..j]).stopped && infos[j].offset == Walk(infos[..j]).offset
  {
    var p, q, s := Walk(infos[..j]), Walk(infos[..j + 1]), Walk(infos);
    PrefixOfPrefix(infos, j + 1, j);
    WalkKeepsInvariant(infos[..j]);
    WalkExtends(infos, j + 1);
    var keep := !p.stopped && Classify(p.offset, infos[j]) == Keep;
    assert q.kept == if keep then p.kept + [j] else p.kept;
    if keep {
      assert s.kept[|p.kept|] == q.kept[|p.kept|] == j;
    } else {
      forall idx | 0 <= idx < |s.kept| ensures s.kept[idx] != j {
        if s.kept[idx] < j + 1 {
          assert idx < |q.kept| && q.kept[idx] == s.kept[idx];
          assert p.kept[idx] < j;
        }
      }
    }
  }

  /**
   * At the first entry whose offset is ahead of the running offset the walk
   * stops: nothing at or after it is processed and the offset stays put.
   */
  lemma {:induction false} BadOffsetStops(infos: seq<ChunkInfo>, j: nat)
    requires j < |infos|
    requires !Walk(infos[..j]).stopped && infos[j].offset > Walk(infos[..j]).offset
    ensures Walk(infos) == Walk(infos[..j]).(stopped := true)
    ensures forall k :: k in Walk(infos).kept ==> k < j
  {
    PrefixOfPrefix(infos, j + 1, j);
    assert Walk(infos[..j + 1]) == Walk(infos[..j]).(stopped := true);
    StoppedStays(infos, j + 1);
    WalkKeepsInvariant(infos[..j]);
  }

  /** An entry behind the running offset is skipped: it leaves the walk as it was. */
  lemma {:induction false} DuplicateSkipped(infos: seq<ChunkInfo>, j: nat)
    requires j < |infos|
    requires !Walk(infos[..j]).stopped && infos[j].offset < Walk(infos[..j]).offset
    ensures Walk(infos[..j + 1]) == Walk(infos[..j])
    ensures j !in Walk(infos).kept
  {
    PrefixOfPrefix(infos, j + 1, j);
    KeptIff(infos, j);
  }

  /** The total length of the first `k` entries. */
  function PrefixLength(infos: seq<ChunkInfo>, k: nat): nat
    requires k <= |infos|
  {
    if k == 0 then 0 else PrefixLength(infos, k - 1) + infos[k - 1].length
  }

  /** Every entry starts where the entries before it end. */
  predicate Contiguous(infos: seq<ChunkInfo>) {
    forall k :: 0 <= k < |infos| ==> infos[k].offset == PrefixLength(infos, k)
  }

  lemma {:induction false} PrefixLengthOfPrefix(infos: seq<ChunkInfo>, m: nat, k: nat)
    requires k <= m <= |infos|
    ensures PrefixLength(infos[..m], k) == PrefixLength(infos, k)
  {
    if k > 0 {
      PrefixLengthOfPrefix(infos, m, k - 1);
    }
  }

  /** The indices 0, 1, ..., n - 1 in order. */
  function Iota(n: nat): (r: seq<nat>)
    ensures |r| == n && forall j :: 0 <= j < n ==> r[j] == j
  {
    if n == 0 then [] else Iota(n - 1) + [n - 1]
  }

  /** When every entry starts where the previous ones end, the walk processes all of them in order. */
  lemma {:induction false} ContiguousKeepsAll(infos: seq<ChunkInfo>)
    requires Contiguous(infos)
    ensures Walk(infos) == WalkState(PrefixLength(infos, |infos|), Iota(|infos|), false)
    decreases |infos|
  {
    if infos != [] {
      var last := |infos| - 1;
      var pre := infos[..last];
      forall k | 0 <= k < last ensures pre[k].offset == PrefixLength(pre, k) {
        PrefixLengthOfPrefix(infos, last, k);
      }
      ContiguousKeepsAll(pre);
      PrefixLengthOfPrefix(infos, last, last);
      var s := Walk(pre);
      assert s.offset == PrefixLength(infos, last) == infos[last].offset;
      assert Classify(s.offset, infos[last]) == Keep;
    }
  }
}
