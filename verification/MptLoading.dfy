/** Sharding the fused q, k, v weight of an attention layer (src/models/huggingface/mpt.h). A tensor is the sequence of
    its rows, or of its numbers when it is a bias. */
module MptLoading {
  import opened Arith
  import opened Tensors
  import opened WeightLoading

  /** Row (i, j, d) of a tensor seen as a by b by headDim. */
  function Index(i: nat, j: nat, d: nat, b: nat, headDim: nat): (k: nat)
    ensures k == (i * b + j) * headDim + d
  {
    (i * b + j) * headDim + d
  }

  lemma IndexBound(i: nat, j: nat, d: nat, a: nat, b: nat, headDim: nat)
    requires i < a && j < b && d < headDim
    ensures Index(i, j, d, b, headDim) < a * b * headDim
  {
    SlotBound(i, b, a, j);
    SlotBound(i * b + j, headDim, a * b, d);
  }

  lemma Positive(x: nat, y: nat, p: nat)
    requires p < x * y
    ensures x > 0 && y > 0 && p / y < x && p == p / y * y + p % y
  {
    assert y != 0;
    BlockIndexBound(p, y, x);
  }

  /** q as j * a + i with i < a. */
  function Locate(q: nat, a: nat, b: nat): (r: (nat, nat))
    requires q < a * b
    ensures r.0 < a && r.1 < b && q == r.1 * a + r.0
  {
    assert a * b == b * a;
    Positive(b, a, q);
    (q % a, q / a)
  }

  lemma LocateUnique(i: nat, j: nat, a: nat, b: nat)
    requires i < a && j < b && j * a + i < a * b
    ensures Locate(j * a + i, a, b) == (i, j)
  {
    DivModUnique(j * a + i, a, j, i);
  }

  /** Where the entry at position p of the swapped tensor comes from. */
  function Source(p: nat, size: nat, a: nat, b: nat, headDim: nat): (k: nat)
    requires p < size == a * b * headDim
    ensures k < size
  {
    Positive(a * b, headDim, p);
    var (i, j) := Locate(p / headDim, a, b);
    IndexBound(i, j, p % headDim, a, b, headDim);
    Index(i, j, p % headDim, b, headDim)
  }

  /** view({a, b, headDim}).permute({1, 0, 2}).reshape. */
  function Swap<T>(t: seq<T>, a: nat, b: nat, headDim: nat): (r: seq<T>)
    requires |t| == a * b * headDim
    ensures |r| == |t|
  {
    seq(|t|, p requires 0 <= p < |t| => t[Source(p, |t|, a, b, headDim)])
  }

  lemma SwapAt<T>(t: seq<T>, a: nat, b: nat, headDim: nat, i: nat, j: nat, d: nat)
    requires |t| == a * b * headDim && i < a && j < b && d < headDim
    ensures Index(i, j, d, b, headDim) < |t| && Index(j, i, d, a, headDim) < |t|
    ensures Swap(t, a, b, headDim)[Index(j, i, d, a, headDim)] == t[Index(i, j, d, b, headDim)]
  {
    IndexBound(i, j, d, a, b, headDim);
    IndexBound(j, i, d, b, a, headDim);
    assert a * b == b * a;
    DivModUnique(Index(j, i, d, a, headDim), headDim, j * a + i, d);
    SlotBound(j, a, b, i);
    LocateUnique(i, j, a, b);
  }

  /** reshape_qkv_before_sharding: [3, heads, ...] to [heads, 3, ...]. */
  function BeforeSharding<T>(t: seq<T>, heads: nat, headDim: nat): (r: seq<T>)
    requires |t| == 3 * heads * headDim
    ensures |r| == |t|
  {
    Swap(t, 3, heads, headDim)
  }

  /** reshape_qkv_after_sharding: [heads, 3, ...] to [3, heads, ...]. */
  function AfterSharding<T>(t: seq<T>, heads: nat, headDim: nat): (r: seq<T>)
    requires |t| == heads * 3 * headDim
    ensures |r| == |t|
  {
    Swap(t, heads, 3, headDim)
  }

  lemma LocalSize(local: nat, n: nat, headDim: nat)
    requires n > 0
    ensures var size := 3 * (local * n) * headDim; size % n == 0 && size / n == local * 3 * headDim
    ensures local > 0 && headDim > 0 ==> 3 * (local * n) * headDim > n
  {
    var w := local * 3 * headDim;
    assert 3 * (local * n) * headDim == w * n by {
      assert 3 * (local * n) == (local * 3) * n;
      assert ((local * 3) * n) * headDim == ((local * 3) * headDim) * n;
    }
    DivModUnique(w * n, n, w, 0);
    if local > 0 && headDim > 0 {
      MulMonotone(1, local, 3);
      MulMonotone(1, headDim, local * 3);
      MulMonotone(3, w, n);
    }
  }

  /** What rank `local rank` of n keeps: reshape, take the share, reshape back. */
  function LoadQkv<T>(t: seq<T>, localHeads: nat, n: nat, headDim: nat, rank: nat): (r: seq<T>)
    requires rank < n && localHeads > 0 && headDim > 0 && |t| == 3 * (localHeads * n) * headDim
    ensures |r| == localHeads * 3 * headDim
  {
    LocalSize(localHeads, n, headDim);
    var piece := Share(BeforeSharding(t, localHeads * n, headDim), n, rank);
    assert |piece.rows| == localHeads * 3 * headDim by { ChunkBounds(|t|, n, rank); }
    AfterSharding(piece.rows, localHeads, headDim)
  }

  /** Rank `rank` ends with exactly the rows of its own heads, first those of q, then k, then v. */
  lemma RankGetsItsHeads<T>(t: seq<T>, localHeads: nat, n: nat, headDim: nat, rank: nat, c: nat, h: nat, d: nat)
    requires rank < n && localHeads > 0 && headDim > 0 && |t| == 3 * (localHeads * n) * headDim
    requires c < 3 && h < localHeads && d < headDim
    ensures Index(c, h, d, localHeads, headDim) < localHeads * 3 * headDim
    ensures Index(c, rank * localHeads + h, d, localHeads * n, headDim) < |t|
    ensures LoadQkv(t, localHeads, n, headDim, rank)[Index(c, h, d, localHeads, headDim)]
            == t[Index(c, rank * localHeads + h, d, localHeads * n, headDim)]
  {
    var heads, head := localHeads * n, rank * localHeads + h;
    SlotBound(rank, localHeads, n, h);
    assert n * localHeads == heads;
    LocalSize(localHeads, n, headDim);
    var swapped := BeforeSharding(t, heads, headDim);
    SwapAt(t, 3, heads, headDim, c, head, d);
    var local := Share(swapped, n, rank).rows;
    var w := localHeads * 3 * headDim;
    IndexBound(h, c, d, localHeads, 3, headDim);
    ChunkBounds(|t|, n, rank);
    ShareAt(swapped, n, rank, Index(h, c, d, 3, headDim));
    HeadOffset(rank, localHeads, h, c, d, headDim);
    SwapAt(local, localHeads, 3, headDim, h, c, d);
  }

  lemma ShareAt<T>(t: seq<T>, n: nat, rank: nat, k: nat)
    requires rank < n && |t| > n && |t| % n == 0 && k < |t| / n
    ensures Share(t, n, rank).Piece? && |Share(t, n, rank).rows| == |t| / n
    ensures 0 <= rank * (|t| / n) + k < |t| && Share(t, n, rank).rows[k] == t[rank * (|t| / n) + k]
  {
    ChunkBounds(|t|, n, rank);
  }

  lemma HeadOffset(rank: nat, localHeads: nat, h: nat, c: nat, d: nat, headDim: nat)
    ensures rank * (localHeads * 3 * headDim) + Index(h, c, d, 3, headDim)
            == Index(rank * localHeads + h, c, d, 3, headDim)
  {
    var x, y := rank * localHeads, h * 3 + c;
    assert rank * (localHeads * 3 * headDim) == (x * 3) * headDim by {
      assert rank * (localHeads * 3) == x * 3;
      assert rank * ((localHeads * 3) * headDim) == (rank * (localHeads * 3)) * headDim;
    }
    assert (x * 3) * headDim + y * headDim == (x * 3 + y) * headDim;
    assert (x + h) * 3 + c == x * 3 + y;
  }

  lemma OneRankKeeps<T>(t: seq<T>, heads: nat, headDim: nat, p: nat)
    requires heads > 0 && headDim > 0 && |t| == 3 * (heads * 1) * headDim && p < |t|
    ensures p < |LoadQkv(t, heads, 1, headDim, 0)| && LoadQkv(t, heads, 1, headDim, 0)[p] == t[p]
  {
    assert heads * 3 == 3 * heads && heads * 1 == heads;
    Positive(heads * 3, headDim, p);
    var (h, c) := Locate(p / headDim, heads, 3);
    RankGetsItsHeads(t, heads, 1, headDim, 0, c, h, p % headDim);
    assert 0 * heads + h == h;
    assert p == Index(c, h, p % headDim, heads, headDim);
  }

  /** On one rank the two reshapes cancel. */
  lemma OneRankKeepsAll<T>(t: seq<T>, heads: nat, headDim: nat)
    requires heads > 0 && headDim > 0 && |t| == 3 * (heads * 1) * headDim
    ensures LoadQkv(t, heads, 1, headDim, 0) == t
  {
    assert heads * 3 == 3 * heads;
    var r := LoadQkv(t, heads, 1, headDim, 0);
    forall p | 0 <= p < |t| ensures r[p] == t[p] {
      OneRankKeeps(t, heads, headDim, p);
    }
  }

  // ----- a sharded checkpoint

  /** The file as select_with_transform hands it on: every tensor it gives out has been reshaped. */
  function Transformed<T>(sd: StateDict<T>, name: string, heads: nat, headDim: nat): StateDict<T>
    requires name in sd.dict && |sd.dict[name]| == 3 * heads * headDim
  {
    sd.(dict := sd.dict[name := BeforeSharding(sd.dict[name], heads, headDim)])
  }

  function AllTransformed<T>(files: seq<StateDict<T>>, name: string, heads: nat, headDim: nat): (r: seq<StateDict<T>>)
    requires Sharded(files, name) && forall f :: 0 <= f < |files| ==> |files[f].dict[name]| == 3 * heads * headDim
    ensures |r| == |files| && Sharded(r, name)
  {
    seq(|files|, f requires 0 <= f < |files| => Transformed(files[f], name, heads, headDim))
  }

  /** With the fused tensor split over shards, exactly one file answers a rank, and what the rank keeps of its answer are
      the q, k and v rows of its own heads in that shard. */
  lemma ShardedRankGetsItsHeads<T>(files: seq<StateDict<T>>, name: string, localHeads: nat, headDim: nat, rank: nat,
                                   worldSize: nat, n: nat, home: nat, local: nat, c: nat, h: nat, d: nat)
    requires Sharded(files, name) && |files| > 0 && rank < worldSize && worldSize % |files| == 0
    requires n == worldSize / |files| > 0 && home == rank / n && local == rank % n
    requires localHeads > 0 && headDim > 0 && c < 3 && h < localHeads && d < headDim
    requires forall f :: 0 <= f < |files| ==> |files[f].dict[name]| == 3 * (localHeads * n) * headDim
    ensures var a := Loaded(AllTransformed(files, name, localHeads * n, headDim), name, rank, worldSize);
            && home < |files| && a.Piece? && |a.rows| == localHeads * 3 * headDim
            && Index(c, h, d, localHeads, headDim) < localHeads * 3 * headDim
            && Index(c, local * localHeads + h, d, localHeads * n, headDim) < |files[home].dict[name]|
            && AfterSharding(a.rows, localHeads, headDim)[Index(c, h, d, localHeads, headDim)]
               == files[home].dict[name][Index(c, local * localHeads + h, d, localHeads * n, headDim)]
  {
    LoadedIsLocal(files, name, localHeads * n, headDim, rank, worldSize);
    QkvShare(files[home].dict[name], localHeads, n, headDim, local);
    RankGetsItsHeads(files[home].dict[name], localHeads, n, headDim, local, c, h, d);
  }

  lemma LoadedIsLocal<T>(files: seq<StateDict<T>>, name: string, heads: nat, headDim: nat, rank: nat, worldSize: nat)
    requires Sharded(files, name) && |files| > 0 && rank < worldSize && worldSize % |files| == 0 && worldSize / |files| > 0
    requires forall f :: 0 <= f < |files| ==> |files[f].dict[name]| == 3 * heads * headDim
    ensures var n := worldSize / |files|;
            && rank / n < |files|
            && Loaded(AllTransformed(files, name, heads, headDim), name, rank, worldSize)
               == Share(BeforeSharding(files[rank / n].dict[name], heads, headDim), n, rank % n)
  {
    HomeShard(worldSize, |files|, rank, 0);
    FirstAnswerIsShare(AllTransformed(files, name, heads, headDim), name, rank, worldSize, 0);
  }

  lemma QkvShare<T>(t: seq<T>, localHeads: nat, n: nat, headDim: nat, local: nat)
    requires local < n && localHeads > 0 && headDim > 0 && |t| == 3 * (localHeads * n) * headDim
    ensures var a := Share(BeforeSharding(t, localHeads * n, headDim), n, local);
            && a.Piece? && |a.rows| == localHeads * 3 * headDim
            && AfterSharding(a.rows, localHeads, headDim) == LoadQkv(t, localHeads, n, headDim, local)
  {
    LocalSize(localHeads, n, headDim);
    ChunkBounds(|t|, n, local);
  }
}
