/** The free list of cache blocks, and the block manager's operations as functions on it
    (src/memory/block_allocator.h, block_manager.cpp). A free list is written with the block that
    is handed out next at the end. */
module BlockMemory {
  import opened Arith
  import opened Sequences

  /** allocate(n): n blocks popped one after the other off the end. */
  function Taken(free: seq<int>, n: nat): seq<int>
    requires n <= |free|
  {
    seq(n, i requires 0 <= i < n => free[|free| - 1 - i])
  }

  /** The free list as the allocator builds it: block 0 is handed out first. */
  function InitialFree(n: nat): (free: seq<int>)
    ensures |free| == n
  {
    if n == 0 then [] else [n - 1] + InitialFree(n - 1)
  }

  datatype Grant = Grant(free: seq<int>, s: SeqState, ok: bool)

  /** allocate_slots_for_sequence. */
  function AllocateSeq(free: seq<int>, s: SeqState, blockSize: nat): Grant
    requires blockSize > 0
  {
    var n := BlocksToAllocate(s, blockSize);
    if n == 0 then Grant(free, s, true)
    else if n > |free| then Grant(free, s, false)
    else Grant(free[..|free| - n], s.AppendBlocks(Taken(free, n)), true)
  }

  /** A finished sequence asks for nothing; a live one for the fewest blocks that, with those it holds, have a slot for each
      of its tokens. */
  lemma FewestBlocks(s: SeqState, blockSize: nat)
    requires blockSize > 0
    ensures var n := BlocksToAllocate(s, blockSize);
            && (s.cancelled || s.stopped ==> n == 0)
            && (!s.cancelled && !s.stopped ==>
                  && |s.tokens| <= (|s.blocks| + n) * blockSize
                  && (n > 0 ==> (|s.blocks| + n - 1) * blockSize < |s.tokens|))
  {
    var n := BlocksToAllocate(s, blockSize);
    CeilDivBounds(|s.tokens|, blockSize);
    if !s.Finished() {
      MulMonotone(s.BlocksNeeded(blockSize), |s.blocks| + n, blockSize);
      assert (|s.blocks| + n - 1) * blockSize == (|s.blocks| + n) * blockSize - blockSize;
    }
  }

  /** The blocks held by all sequences. */
  function Held(seqs: seq<SeqState>): multiset<int> {
    if seqs == [] then multiset{}
    else Held(seqs[..|seqs| - 1]) + multiset(seqs[|seqs| - 1].blocks)
  }

  /** Every block id from 0 to n - 1, once. */
  function Pool(n: nat): (m: multiset<int>)
    ensures forall b :: m[b] == if 0 <= b < n then 1 else 0
  {
    if n == 0 then multiset{} else Pool(n - 1) + multiset{n - 1}
  }

  /** No block is lost, shared or invented. */
  ghost predicate Conserved(free: seq<int>, seqs: seq<SeqState>, numBlocks: nat) {
    multiset(free) + Held(seqs) == Pool(numBlocks)
  }

  lemma {:induction false} InitialPool(n: nat)
    ensures multiset(InitialFree(n)) == Pool(n)
    ensures forall i :: 0 <= i < n ==> InitialFree(n)[i] == n - 1 - i
  {
    if n > 0 { InitialPool(n - 1); }
  }

  lemma {:induction false} TakenSplits(free: seq<int>, n: nat)
    requires n <= |free|
    ensures multiset(free) == multiset(free[..|free| - n]) + multiset(Taken(free, n))
  {
    if n == 0 {
      assert free[..|free|] == free;
    } else {
      var rest := free[..|free| - 1];
      var last := free[|free| - 1];
      TakenSplits(rest, n - 1);
      assert free == rest + [last];
      assert Taken(free, n) == [last] + Taken(rest, n - 1);
      assert free[..|free| - n] == rest[..|rest| - (n - 1)];
    }
  }

  lemma SumSwap(a: multiset<int>, x: multiset<int>, b: multiset<int>, y: multiset<int>, c: multiset<int>)
    requires a + x == b + y
    ensures (a + c) + x == (b + c) + y
  {
    assert (a + c) + x == (a + x) + c;
  }

  lemma {:induction false} HeldUpdate(seqs: seq<SeqState>, k: nat, s: SeqState)
    requires k < |seqs|
    ensures Held(seqs[k := s]) + multiset(seqs[k].blocks) == Held(seqs) + multiset(s.blocks)
  {
    var n := |seqs| - 1;
    if k == n {
      assert seqs[k := s][..n] == seqs[..n];
    } else {
      HeldUpdate(seqs[..n], k, s);
      assert seqs[k := s][..n] == seqs[..n][k := s];
      SumSwap(Held(seqs[..n][k := s]), multiset(seqs[k].blocks), Held(seqs[..n]), multiset(s.blocks),
              multiset(seqs[n].blocks));
    }
  }

  lemma {:induction false} HeldOne(seqs: seq<SeqState>, k: nat)
    requires k < |seqs|
    ensures multiset(seqs[k].blocks) <= Held(seqs)
  {
    if k < |seqs| - 1 { HeldOne(seqs[..|seqs| - 1], k); }
  }

  lemma {:induction false} HeldTwo(seqs: seq<SeqState>, j: nat, k: nat)
    requires j < k < |seqs|
    ensures multiset(seqs[j].blocks) + multiset(seqs[k].blocks) <= Held(seqs)
  {
    var n := |seqs| - 1;
    var rest := seqs[..n];
    if k < n {
      HeldTwo(rest, j, k);
      assert rest[j] == seqs[j] && rest[k] == seqs[k];
      assert Held(rest) <= Held(seqs);
    } else {
      HeldOne(rest, j);
      assert rest[j] == seqs[j];
    }
  }

  lemma {:induction false} HeldAppend(seqs: seq<SeqState>, more: seq<SeqState>)
    requires forall s <- more :: s.blocks == []
    ensures Held(seqs + more) == Held(seqs)
  {
    if more == [] {
      assert seqs + more == seqs;
    } else {
      var n := |more| - 1;
      HeldAppend(seqs, more[..n]);
      assert (seqs + more)[..|seqs| + n] == seqs + more[..n];
      assert (seqs + more)[|seqs| + n] == more[n] && more[n] in more;
    }
  }

  lemma {:induction false} HeldSame(a: seq<SeqState>, b: seq<SeqState>)
    requires |a| == |b| && forall k :: 0 <= k < |a| ==> a[k].blocks == b[k].blocks
    ensures Held(a) == Held(b)
  {
    if a != [] { HeldSame(a[..|a| - 1], b[..|b| - 1]); }
  }

  lemma MultisetAt(xs: seq<int>, i: nat, j: nat)
    requires i < j < |xs| && xs[i] == xs[j]
    ensures multiset(xs)[xs[i]] >= 2
  {
    assert xs == xs[..j] + xs[j..];
    assert xs[i] in xs[..j] && xs[i] in xs[j..];
    assert multiset(xs) == multiset(xs[..j]) + multiset(xs[j..]);
  }

  /** What conservation says about one sequence: distinct, in-range block ids. */
  lemma BlocksOwn(free: seq<int>, seqs: seq<SeqState>, numBlocks: nat, k: nat)
    requires Conserved(free, seqs, numBlocks) && k < |seqs|
    ensures forall i :: 0 <= i < |seqs[k].blocks| ==> 0 <= seqs[k].blocks[i] < numBlocks
    ensures forall i, j :: 0 <= i < j < |seqs[k].blocks| ==> seqs[k].blocks[i] != seqs[k].blocks[j]
  {
    var bs := seqs[k].blocks;
    HeldOne(seqs, k);
    assert multiset(bs) <= Pool(numBlocks);
    forall i | 0 <= i < |bs| ensures 0 <= bs[i] < numBlocks {
      assert bs[i] in multiset(bs);
    }
    forall i, j | 0 <= i < j < |bs| ensures bs[i] != bs[j] {
      if bs[i] == bs[j] { MultisetAt(bs, i, j); }
    }
  }

  /** ... and about two: they share nothing. */
  lemma BlocksApart(free: seq<int>, seqs: seq<SeqState>, numBlocks: nat, j: nat, k: nat)
    requires Conserved(free, seqs, numBlocks) && j < |seqs| && k < |seqs| && j != k
    ensures forall x, y :: 0 <= x < |seqs[j].blocks| && 0 <= y < |seqs[k].blocks| ==>
              seqs[j].blocks[x] != seqs[k].blocks[y]
  {
    var a, b := seqs[j].blocks, seqs[k].blocks;
    if j < k { HeldTwo(seqs, j, k); } else { HeldTwo(seqs, k, j); }
    forall x, y | 0 <= x < |a| && 0 <= y < |b| ensures a[x] != b[y] {
      assert a[x] in multiset(a) && b[y] in multiset(b);
      assert multiset(a) + multiset(b) <= Pool(numBlocks);
      assert (multiset(a) + multiset(b))[a[x]] <= 1;
    }
  }

  lemma BlocksMoved(free: seq<int>, held: multiset<int>, free': seq<int>, held': multiset<int>,
                taken: multiset<int>, own: multiset<int>)
    requires multiset(free) == multiset(free') + taken
    requires held' + own == held + (own + taken)
    ensures multiset(free') + held' == multiset(free) + held
  {
    assert held' == held + taken by {
      forall b ensures held'[b] == (held + taken)[b] {
        assert (held' + own)[b] == (held + (own + taken))[b];
      }
    }
  }

  lemma BlocksReturned(free: seq<int>, held: multiset<int>, free': seq<int>, held': multiset<int>, own: multiset<int>)
    requires multiset(free') == multiset(free) + own
    requires held' + own == held
    ensures multiset(free') + held' == multiset(free) + held
  {
  }

  /** Granting or refusing blocks keeps conservation. */
  lemma GrantConserves(free: seq<int>, seqs: seq<SeqState>, k: nat, blockSize: nat, numBlocks: nat)
    requires blockSize > 0 && k < |seqs| && Conserved(free, seqs, numBlocks)
    ensures var g := AllocateSeq(free, seqs[k], blockSize); Conserved(g.free, seqs[k := g.s], numBlocks)
  {
    var g := AllocateSeq(free, seqs[k], blockSize);
    var n := BlocksToAllocate(seqs[k], blockSize);
    if 0 < n <= |free| {
      var taken := Taken(free, n);
      TakenSplits(free, n);
      HeldUpdate(seqs, k, g.s);
      assert multiset(g.s.blocks) == multiset(seqs[k].blocks) + multiset(taken);
      BlocksMoved(free, Held(seqs), g.free, Held(seqs[k := g.s]), multiset(taken), multiset(seqs[k].blocks));
    } else {
      assert seqs[k := g.s] == seqs;
    }
  }

  /** Granting blocks keeps conservation, and leaves a granted sequence with exactly the blocks it
      needs; a refusal changes nothing and happens only when the free list is too short. */
  lemma AllocateSeqSafe(free: seq<int>, seqs: seq<SeqState>, k: nat, blockSize: nat, numBlocks: nat)
    requires blockSize > 0 && k < |seqs| && Conserved(free, seqs, numBlocks)
    requires WellFormed(seqs[k], blockSize)
    ensures var g := AllocateSeq(free, seqs[k], blockSize);
            && Conserved(g.free, seqs[k := g.s], numBlocks)
            && WellFormed(g.s, blockSize)
            && seqs[k].blocks <= g.s.blocks
            && g.s == seqs[k].(blocks := g.s.blocks)
            && (g.ok <==> BlocksToAllocate(seqs[k], blockSize) <= |free|)
            && (g.ok && !g.s.Finished() ==> |g.s.blocks| == g.s.BlocksNeeded(blockSize))
            && (!g.ok ==> g.free == free && g.s == seqs[k])
  {
    var g := AllocateSeq(free, seqs[k], blockSize);
    GrantConserves(free, seqs, k, blockSize, numBlocks);
    MulMonotone(|seqs[k].blocks|, |g.s.blocks|, blockSize);
  }

  /** Releasing a sequence's blocks keeps conservation. */
  lemma ReleaseSeqSafe(free: seq<int>, seqs: seq<SeqState>, k: nat, numBlocks: nat)
    requires k < |seqs| && Conserved(free, seqs, numBlocks)
    ensures Conserved(free + seqs[k].blocks, seqs[k := seqs[k].Release()], numBlocks)
  {
    HeldUpdate(seqs, k, seqs[k].Release());
    BlocksReturned(free, Held(seqs), free + seqs[k].blocks, Held(seqs[k := seqs[k].Release()]), multiset(seqs[k].blocks));
  }
}
