/** What the scheduler's three memory operations do to the store, request by request. */
module SchedulerMemory {
  import opened Arith
  import opened Sequences
  import opened BlockMemory
  import opened BatchInputs
  import opened BatchFaithful
  import opened PagedExecution
  import opened SchedulerState

  predicate NoDup(xs: seq<nat>) {
    forall i, j :: 0 <= i < j < |xs| ==> xs[i] != xs[j]
  }

  predicate Healthy(s: SeqState, blockSize: nat)
    requires blockSize > 0
  {
    WellFormed(s, blockSize) && WithinBudget(s)
  }

  /** Blocks are conserved, and every sequence is well formed and within its budget. */
  ghost predicate Sound(e: Engine, m: Memory)
    requires e.blockSize > 0
  {
    && Conserved(m.free, m.seqs, e.numBlocks)
    && (forall k :: 0 <= k < |m.seqs| ==> Healthy(m.seqs[k], e.blockSize))
  }

  /** Every sequence's cached prefix is in the cache. */
  predicate Cached(e: Engine, cache: seq<KV>, seqs: seq<SeqState>) {
    && |cache| == e.numBlocks * e.blockSize
    && (forall k :: 0 <= k < |seqs| ==> CachedPrefix(e.f, cache, seqs[k], e.blockSize))
  }

  /** b is a with blocks added at the end. */
  predicate Grown(a: SeqState, b: SeqState) { b == a.(blocks := b.blocks) && a.blocks <= b.blocks }

  lemma CachedGrown(e: Engine, cache: seq<KV>, a: SeqState, b: SeqState)
    requires CachedPrefix(e.f, cache, a, e.blockSize) && Grown(a, b)
    ensures CachedPrefix(e.f, cache, b, e.blockSize)
  {
    ExtendedRead(cache, e.blockSize, a.blocks, b.blocks, a.cachePos);
  }

  lemma CachedReleased(e: Engine, cache: seq<KV>, a: SeqState)
    requires e.blockSize > 0
    ensures CachedPrefix(e.f, cache, a.Release(), e.blockSize)
  {
  }

  // ----- allocation

  /** What one attempt to schedule a request guarantees. */
  ghost predicate AttemptOk(e: Engine, m: Memory, ids: seq<nat>, a: Attempt)
    requires e.blockSize > 0 && Known(m.seqs, ids)
  {
    && |a.m.seqs| == |m.seqs|
    && Sound(e, a.m)
    && (forall k :: 0 <= k < |m.seqs| ==> Grown(m.seqs[k], a.m.seqs[k]))
    && (forall k :: 0 <= k < |m.seqs| && k !in ids ==> a.m.seqs[k] == m.seqs[k])
    && NoDup(a.granted)
    && (forall k <- a.granted :: k in ids && Granted(a.m.seqs[k], e.blockSize) && !a.m.seqs[k].Finished())
    && (a.granted == [] ==>
          a.m == m && forall i :: 0 <= i < |ids| ==>
            m.seqs[ids[i]].Finished() || BlocksToAllocate(m.seqs[ids[i]], e.blockSize) > |m.free|)
  }

  lemma {:induction false} AllocateAllSafe(e: Engine, m: Memory, ids: seq<nat>)
    requires e.blockSize > 0 && Sound(e, m) && Known(m.seqs, ids) && NoDup(ids)
    ensures AttemptOk(e, m, ids, AllocateAll(m, ids, e.blockSize))
  {
    if ids != [] {
      var n := |ids| - 1;
      var k := ids[n];
      AllocateAllSafe(e, m, ids[..n]);
      var a := AllocateAll(m, ids[..n], e.blockSize);
      assert ids == ids[..n] + [k];
      assert k !in ids[..n];
      if m.seqs[k].Finished() {
        AllocateSkip(e, m, ids[..n], a, k);
      } else {
        AllocateStep(e, m, ids[..n], a, k);
      }
    }
  }

  lemma AllocateSkip(e: Engine, m: Memory, ids: seq<nat>, a: Attempt, k: nat)
    requires e.blockSize > 0 && Known(m.seqs, ids) && AttemptOk(e, m, ids, a)
    requires k < |m.seqs| && m.seqs[k].Finished()
    ensures AttemptOk(e, m, ids + [k], a) && a.m.seqs[k].Finished()
  {
    assert forall j :: j in ids + [k] <==> j in ids || j == k;
    assert Grown(m.seqs[k], a.m.seqs[k]);
  }

  lemma GrantSound(e: Engine, m: Memory, k: nat)
    requires e.blockSize > 0 && k < |m.seqs| && Sound(e, m)
    ensures var g := AllocateSeq(m.free, m.seqs[k], e.blockSize); Sound(e, Memory(g.free, m.seqs[k := g.s]))
  {
    var g := AllocateSeq(m.free, m.seqs[k], e.blockSize);
    assert Healthy(m.seqs[k], e.blockSize);
    AllocateSeqSafe(m.free, m.seqs, k, e.blockSize, e.numBlocks);
    var m' := Memory(g.free, m.seqs[k := g.s]);
    forall j | 0 <= j < |m'.seqs| ensures Healthy(m'.seqs[j], e.blockSize) {
      assert Healthy(m.seqs[j], e.blockSize);
    }
  }

  lemma GrantedMore(seqs: seq<SeqState>, seqs': seq<SeqState>, ids: seq<nat>, granted: seq<nat>, k: nat, blockSize: nat)
    requires blockSize > 0 && k < |seqs| == |seqs'| && k !in ids && NoDup(granted)
    requires forall j <- granted :: j in ids && j < |seqs| && Granted(seqs[j], blockSize) && !seqs[j].Finished()
    requires forall j :: 0 <= j < |seqs| && j != k ==> seqs'[j] == seqs[j]
    requires Granted(seqs'[k], blockSize) && !seqs'[k].Finished()
    ensures NoDup(granted + [k])
    ensures forall j <- granted + [k] :: j in ids + [k] && j < |seqs'| && Granted(seqs'[j], blockSize) && !seqs'[j].Finished()
  {
    assert forall j <- granted + [k] :: j in granted || j == k;
    assert forall i :: 0 <= i < |granted| ==> granted[i] in granted;
  }

  lemma AllocateGrants(e: Engine, m: Memory, ids: seq<nat>, a: Attempt, k: nat)
    requires e.blockSize > 0 && Known(m.seqs, ids) && AttemptOk(e, m, ids, a)
    requires k < |m.seqs| && k !in ids && !m.seqs[k].Finished() && AllocateSeq(a.m.free, a.m.seqs[k], e.blockSize).ok
    ensures var g := AllocateSeq(a.m.free, a.m.seqs[k], e.blockSize);
            AttemptOk(e, m, ids + [k], Attempt(Memory(g.free, a.m.seqs[k := g.s]), a.granted + [k], a.all))
  {
    var g := AllocateSeq(a.m.free, a.m.seqs[k], e.blockSize);
    assert Healthy(a.m.seqs[k], e.blockSize);
    AllocateSeqSafe(a.m.free, a.m.seqs, k, e.blockSize, e.numBlocks);
    var seqs' := a.m.seqs[k := g.s];
    GrantSound(e, a.m, k);
    GrantedMore(a.m.seqs, seqs', ids, a.granted, k, e.blockSize);
    forall j | 0 <= j < |m.seqs| ensures Grown(m.seqs[j], seqs'[j]) {
      assert Grown(m.seqs[j], a.m.seqs[j]);
    }
  }

  lemma AllocateStep(e: Engine, m: Memory, ids: seq<nat>, a: Attempt, k: nat)
    requires e.blockSize > 0 && Known(m.seqs, ids) && AttemptOk(e, m, ids, a)
    requires k < |m.seqs| && k !in ids && !m.seqs[k].Finished()
    ensures var g := AllocateSeq(a.m.free, a.m.seqs[k], e.blockSize);
            && !a.m.seqs[k].Finished()
            && AttemptOk(e, m, ids + [k],
                         if g.ok then Attempt(Memory(g.free, a.m.seqs[k := g.s]), a.granted + [k], a.all)
                         else a.(all := false))
  {
    if AllocateSeq(a.m.free, a.m.seqs[k], e.blockSize).ok {
      AllocateGrants(e, m, ids, a, k);
    } else {
      var ids' := ids + [k];
      assert forall i :: 0 <= i < |ids'| ==> ids'[i] in ids || ids'[i] == k;
    }
  }

  // ----- release

  lemma {:induction false} ReleasesConserve(m: Memory, ids: seq<nat>, numBlocks: nat)
    requires Known(m.seqs, ids) && Conserved(m.free, m.seqs, numBlocks)
    ensures var m' := ReleaseAll(m, ids); Conserved(m'.free, m'.seqs, numBlocks)
  {
    if ids != [] {
      var n := |ids| - 1;
      ReleasesConserve(m, ids[..n], numBlocks);
      var p := ReleaseAll(m, ids[..n]);
      ReleaseSeqSafe(p.free, p.seqs, ids[n], numBlocks);
    }
  }

  lemma {:induction false} ReleaseAllAt(m: Memory, ids: seq<nat>, k: nat)
    requires Known(m.seqs, ids) && k < |m.seqs|
    ensures ReleaseAll(m, ids).seqs[k] == if k in ids then m.seqs[k].Release() else m.seqs[k]
  {
    if ids != [] {
      var n := |ids| - 1;
      ReleaseAllAt(m, ids[..n], k);
      assert k in ids <==> k in ids[..n] || k == ids[n];
    }
  }

  lemma ReleasedHealthy(t: SeqState, blockSize: nat)
    requires blockSize > 0 && Healthy(t, blockSize)
    ensures Healthy(t.Release(), blockSize)
  {
  }

  lemma ReleaseAllSafe(e: Engine, m: Memory, ids: seq<nat>)
    requires e.blockSize > 0 && Sound(e, m) && Known(m.seqs, ids)
    ensures Sound(e, ReleaseAll(m, ids))
    ensures forall k :: 0 <= k < |m.seqs| ==>
              ReleaseAll(m, ids).seqs[k] == if k in ids then m.seqs[k].Release() else m.seqs[k]
  {
    ReleasesConserve(m, ids, e.numBlocks);
    forall k | 0 <= k < |m.seqs|
      ensures ReleaseAll(m, ids).seqs[k] == if k in ids then m.seqs[k].Release() else m.seqs[k]
      ensures Healthy(ReleaseAll(m, ids).seqs[k], e.blockSize)
    {
      ReleaseAllAt(m, ids, k);
      ReleasedHealthy(m.seqs[k], e.blockSize);
    }
  }

  // ----- recycling the previous batch

  predicate Sorted(reqs: seq<Request>, xs: seq<nat>) {
    && (forall i :: 0 <= i < |xs| ==> xs[i] < |reqs|)
    && (forall i, j :: 0 <= i < j < |xs| ==> Before(reqs[xs[i]], reqs[xs[j]]))
  }

  predicate Kept(a: SeqState, b: SeqState) { b == a || b == a.Release() }

  /** The store after recycling: finished requests of the batch have no blocks left. */
  ghost predicate RecycledStore(e: Engine, reqs: seq<Request>, m: Memory, done: seq<nat>, x: Recycled)
    requires e.blockSize > 0 && KnownAll(m.seqs, reqs)
  {
    && |x.m.seqs| == |m.seqs|
    && Sound(e, x.m)
    && (forall k :: 0 <= k < |m.seqs| ==> Kept(m.seqs[k], x.m.seqs[k]))
    && (forall r :: r in x.done && r !in done && r < |reqs| ==> NoBlocks(x.m.seqs, reqs[r].seqs))
  }

  predicate NoBlocks(seqs: seq<SeqState>, ids: seq<nat>) {
    forall i :: 0 <= i < |ids| ==> ids[i] < |seqs| && seqs[ids[i]].blocks == []
  }

  /** Where the requests of the batch went. */
  ghost predicate RecycledPlaces(reqs: seq<Request>, heap: set<nat>, done: seq<nat>, batch: seq<nat>, x: Recycled) {
    && x.heap == heap + Elements(x.preemptable)
    && done <= x.done
    && multiset(x.done) + multiset(x.preemptable) == multiset(done) + multiset(batch)
    && Sorted(reqs, x.preemptable)
    && (forall r <- x.preemptable :: r in batch)
  }

  lemma {:induction false} RecycleBatchStore(e: Engine, reqs: seq<Request>, m: Memory, heap: set<nat>, done: seq<nat>, batch: seq<nat>)
    requires e.blockSize > 0 && Sound(e, m) && KnownAll(m.seqs, reqs)
    requires forall i :: 0 <= i < |batch| ==> batch[i] < |reqs|
    ensures RecycledStore(e, reqs, m, done, RecycleBatch(reqs, m, heap, done, batch))
  {
    if batch != [] {
      RecycleBatchStore(e, reqs, m, heap, done, batch[1..]);
      var x := RecycleBatch(reqs, m, heap, done, batch[1..]);
      if RequestFinished(x.m.seqs, reqs[batch[0]].seqs) {
        RecycleStep(e, reqs, m, done, x, batch[0]);
      }
    }
  }

  lemma RecycleStep(e: Engine, reqs: seq<Request>, m: Memory, done: seq<nat>, x: Recycled, r: nat)
    requires e.blockSize > 0 && KnownAll(m.seqs, reqs) && r < |reqs|
    requires RecycledStore(e, reqs, m, done, x)
    ensures RecycledStore(e, reqs, m, done, x.(m := ReleaseAll(x.m, reqs[r].seqs), done := x.done + [r]))
  {
    var ids := reqs[r].seqs;
    ReleaseAllSafe(e, x.m, ids);
    var m' := ReleaseAll(x.m, ids);
    forall k | 0 <= k < |m.seqs| ensures Kept(m.seqs[k], m'.seqs[k]) {
      assert Kept(m.seqs[k], x.m.seqs[k]);
    }
    forall q | q in x.done + [r] && q !in done && q < |reqs| ensures NoBlocks(m'.seqs, reqs[q].seqs) {
      if q != r {
        assert NoBlocks(x.m.seqs, reqs[q].seqs);
      }
      forall i | 0 <= i < |reqs[q].seqs| ensures m'.seqs[reqs[q].seqs[i]].blocks == [] {
        if q == r { assert reqs[q].seqs[i] in ids; }
      }
    }
  }

  lemma Regroup(a: multiset<nat>, b: multiset<nat>, c: multiset<nat>, d: multiset<nat>, z: multiset<nat>)
    requires a + b == c + d
    ensures (a + z) + b == c + (z + d)
    ensures a + (z + b) == c + (z + d)
  {
    assert (a + z) + b == (a + b) + z;
    assert a + (z + b) == (a + b) + z;
    assert c + (z + d) == (c + d) + z;
  }

  lemma HandedOff(reqs: seq<Request>, heap: set<nat>, done: seq<nat>, batch: seq<nat>, x: Recycled, m: Memory)
    requires batch != [] && RecycledPlaces(reqs, heap, done, batch[1..], x)
    ensures RecycledPlaces(reqs, heap, done, batch, x.(m := m, done := x.done + [batch[0]]))
  {
    var r, rest := batch[0], batch[1..];
    assert batch == [r] + rest;
    assert multiset(x.done + [r]) == multiset(x.done) + multiset{r};
    assert multiset(batch) == multiset{r} + multiset(rest);
    Regroup(multiset(x.done), multiset(x.preemptable), multiset(done), multiset(rest), multiset{r});
  }

  lemma PutBack(reqs: seq<Request>, heap: set<nat>, done: seq<nat>, batch: seq<nat>, x: Recycled)
    requires batch != [] && Sorted(reqs, batch) && RecycledPlaces(reqs, heap, done, batch[1..], x)
    ensures RecycledPlaces(reqs, heap, done, batch,
                           x.(preemptable := [batch[0]] + x.preemptable, heap := x.heap + {batch[0]}))
  {
    var r, rest := batch[0], batch[1..];
    assert batch == [r] + rest;
    assert multiset([r] + x.preemptable) == multiset{r} + multiset(x.preemptable);
    assert multiset(batch) == multiset{r} + multiset(rest);
    Regroup(multiset(x.done), multiset(x.preemptable), multiset(done), multiset(rest), multiset{r});
    forall j | 0 <= j < |x.preemptable| ensures Before(reqs[r], reqs[x.preemptable[j]]) {
      assert x.preemptable[j] in rest;
      var i :| 0 <= i < |rest| && rest[i] == x.preemptable[j];
      assert batch[i + 1] == rest[i];
    }
    assert Elements([r] + x.preemptable) == Elements(x.preemptable) + {r};
  }

  lemma {:induction false} RecycleBatchPlaces(reqs: seq<Request>, m: Memory, heap: set<nat>, done: seq<nat>, batch: seq<nat>)
    requires KnownAll(m.seqs, reqs) && Sorted(reqs, batch)
    ensures RecycledPlaces(reqs, heap, done, batch, RecycleBatch(reqs, m, heap, done, batch))
  {
    if batch != [] {
      RecycleBatchPlaces(reqs, m, heap, done, batch[1..]);
      var x := RecycleBatch(reqs, m, heap, done, batch[1..]);
      if RequestFinished(x.m.seqs, reqs[batch[0]].seqs) {
        HandedOff(reqs, heap, done, batch, x, ReleaseAll(x.m, reqs[batch[0]].seqs));
      } else {
        PutBack(reqs, heap, done, batch, x);
      }
    }
  }
}
