/** Sequences, the block allocator and the block manager as objects
    (src/request/sequence.h, src/memory/block_allocator.h, src/memory/block_manager.cpp). */
module BlockManagement {
  import opened Arith
  import opened Sequences
  import opened BlockMemory
  import opened SchedulerState
  import opened SchedulerMemory

  /** The memory side of Sequence: tokens, blocks and flags. */
  class Sequence {
    const promptLen: nat
    const settings: Settings
    var tokenIds: seq<int>
    var cachePos: nat
    var blocks: seq<int>
    var stopped: bool
    var cancelled: bool
    var reason: FinishReason

    function View(): SeqState
      reads this
    {
      SeqState(tokenIds, promptLen, settings, cachePos, blocks, stopped, cancelled, reason)
    }

    constructor (prompt: seq<int>, settings: Settings)
      ensures View() == NewSequence(prompt, settings)
    {
      this.promptLen, this.settings := |prompt|, settings;
      tokenIds, cachePos, blocks := prompt, 0, [];
      stopped, cancelled, reason := false, false, NoReason;
    }

    method AppendNewTokenId(token: int)
      modifies this
      ensures View() == old(View()).Append(token)
      ensures tokenIds == old(tokenIds) + [token] && cachePos == |old(tokenIds)| && blocks == old(blocks)
    {
      cachePos := |tokenIds|;
      tokenIds := tokenIds + [token];
    }

    method AppendBlocks(ids: seq<int>)
      modifies this
      ensures View() == old(View()).AppendBlocks(ids) && blocks == old(blocks) + ids
    {
      blocks := blocks + ids;
    }

    method ReleaseBlocks() returns (ids: seq<int>)
      modifies this
      ensures ids == old(blocks) && View() == old(View()).Release() && blocks == [] && cachePos == 0
    {
      cachePos := 0;
      ids := blocks;
      blocks := [];
    }

    method SetCancelled()
      modifies this
      ensures View() == old(View()).Cancel()
    {
      cancelled := true;
    }

    method CheckStoppingCriteria() returns (done: bool)
      modifies this
      ensures View() == old(View()).CheckStop() && done == stopped
      ensures !old(stopped) ==> (stopped <==> old(LimitReached(View()) || EndsInEos(View())))
      ensures !old(stopped) && stopped ==> reason == if old(LimitReached(View())) then Length else Stop
    {
      if stopped { return true; }
      if settings.maxTokens > 0 && |tokenIds| - promptLen >= settings.maxTokens {
        reason, stopped := Length, true;
        return true;
      }
      if !settings.ignoreEos && tokenIds != [] && tokenIds[|tokenIds| - 1] == settings.eosTokenId {
        reason, stopped := Stop, true;
        return true;
      }
      return false;
    }
  }

  /** A fixed array used as a stack of free block ids. */
  class BlockAllocator {
    const freeBlocks: array<int>
    var count: nat

    ghost predicate Valid()
      reads this
    {
      count <= freeBlocks.Length
    }

    ghost function Free(): seq<int>
      requires Valid()
      reads this, freeBlocks
    {
      freeBlocks[..count]
    }

    constructor (numBlocks: nat)
      ensures Valid() && fresh(freeBlocks) && freeBlocks.Length == numBlocks && Free() == InitialFree(numBlocks)
    {
      var blocks := new int[numBlocks];
      var i := 0;
      while i < numBlocks
        invariant 0 <= i <= numBlocks
        invariant forall j :: 0 <= j < i ==> blocks[j] == numBlocks - 1 - j
      {
        blocks[i] := numBlocks - i - 1;
        i := i + 1;
      }
      freeBlocks, count := blocks, numBlocks;
      InitialPool(numBlocks);
    }

    method AllocateOne() returns (block: int)
      requires Valid() && count > 0
      modifies this
      ensures Valid() && Free() == old(Free())[..|old(Free())| - 1]
      ensures block == old(Free())[|old(Free())| - 1]
    {
      count := count - 1;
      block := freeBlocks[count];
    }

    method Allocate(n: nat) returns (ids: seq<int>)
      requires Valid() && n <= count
      modifies this
      ensures Valid() && ids == Taken(old(Free()), n) && Free() == old(Free())[..|old(Free())| - n]
    {
      ids := [];
      ghost var free := Free();
      for i := 0 to n
        invariant Valid() && Free() == free[..|free| - i] && ids == Taken(free, i)
      {
        var block := AllocateOne();
        ids := ids + [block];
        assert free[..|free| - i][..|free| - i - 1] == free[..|free| - (i + 1)];
        assert ids == Taken(free, i + 1);
      }
    }

    method FreeOne(block: int)
      requires Valid() && count < freeBlocks.Length
      modifies this, freeBlocks
      ensures Valid() && Free() == old(Free()) + [block]
    {
      freeBlocks[count] := block;
      count := count + 1;
    }

    method FreeAll(ids: seq<int>)
      requires Valid() && count + |ids| <= freeBlocks.Length
      modifies this, freeBlocks
      ensures Valid() && Free() == old(Free()) + ids
    {
      ghost var free := Free();
      for i := 0 to |ids|
        invariant Valid() && count == |free| + i && Free() == free + ids[..i]
      {
        FreeOne(ids[i]);
        assert ids[..i + 1] == ids[..i] + [ids[i]];
      }
      assert ids[..|ids|] == ids;
    }
  }

  // ----- a store of sequences

  ghost predicate Distinct(store: seq<Sequence>) {
    forall i, j :: 0 <= i < j < |store| ==> store[i] != store[j]
  }

  ghost function Views(store: seq<Sequence>): (views: seq<SeqState>)
    reads set s <- store
    ensures |views| == |store|
  {
    seq(|store|, i requires 0 <= i < |store| reads set s <- store => store[i].View())
  }

  // ----- room in the free list

  lemma {:induction false} PoolSize(n: nat)
    ensures |Pool(n)| == n
  {
    if n > 0 { PoolSize(n - 1); }
  }

  lemma SubSize(a: multiset<int>, b: multiset<int>)
    requires a <= b
    ensures |a| <= |b|
  {
    assert b == a + (b - a);
  }

  /** Blocks that a sequence holds are missing from the free list. */
  lemma RoomFor(free: seq<int>, seqs: seq<SeqState>, numBlocks: nat, k: nat)
    requires Conserved(free, seqs, numBlocks) && k < |seqs|
    ensures |free| + |seqs[k].blocks| <= numBlocks
  {
    PoolSize(numBlocks);
    HeldOne(seqs, k);
    SubSize(multiset(seqs[k].blocks), Held(seqs));
    assert |multiset(free) + Held(seqs)| == |multiset(free)| + |Held(seqs)|;
  }

  // ----- all or nothing

  /** The blocks a whole request still needs. */
  function TotalToAllocate(seqs: seq<SeqState>, ids: seq<nat>, blockSize: nat): nat
    requires Known(seqs, ids) && blockSize > 0
  {
    if ids == [] then 0
    else TotalToAllocate(seqs, ids[..|ids| - 1], blockSize) + BlocksToAllocate(seqs[ids[|ids| - 1]], blockSize)
  }

  /** With enough free blocks for the total, every sequence in turn is granted what it needs. */
  lemma {:induction false} TotalSuffices(m: Memory, ids: seq<nat>, blockSize: nat)
    requires Known(m.seqs, ids) && blockSize > 0 && NoDup(ids)
    requires TotalToAllocate(m.seqs, ids, blockSize) <= |m.free|
    ensures var a := AllocateAll(m, ids, blockSize);
            && a.all && |a.m.free| == |m.free| - TotalToAllocate(m.seqs, ids, blockSize)
            && (forall k :: 0 <= k < |m.seqs| && k !in ids ==> a.m.seqs[k] == m.seqs[k])
  {
    if ids != [] {
      var n := |ids| - 1;
      TotalSuffices(m, ids[..n], blockSize);
      assert ids[n] !in ids[..n];
      assert forall k :: k in ids <==> k in ids[..n] || k == ids[n];
    }
  }

  class BlockManager {
    const blockSize: nat
    const allocator: BlockAllocator

    ghost predicate Valid()
      reads this, allocator
    {
      blockSize > 0 && allocator.Valid()
    }

    constructor (numBlocks: nat, blockSize: nat)
      requires blockSize > 0
      ensures Valid() && this.blockSize == blockSize && fresh(allocator) && fresh(allocator.freeBlocks)
      ensures allocator.freeBlocks.Length == numBlocks && allocator.Free() == InitialFree(numBlocks)
    {
      this.blockSize := blockSize;
      allocator := new BlockAllocator(numBlocks);
    }

    ghost function Mem(store: seq<Sequence>): Memory
      requires Valid()
      reads this, allocator, allocator.freeBlocks, set s <- store
    {
      Memory(allocator.Free(), Views(store))
    }

    method AllocateSlotsForSequence(s: Sequence) returns (ok: bool)
      requires Valid()
      modifies s, allocator
      ensures Valid()
      ensures Grant(allocator.Free(), s.View(), ok) == AllocateSeq(old(allocator.Free()), old(s.View()), blockSize)
    {
      var n := BlocksToAllocate(s.View(), blockSize);
      if n == 0 { return true; }
      if n > allocator.count { return false; }
      var ids := allocator.Allocate(n);
      s.AppendBlocks(ids);
      return true;
    }

    method ReleaseSlotsForSequence(s: Sequence)
      requires Valid() && allocator.count + |s.blocks| <= allocator.freeBlocks.Length
      modifies s, allocator, allocator.freeBlocks
      ensures Valid() && allocator.Free() == old(allocator.Free()) + old(s.blocks) && s.View() == old(s.View()).Release()
    {
      var ids := s.ReleaseBlocks();
      allocator.FreeAll(ids);
    }

    /** Sequence k gives its blocks back. */
    method ReleaseOne(store: seq<Sequence>, k: nat)
      requires Valid() && Distinct(store) && k < |store|
      requires Conserved(allocator.Free(), Views(store), allocator.freeBlocks.Length)
      modifies allocator, allocator.freeBlocks, set s <- store
      ensures Valid() && allocator.Free() == old(allocator.Free()) + old(store[k].blocks)
      ensures Views(store) == old(Views(store))[k := old(store[k].View()).Release()]
      ensures Conserved(allocator.Free(), Views(store), allocator.freeBlocks.Length)
    {
      ghost var m := Mem(store);
      RoomFor(m.free, m.seqs, allocator.freeBlocks.Length, k);
      ReleaseSeqSafe(m.free, m.seqs, k, allocator.freeBlocks.Length);
      ReleaseSlotsForSequence(store[k]);
      assert Views(store) == m.seqs[k := m.seqs[k].Release()];
    }

    method ReleaseSlotsForRequest(store: seq<Sequence>, ids: seq<nat>)
      requires Valid() && Distinct(store) && Known(Views(store), ids)
      requires Conserved(allocator.Free(), Views(store), allocator.freeBlocks.Length)
      modifies allocator, allocator.freeBlocks, set s <- store
      ensures Valid() && Mem(store) == ReleaseAll(old(Mem(store)), ids)
      ensures Conserved(allocator.Free(), Views(store), allocator.freeBlocks.Length)
    {
      ghost var m0 := Mem(store);
      for i := 0 to |ids|
        invariant Valid() && Mem(store) == ReleaseAll(m0, ids[..i])
        invariant Conserved(allocator.Free(), Views(store), allocator.freeBlocks.Length)
      {
        ReleaseOne(store, ids[i]);
        assert ids[..i + 1][..i] == ids[..i];
      }
      assert ids[..|ids|] == ids;
    }

    /** Sequence k gets the blocks it lacks. */
    method GrantOne(store: seq<Sequence>, k: nat)
      requires Valid() && Distinct(store) && k < |store|
      requires BlocksToAllocate(store[k].View(), blockSize) <= |allocator.Free()|
      modifies allocator, set s <- store
      ensures Valid()
      ensures var n := BlocksToAllocate(old(store[k].View()), blockSize);
              && allocator.Free() == old(allocator.Free())[..|old(allocator.Free())| - n]
              && Views(store) == old(Views(store))[k := old(store[k].View()).AppendBlocks(Taken(old(allocator.Free()), n))]
    {
      var blocks := allocator.Allocate(BlocksToAllocate(store[k].View(), blockSize));
      store[k].AppendBlocks(blocks);
    }

    /** The second loop of allocate_slots_for_request, once the total is known to fit. */
    method GrantAll(store: seq<Sequence>, ids: seq<nat>)
      requires Valid() && Distinct(store) && Known(Views(store), ids) && NoDup(ids)
      requires TotalToAllocate(Views(store), ids, blockSize) <= |allocator.Free()|
      modifies allocator, set s <- store
      ensures Valid() && Mem(store) == AllocateAll(old(Mem(store)), ids, blockSize).m
    {
      ghost var m0 := Mem(store);
      for i := 0 to |ids|
        invariant Valid() && Mem(store) == AllocateAll(m0, ids[..i], blockSize).m
      {
        GrantNext(m0, ids, i, blockSize);
        GrantOne(store, ids[i]);
      }
      assert ids[..|ids|] == ids;
    }

    /** allocate_slots_for_request: everything the request needs, or nothing at all. */
    method AllocateSlotsForRequest(store: seq<Sequence>, ids: seq<nat>) returns (ok: bool)
      requires Valid() && Distinct(store) && Known(Views(store), ids) && NoDup(ids)
      modifies allocator, set s <- store
      ensures Valid()
      ensures ok <==> TotalToAllocate(old(Views(store)), ids, blockSize) <= |old(allocator.Free())|
      ensures !ok ==> Mem(store) == old(Mem(store))
      ensures ok ==> AllocateAll(old(Mem(store)), ids, blockSize).all
                     && Mem(store) == AllocateAll(old(Mem(store)), ids, blockSize).m
    {
      var total := 0;
      for i := 0 to |ids|
        invariant total == TotalToAllocate(Views(store), ids[..i], blockSize)
      {
        total := total + BlocksToAllocate(store[ids[i]].View(), blockSize);
        assert ids[..i + 1][..i] == ids[..i];
      }
      assert ids[..|ids|] == ids;
      if total > allocator.count { return false; }
      TotalSuffices(Mem(store), ids, blockSize);
      GrantAll(store, ids);
      return true;
    }
  }

  lemma {:induction false} TotalPrefix(seqs: seq<SeqState>, ids: seq<nat>, i: nat, blockSize: nat)
    requires Known(seqs, ids) && blockSize > 0 && i <= |ids|
    ensures TotalToAllocate(seqs, ids[..i], blockSize) <= TotalToAllocate(seqs, ids, blockSize)
  {
    if i < |ids| {
      TotalPrefix(seqs, ids[..|ids| - 1], i, blockSize);
      assert ids[..|ids| - 1][..i] == ids[..i];
    } else {
      assert ids[..i] == ids;
    }
  }

  /** Allocating for one more sequence that fits is popping its blocks, also when it needs none. */
  lemma AllocateIsTake(free: seq<int>, t: SeqState, blockSize: nat)
    requires blockSize > 0 && BlocksToAllocate(t, blockSize) <= |free|
    ensures var n := BlocksToAllocate(t, blockSize);
            AllocateSeq(free, t, blockSize) == Grant(free[..|free| - n], t.AppendBlocks(Taken(free, n)), true)
  {
    if BlocksToAllocate(t, blockSize) == 0 {
      assert Taken(free, 0) == [];
      assert free[..|free|] == free && t.blocks + [] == t.blocks;
    }
  }

  lemma SkipFinished(m: Memory, ids: seq<nat>, i: nat, blockSize: nat)
    requires Known(m.seqs, ids) && blockSize > 0 && i < |ids|
    requires var p := AllocateAll(m, ids[..i], blockSize).m; BlocksToAllocate(p.seqs[ids[i]], blockSize) <= |p.free|
    ensures var p := AllocateAll(m, ids[..i], blockSize).m;
            var g := AllocateSeq(p.free, p.seqs[ids[i]], blockSize);
            AllocateAll(m, ids[..i + 1], blockSize).m == Memory(g.free, p.seqs[ids[i] := g.s])
  {
    assert ids[..i + 1][..i] == ids[..i];
    var p := AllocateAll(m, ids[..i], blockSize).m;
    assert p.seqs[ids[i] := p.seqs[ids[i]]] == p.seqs;
  }

  /** One more sequence of a request whose total fits. */
  lemma GrantNext(m: Memory, ids: seq<nat>, i: nat, blockSize: nat)
    requires Known(m.seqs, ids) && blockSize > 0 && NoDup(ids) && i < |ids|
    requires TotalToAllocate(m.seqs, ids, blockSize) <= |m.free|
    ensures var p := AllocateAll(m, ids[..i], blockSize).m;
            var n := BlocksToAllocate(p.seqs[ids[i]], blockSize);
            && n <= |p.free|
            && AllocateAll(m, ids[..i + 1], blockSize).m
            == Memory(p.free[..|p.free| - n], p.seqs[ids[i] := p.seqs[ids[i]].AppendBlocks(Taken(p.free, n))])
  {
    RoomLeft(m, ids, i, blockSize);
    SkipFinished(m, ids, i, blockSize);
    var p := AllocateAll(m, ids[..i], blockSize).m;
    AllocateIsTake(p.free, p.seqs[ids[i]], blockSize);
  }

  lemma RoomLeft(m: Memory, ids: seq<nat>, i: nat, blockSize: nat)
    requires Known(m.seqs, ids) && blockSize > 0 && NoDup(ids) && i < |ids|
    requires TotalToAllocate(m.seqs, ids, blockSize) <= |m.free|
    ensures var p := AllocateAll(m, ids[..i], blockSize).m; BlocksToAllocate(p.seqs[ids[i]], blockSize) <= |p.free|
  {
    TotalPrefix(m.seqs, ids, i + 1, blockSize);
    TotalPrefix(m.seqs, ids, i, blockSize);
    assert ids[..i + 1][..i] == ids[..i];
    TotalSuffices(m, ids[..i], blockSize);
    assert AllocateAll(m, ids[..i], blockSize).m.seqs[ids[i]] == m.seqs[ids[i]];
  }
}
