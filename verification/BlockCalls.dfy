/** Any sequence of calls to the block manager, in any order, granted or refused (src/memory/block_manager.cpp). */
module BlockCalls {
  import opened Arith
  import opened Sequences
  import opened BlockMemory
  import opened SchedulerState
  import opened SchedulerMemory
  import opened BlockManagement

  /** The four calls, and anything that happens to a sequence in between and leaves its blocks alone. */
  datatype Call =
    | AllocateSequence(k: nat)
    | AllocateRequest(ids: seq<nat>)
    | ReleaseSequence(k: nat)
    | ReleaseRequest(ids: seq<nat>)
    | Change(k: nat, s: SeqState)

  predicate Sensible(m: Memory, c: Call) {
    match c
    case AllocateSequence(k) => k < |m.seqs|
    case AllocateRequest(ids) => Known(m.seqs, ids) && NoDup(ids)
    case ReleaseSequence(k) => k < |m.seqs|
    case ReleaseRequest(ids) => Known(m.seqs, ids)
    case Change(k, s) => k < |m.seqs| && s.blocks == m.seqs[k].blocks
  }

  function Apply(m: Memory, c: Call, blockSize: nat): Memory
    requires blockSize > 0 && Sensible(m, c)
  {
    match c
    case AllocateSequence(k) =>
      var g := AllocateSeq(m.free, m.seqs[k], blockSize);
      Memory(g.free, m.seqs[k := g.s])
    case AllocateRequest(ids) =>
      if TotalToAllocate(m.seqs, ids, blockSize) <= |m.free| then AllocateAll(m, ids, blockSize).m else m
    case ReleaseSequence(k) => ReleaseAll(m, [k])
    case ReleaseRequest(ids) => ReleaseAll(m, ids)
    case Change(k, s) => m.(seqs := m.seqs[k := s])
  }

  predicate AllSensible(m: Memory, calls: seq<Call>, blockSize: nat)
    requires blockSize > 0
    decreases |calls|
  {
    calls == [] || (Sensible(m, calls[0]) && AllSensible(Apply(m, calls[0], blockSize), calls[1..], blockSize))
  }

  function ApplyAll(m: Memory, calls: seq<Call>, blockSize: nat): Memory
    requires blockSize > 0 && AllSensible(m, calls, blockSize)
    decreases |calls|
  {
    if calls == [] then m else ApplyAll(Apply(m, calls[0], blockSize), calls[1..], blockSize)
  }

  lemma {:induction false} GrantsConserve(m: Memory, ids: seq<nat>, blockSize: nat, numBlocks: nat)
    requires blockSize > 0 && Known(m.seqs, ids) && Conserved(m.free, m.seqs, numBlocks)
    ensures var m' := AllocateAll(m, ids, blockSize).m; Conserved(m'.free, m'.seqs, numBlocks)
  {
    if ids != [] {
      var n := |ids| - 1;
      GrantsConserve(m, ids[..n], blockSize, numBlocks);
      var p := AllocateAll(m, ids[..n], blockSize).m;
      GrantConserves(p.free, p.seqs, ids[n], blockSize, numBlocks);
    }
  }

  lemma CallConserves(m: Memory, c: Call, blockSize: nat, numBlocks: nat)
    requires blockSize > 0 && Sensible(m, c) && Conserved(m.free, m.seqs, numBlocks)
    ensures Conserved(Apply(m, c, blockSize).free, Apply(m, c, blockSize).seqs, numBlocks)
  {
    match c
    case AllocateSequence(k) => GrantConserves(m.free, m.seqs, k, blockSize, numBlocks);
    case AllocateRequest(ids) => GrantsConserve(m, ids, blockSize, numBlocks);
    case ReleaseSequence(k) => ReleasesConserve(m, [k], numBlocks);
    case ReleaseRequest(ids) => ReleasesConserve(m, ids, numBlocks);
    case Change(k, s) => HeldSame(m.seqs, m.seqs[k := s]);
  }

  lemma {:induction false} CallsConserve(m: Memory, calls: seq<Call>, blockSize: nat, numBlocks: nat)
    requires blockSize > 0 && AllSensible(m, calls, blockSize) && Conserved(m.free, m.seqs, numBlocks)
    ensures var m' := ApplyAll(m, calls, blockSize); Conserved(m'.free, m'.seqs, numBlocks)
    decreases |calls|
  {
    if calls != [] {
      CallConserves(m, calls[0], blockSize, numBlocks);
      CallsConserve(Apply(m, calls[0], blockSize), calls[1..], blockSize, numBlocks);
    }
  }

  lemma {:induction false} NothingHeld(seqs: seq<SeqState>)
    requires forall k :: 0 <= k < |seqs| ==> seqs[k].blocks == []
    ensures Held(seqs) == multiset{}
  {
    if seqs != [] { NothingHeld(seqs[..|seqs| - 1]); }
  }

  /** After any calls on fresh sequences, the free list and the blocks of the sequences are together every block id once:
      none is lost, shared by two sequences, listed twice or invented. */
  lemma AnyCallsConserveBlocks(seqs: seq<SeqState>, calls: seq<Call>, blockSize: nat, numBlocks: nat, j: nat, k: nat)
    requires blockSize > 0 && forall i :: 0 <= i < |seqs| ==> seqs[i].blocks == []
    requires AllSensible(Memory(InitialFree(numBlocks), seqs), calls, blockSize)
    ensures var m := ApplyAll(Memory(InitialFree(numBlocks), seqs), calls, blockSize);
            && multiset(m.free) + Held(m.seqs) == Pool(numBlocks)
            && (j < k < |m.seqs| ==> forall x, y :: 0 <= x < |m.seqs[j].blocks| && 0 <= y < |m.seqs[k].blocks| ==>
                  m.seqs[j].blocks[x] != m.seqs[k].blocks[y])
  {
    var m0 := Memory(InitialFree(numBlocks), seqs);
    InitialPool(numBlocks);
    NothingHeld(seqs);
    CallsConserve(m0, calls, blockSize, numBlocks);
    var m := ApplyAll(m0, calls, blockSize);
    if j < k < |m.seqs| { BlocksApart(m.free, m.seqs, numBlocks, j, k); }
  }
}
