/** Flattening a mixed batch of prefill and decode sequences into the model's inputs
    (src/engine/utils.cpp). */
module BatchInputs {
  import opened Arith
  import opened Sequences

  // ----- cache_slots and last_slot_id

  /** The inner loop of cache_slots, from offset i: stop as soon as n slots are collected. */
  function FillBlock(slots: seq<int>, block: int, blockSize: nat, n: nat, i: nat): seq<int>
    decreases blockSize - i
  {
    if i >= blockSize then slots
    else
      var slots' := slots + [block * blockSize + i];
      if |slots'| == n then slots' else FillBlock(slots', block, blockSize, n, i + 1)
  }

  /** The outer loop: the early exit above does not leave it. */
  function CacheSlots(blocks: seq<int>, blockSize: nat, n: nat): seq<int> {
    if blocks == [] then []
    else FillBlock(CacheSlots(blocks[..|blocks| - 1], blockSize, n), blocks[|blocks| - 1], blockSize, n, 0)
  }

  /** The slots of positions 0 .. n - 1, by block-table lookup. */
  function TableSlots(blocks: seq<int>, blockSize: nat, n: nat): (slots: seq<int>)
    requires blockSize > 0 && n <= |blocks| * blockSize
  {
    seq(n, p requires 0 <= p < n => BlockIndexBound(p, blockSize, |blocks|); Slot(blocks, blockSize, p))
  }

  function LastSlotId(s: SeqState, blockSize: nat): int
    requires blockSize > 0 && s.tokens != [] && s.blocks != []
  {
    s.blocks[|s.blocks| - 1] * blockSize + (|s.tokens| - 1) % blockSize
  }

  function Run(block: int, blockSize: nat, i: nat, m: nat): seq<int> {
    seq(m, o => block * blockSize + i + o)
  }

  lemma {:induction false} FillBlockIs(slots: seq<int>, block: int, blockSize: nat, n: nat, i: nat)
    requires i <= blockSize
    ensures var m := if |slots| < n <= |slots| + blockSize - i then n - |slots| else blockSize - i;
            FillBlock(slots, block, blockSize, n, i) == slots + Run(block, blockSize, i, m)
    decreases blockSize - i
  {
    if i < blockSize {
      var slots' := slots + [block * blockSize + i];
      if |slots'| != n {
        FillBlockIs(slots', block, blockSize, n, i + 1);
      }
    }
  }

  /** Lookup in a table and in the table without its last block. */
  lemma TableSlotsSplit(blocks: seq<int>, blockSize: nat, full: nat, m: nat)
    requires blockSize > 0 && blocks != [] && full == (|blocks| - 1) * blockSize
    requires full <= m <= full + blockSize && m <= |blocks| * blockSize
    ensures TableSlots(blocks, blockSize, m)
         == TableSlots(blocks[..|blocks| - 1], blockSize, full) + Run(blocks[|blocks| - 1], blockSize, 0, m - full)
  {
    var k := |blocks| - 1;
    var rest, run := blocks[..k], Run(blocks[k], blockSize, 0, m - full);
    forall p | 0 <= p < m
      ensures TableSlots(blocks, blockSize, m)[p] == (TableSlots(rest, blockSize, full) + run)[p]
    {
      if p < full {
        BlockIndexBound(p, blockSize, k);
      } else {
        DivModUnique(p, blockSize, k, p - full);
      }
    }
  }

  /** With at most the blocks that n tokens need, the slots collected are the first
      min(n, |blocks| * blockSize) positions, in order. */
  lemma {:induction false} CacheSlotsPrefix(blocks: seq<int>, blockSize: nat, n: nat)
    requires blockSize > 0 && |blocks| <= CeilDiv(n, blockSize)
    ensures var m := if n <= |blocks| * blockSize then n else |blocks| * blockSize;
            CacheSlots(blocks, blockSize, n) == TableSlots(blocks, blockSize, m)
  {
    if blocks == [] {
      assert n <= 0 * blockSize ==> n == 0;
    } else {
      var k := |blocks| - 1;
      var full := k * blockSize;
      CacheSlotsPrefix(blocks[..k], blockSize, n);
      assert |blocks| * blockSize == full + blockSize;
      CeilDivBounds(n, blockSize);
      MulMonotone(|blocks|, CeilDiv(n, blockSize), blockSize);
      assert full < n;
      FillBlockIs(CacheSlots(blocks[..k], blockSize, n), blocks[k], blockSize, n, 0);
      TableSlotsSplit(blocks, blockSize, full, if n <= full + blockSize then n else full + blockSize);
    }
  }

  lemma {:induction false} CacheSlotsExcess(blocks: seq<int>, blockSize: nat, n: nat)
    requires blockSize > 0 && |blocks| > CeilDiv(n, blockSize)
    ensures |CacheSlots(blocks, blockSize, n)| > n
  {
    var k := |blocks| - 1;
    var rest := blocks[..k];
    CeilDivBounds(n, blockSize);
    if k == CeilDiv(n, blockSize) {
      CacheSlotsPrefix(rest, blockSize, n);
    } else {
      CacheSlotsExcess(rest, blockSize, n);
    }
    FillBlockIs(CacheSlots(rest, blockSize, n), blocks[k], blockSize, n, 0);
  }

  /** cache_slots yields one slot per token exactly when the sequence holds exactly the blocks it
      needs; in that case the slots are the block-table lookups in order. */
  lemma CacheSlotsExact(blocks: seq<int>, blockSize: nat, n: nat)
    requires blockSize > 0
    ensures |CacheSlots(blocks, blockSize, n)| == n <==> |blocks| == CeilDiv(n, blockSize)
    ensures |blocks| == CeilDiv(n, blockSize) ==>
              n <= |blocks| * blockSize && CacheSlots(blocks, blockSize, n) == TableSlots(blocks, blockSize, n)
  {
    CeilDivBounds(n, blockSize);
    if |blocks| <= CeilDiv(n, blockSize) {
      CacheSlotsPrefix(blocks, blockSize, n);
      if |blocks| * blockSize >= n {
        CeilDivMonotone(n, |blocks| * blockSize, blockSize);
        CeilDivUnique(|blocks| * blockSize, blockSize, |blocks|);
      }
    } else {
      CacheSlotsExcess(blocks, blockSize, n);
    }
  }

  lemma LastBlock(n: nat, q: nat, blockSize: nat)
    requires blockSize > 0 && n > 0 && q == CeilDiv(n, blockSize)
    ensures q > 0 && (n - 1) / blockSize == q - 1
  {
    CeilDivBounds(n, blockSize);
    assert q * blockSize == (q - 1) * blockSize + blockSize;
    DivModUnique(n - 1, blockSize, q - 1, n - 1 - (q - 1) * blockSize);
  }

  /** last_slot_id is the lookup at the last position, which is also the last element of cache_slots. */
  lemma LastSlotIsLookup(s: SeqState, blockSize: nat)
    requires blockSize > 0 && s.tokens != [] && |s.blocks| == s.BlocksNeeded(blockSize)
    ensures s.blocks != [] && (|s.tokens| - 1) / blockSize == |s.blocks| - 1
    ensures LastSlotId(s, blockSize) == Slot(s.blocks, blockSize, |s.tokens| - 1)
    ensures var slots := CacheSlots(s.blocks, blockSize, |s.tokens|);
            slots != [] && slots[|slots| - 1] == LastSlotId(s, blockSize)
  {
    var n, k := |s.tokens|, |s.blocks| - 1;
    LastBlock(n, |s.blocks|, blockSize);
    CacheSlotsExact(s.blocks, blockSize, n);
  }

  /** cache_slots as the source computes it, with its two loops. */
  method ComputeCacheSlots(blocks: seq<int>, blockSize: nat, n: nat) returns (slots: seq<int>)
    requires blockSize > 0
    ensures slots == CacheSlots(blocks, blockSize, n)
    ensures |slots| == n <==> |blocks| == CeilDiv(n, blockSize)
  {
    slots := [];
    for k := 0 to |blocks|
      invariant slots == CacheSlots(blocks[..k], blockSize, n)
    {
      assert blocks[..k + 1][..k] == blocks[..k];
      var i := 0;
      while i < blockSize
        invariant 0 <= i <= blockSize
        invariant FillBlock(slots, blocks[k], blockSize, n, i) == CacheSlots(blocks[..k + 1], blockSize, n)
      {
        slots := slots + [blocks[k] * blockSize + i];
        if |slots| == n { break; }
        i := i + 1;
      }
    }
    assert blocks[..|blocks|] == blocks;
    CacheSlotsExact(blocks, blockSize, n);
  }

  // ----- the flat batch

  datatype Flat = Flat(
    tokens: seq<int>,
    positions: seq<int>,
    slots: seq<int>,
    cu: seq<int>,
    sampleIdx: seq<int>,
    seqIndices: seq<int>,
    rows: seq<seq<int>>,
    params: seq<int>,
    contextLens: seq<int>,
    tables: seq<seq<int>>,
    promptTokens: nat,
    maxTokens: nat,
    maxSeqLen: nat,
    maxContextLen: nat,
    maxTableLen: nat)

  function Max(a: nat, b: nat): nat { if a < b then b else a }

  function Iota(n: nat): seq<int> { seq(n, i => i) }

  function EmptyFlat(n: nat): Flat {
    Flat([], [], [], [0], [], seq(n, _ => 0), [], [], [], [], 0, 0, 0, 0, 0)
  }

  /** One round of the prefill loop. */
  function AddPrefill(x: Flat, s: SeqState, i: nat, blockSize: nat): Flat
    requires i < |x.seqIndices|
  {
    var n := |s.tokens|;
    x.(tokens := x.tokens + s.tokens,
       positions := x.positions + Iota(n),
       slots := x.slots + CacheSlots(s.blocks, blockSize, n),
       promptTokens := x.promptTokens + n,
       cu := x.cu + [x.promptTokens + n],
       sampleIdx := x.sampleIdx + [|x.tokens| + n - 1],
       seqIndices := x.seqIndices[i := |x.rows|],
       rows := x.rows + [s.tokens],
       params := x.params + [s.settings.sampling],
       maxTokens := Max(x.maxTokens, n),
       maxSeqLen := Max(x.maxSeqLen, n))
  }

  /** One round of the decode loop. */
  function AddDecode(x: Flat, s: SeqState, i: nat, blockSize: nat): Flat
    requires i < |x.seqIndices| && blockSize > 0 && s.tokens != [] && s.blocks != []
  {
    var n := |s.tokens|;
    x.(tokens := x.tokens + [s.tokens[n - 1]],
       positions := x.positions + [n - 1],
       slots := x.slots + [LastSlotId(s, blockSize)],
       sampleIdx := x.sampleIdx + [|x.tokens|],
       seqIndices := x.seqIndices[i := |x.rows|],
       rows := x.rows + [s.tokens],
       params := x.params + [s.settings.sampling],
       contextLens := x.contextLens + [n],
       tables := x.tables + [s.blocks],
       maxTokens := Max(x.maxTokens, n),
       maxContextLen := Max(x.maxContextLen, n),
       maxTableLen := Max(x.maxTableLen, |s.blocks|))
  }

  /** The GCHECKs of prepare_inputs, together with a non-empty token list. */
  predicate Runnable(s: SeqState, blockSize: nat) {
    s.tokens != [] && !s.Finished() && |s.tokens| <= |s.blocks| * blockSize
  }

  predicate RunnableBatch(batch: seq<SeqState>, blockSize: nat) {
    forall s <- batch :: Runnable(s, blockSize)
  }

  /** The flat batch after the prefill loop has visited the first k sequences. */
  function PrefillPass(batch: seq<SeqState>, blockSize: nat, k: nat): (x: Flat)
    requires k <= |batch|
    ensures |x.seqIndices| == |batch|
  {
    if k == 0 then EmptyFlat(|batch|)
    else
      var x := PrefillPass(batch, blockSize, k - 1);
      if batch[k - 1].Prefill() then AddPrefill(x, batch[k - 1], k - 1, blockSize) else x
  }

  /** ... and after the decode loop has visited the first k. */
  function DecodePass(batch: seq<SeqState>, blockSize: nat, k: nat): (x: Flat)
    requires k <= |batch| && blockSize > 0 && RunnableBatch(batch, blockSize)
    ensures |x.seqIndices| == |batch|
  {
    if k == 0 then PrefillPass(batch, blockSize, |batch|)
    else
      var x := DecodePass(batch, blockSize, k - 1);
      var s := batch[k - 1];
      assert s in batch && Runnable(s, blockSize);
      if s.Prefill() then x else AddDecode(x, s, k - 1, blockSize)
  }

  function Flatten(batch: seq<SeqState>, blockSize: nat): Flat
    requires blockSize > 0 && RunnableBatch(batch, blockSize)
  {
    DecodePass(batch, blockSize, |batch|)
  }

  /** prepare_inputs as the source computes it: two loops, the first with an inner loop over tokens. */
  method PrepareInputs(batch: seq<SeqState>, blockSize: nat) returns (x: Flat)
    requires blockSize > 0 && RunnableBatch(batch, blockSize)
    ensures x == Flatten(batch, blockSize)
  {
    x := EmptyFlat(|batch|);
    for i := 0 to |batch|
      invariant x == PrefillPass(batch, blockSize, i)
    {
      var s := batch[i];
      if s.Prefill() {
        ghost var before := x;
        x := x.(seqIndices := x.seqIndices[i := |x.rows|]);
        var n := |s.tokens|;
        x := x.(maxTokens := Max(x.maxTokens, n), rows := x.rows + [s.tokens]);
        for p := 0 to n
          invariant x == before.(seqIndices := before.seqIndices[i := |before.rows|],
                                 maxTokens := Max(before.maxTokens, n), rows := before.rows + [s.tokens],
                                 tokens := before.tokens + s.tokens[..p], positions := before.positions + Iota(p))
        {
          x := x.(tokens := x.tokens + [s.tokens[p]], positions := x.positions + [p]);
          assert x.tokens == before.tokens + s.tokens[..p + 1];
          assert x.positions == before.positions + Iota(p + 1);
        }
        assert s.tokens[..n] == s.tokens;
        x := x.(promptTokens := x.promptTokens + n, maxSeqLen := Max(x.maxSeqLen, n));
        x := x.(cu := x.cu + [x.promptTokens], params := x.params + [s.settings.sampling],
                sampleIdx := x.sampleIdx + [|x.tokens| - 1]);
        var slots := ComputeCacheSlots(s.blocks, blockSize, n);
        x := x.(slots := x.slots + slots);
        assert x == AddPrefill(before, s, i, blockSize);
      }
    }
    for i := 0 to |batch|
      invariant x == DecodePass(batch, blockSize, i)
    {
      var s := batch[i];
      assert s in batch && Runnable(s, blockSize);
      if !s.Prefill() {
        x := AddDecode(x, s, i, blockSize);
      }
    }
  }
}
