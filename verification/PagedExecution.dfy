/** One forward pass over a flat batch and a paged cache, compared with each sequence's own
    contiguous cache (src/layers/attention.cpp, src/memory/kv_cache.cpp). */
module PagedExecution {
  import opened Arith
  import opened Sequences
  import opened BatchInputs
  import opened BatchFaithful

  /** Keys and values of one position, for all layers: [heads][head size]. */
  datatype KV = KV(key: seq<seq<real>>, value: seq<seq<real>>)

  /** The network, as far as the cache can see it: the K/V of a token is a function of the token, its
      position and the K/V of the positions before it. */
  type Network = (int, int, seq<KV>) -> KV

  /** The cache a sequence would build if it were alone: one entry per token. */
  function PrivateKV(f: Network, tokens: seq<int>): (kvs: seq<KV>)
    ensures |kvs| == |tokens|
  {
    if tokens == [] then []
    else
      var n := |tokens| - 1;
      var before := PrivateKV(f, tokens[..n]);
      before + [f(tokens[n], n, before)]
  }

  lemma {:induction false} PrivatePrefix(f: Network, tokens: seq<int>, p: nat)
    requires p <= |tokens|
    ensures PrivateKV(f, tokens)[..p] == PrivateKV(f, tokens[..p])
  {
    var n := |tokens| - 1;
    if p == |tokens| {
      assert tokens[..p] == tokens;
    } else {
      PrivatePrefix(f, tokens[..n], p);
      assert tokens[..n][..p] == tokens[..p];
    }
  }

  // ----- reading and writing the paged cache

  predicate SlotInRange(size: nat, blockSize: nat, table: seq<int>, p: nat)
    requires blockSize > 0
  {
    p / blockSize < |table| && 0 <= Slot(table, blockSize, p) < size
  }

  predicate Readable(cache: seq<KV>, blockSize: nat, table: seq<int>, n: int) {
    && blockSize > 0 && 0 <= n <= |table| * blockSize
    && (forall p :: 0 <= p < n ==> SlotInRange(|cache|, blockSize, table, p))
  }

  /** get_kv_cache by block table and context length. */
  function ReadTable(cache: seq<KV>, blockSize: nat, table: seq<int>, n: nat): seq<KV>
    requires Readable(cache, blockSize, table, n)
  {
    seq(n, p requires 0 <= p < n => assert SlotInRange(|cache|, blockSize, table, p); cache[Slot(table, blockSize, p)])
  }

  /** set_kv_cache: slot by slot. */
  function WriteAll(cache: seq<KV>, slots: seq<int>, kvs: seq<KV>): (cache': seq<KV>)
    requires |slots| == |kvs| && forall i :: 0 <= i < |slots| ==> 0 <= slots[i] < |cache|
    ensures |cache'| == |cache|
  {
    if slots == [] then cache
    else
      var n := |slots| - 1;
      WriteAll(cache, slots[..n], kvs[..n])[slots[n] := kvs[n]]
  }

  lemma {:induction false} WriteAllAt(cache: seq<KV>, slots: seq<int>, kvs: seq<KV>, r: nat)
    requires |slots| == |kvs| && forall i :: 0 <= i < |slots| ==> 0 <= slots[i] < |cache|
    requires r < |slots| && forall i :: r < i < |slots| ==> slots[i] != slots[r]
    ensures WriteAll(cache, slots, kvs)[slots[r]] == kvs[r]
  {
    var n := |slots| - 1;
    if r < n { WriteAllAt(cache, slots[..n], kvs[..n], r); }
  }

  lemma {:induction false} WriteAllElsewhere(cache: seq<KV>, slots: seq<int>, kvs: seq<KV>, a: nat)
    requires |slots| == |kvs| && forall i :: 0 <= i < |slots| ==> 0 <= slots[i] < |cache|
    requires a < |cache| && forall i :: 0 <= i < |slots| ==> slots[i] != a
    ensures WriteAll(cache, slots, kvs)[a] == cache[a]
  {
    if slots != [] {
      var n := |slots| - 1;
      WriteAllElsewhere(cache, slots[..n], kvs[..n], a);
    }
  }

  // ----- the forward pass, on the flat inputs alone

  function PadTable(table: seq<int>, len: nat): (padded: seq<int>)
    ensures |padded| == len
    ensures forall i :: 0 <= i < len ==> padded[i] == if i < |table| then table[i] else 0
  {
    if |table| <= len then table + seq(len - |table|, _ => 0) else table[..len]
  }

  /** Everything the pass indexes is in range. */
  predicate Executable(x: Flat, cache: seq<KV>, blockSize: nat) {
    && Lined(x)
    && (forall r :: 0 <= r < |x.slots| ==> 0 <= x.slots[r] < |cache|)
    && (forall d :: 0 <= d < |x.tables| ==>
          x.contextLens[d] > 0 && Readable(cache, blockSize, PadTable(x.tables[d], x.maxTableLen), x.contextLens[d]))
  }

  /** Prefill: each slice between two prefix sums is processed on its own. */
  function SegmentKVs(f: Network, x: Flat, m: nat): (kvs: seq<KV>)
    requires Lined(x) && m < |x.cu|
    ensures |kvs| == x.cu[m]
  {
    if m == 0 then []
    else SegmentKVs(f, x, m - 1) + PrivateKV(f, x.tokens[x.cu[m - 1]..x.cu[m]])
  }

  /** Decode: one token, with everything before it read through the block table. */
  function DecodeKV(f: Network, x: Flat, cache: seq<KV>, blockSize: nat, d: nat): KV
    requires Executable(x, cache, blockSize) && d < |x.tables|
  {
    var r := x.promptTokens + d;
    f(x.tokens[r], x.positions[r],
      ReadTable(cache, blockSize, PadTable(x.tables[d], x.maxTableLen), x.contextLens[d])[..x.contextLens[d] - 1])
  }

  function RowKVs(f: Network, x: Flat, cache: seq<KV>, blockSize: nat): (kvs: seq<KV>)
    requires Executable(x, cache, blockSize)
    ensures |kvs| == |x.slots|
  {
    SegmentKVs(f, x, |x.cu| - 1)
    + seq(|x.tables|, d requires 0 <= d < |x.tables| => DecodeKV(f, x, cache, blockSize, d))
  }

  function Forward(f: Network, x: Flat, cache: seq<KV>, blockSize: nat): (cache': seq<KV>)
    requires Executable(x, cache, blockSize)
    ensures |cache'| == |cache|
  {
    WriteAll(cache, x.slots, RowKVs(f, x, cache, blockSize))
  }

  /** What the attention of row j sees at its last position, and hence what its sample depends on. */
  function Context(f: Network, x: Flat, cache': seq<KV>, blockSize: nat, j: nat): seq<KV>
    requires Executable(x, cache', blockSize) && j < |x.rows|
  {
    if j < |x.cu| - 1 then PrivateKV(f, x.tokens[x.cu[j]..x.cu[j + 1]])
    else
      var d := j - (|x.cu| - 1);
      ReadTable(cache', blockSize, PadTable(x.tables[d], x.maxTableLen), x.contextLens[d])
  }

  // ----- slots never collide

  /** No two sequences of the batch share a block, no sequence holds a block twice. */
  predicate Separated(batch: seq<SeqState>, numBlocks: nat) {
    && (forall i, x :: 0 <= i < |batch| && 0 <= x < |batch[i].blocks| ==> 0 <= batch[i].blocks[x] < numBlocks)
    && (forall i, x, y :: 0 <= i < |batch| && 0 <= x < y < |batch[i].blocks| ==>
          batch[i].blocks[x] != batch[i].blocks[y])
    && (forall i, j, x, y :: 0 <= i < j < |batch| && 0 <= x < |batch[i].blocks| && 0 <= y < |batch[j].blocks| ==>
          batch[i].blocks[x] != batch[j].blocks[y])
  }

  /** A slot names its block and its offset. */
  lemma SlotParts(blocks: seq<int>, blockSize: nat, p: nat)
    requires blockSize > 0 && p / blockSize < |blocks|
    ensures Slot(blocks, blockSize, p) / blockSize == blocks[p / blockSize]
    ensures Slot(blocks, blockSize, p) % blockSize == p % blockSize
  {
    DivModUnique(Slot(blocks, blockSize, p), blockSize, blocks[p / blockSize], p % blockSize);
  }

  lemma SlotInjective(blocks: seq<int>, blockSize: nat, p: nat, q: nat)
    requires blockSize > 0 && p / blockSize < |blocks| && q / blockSize < |blocks|
    requires forall x, y :: 0 <= x < y < |blocks| ==> blocks[x] != blocks[y]
    requires Slot(blocks, blockSize, p) == Slot(blocks, blockSize, q)
    ensures p == q
  {
    SlotParts(blocks, blockSize, p);
    SlotParts(blocks, blockSize, q);
    assert p == (p / blockSize) * blockSize + p % blockSize;
    assert q == (q / blockSize) * blockSize + q % blockSize;
  }

  lemma {:induction false} FindSegment(x: Flat, r: nat, m: nat) returns (j: nat)
    requires Lined(x) && m < |x.cu| && r < x.cu[m]
    ensures j < m && x.cu[j] <= r < x.cu[j + 1]
  {
    if x.cu[m - 1] <= r { j := m - 1; } else { j := FindSegment(x, r, m - 1); }
  }

  /** Every flat entry writes to the slot of one position of one sequence of the batch. */
  lemma SlotOwner(x: Flat, batch: seq<SeqState>, blockSize: nat, r: nat) returns (i: nat, p: nat)
    requires blockSize > 0 && GrantedBatch(batch, blockSize) && Holds(x, batch, Order(batch), blockSize)
    requires r < |x.slots| && |x.rows| == |batch|
    ensures i < |batch| && p < |batch[i].tokens|
    ensures p / blockSize < |batch[i].blocks| && x.slots[r] == Slot(batch[i].blocks, blockSize, p)
    ensures 0 <= x.seqIndices[i] < |x.rows|
    ensures !batch[i].Prefill() ==> p == |batch[i].tokens| - 1 && r == x.promptTokens + (x.seqIndices[i] - (|x.cu| - 1))
    ensures batch[i].Prefill() ==> x.seqIndices[i] < |x.cu| - 1 && r == x.cu[x.seqIndices[i]] + p
  {
    var order := Order(batch);
    var j: nat;
    if r < x.promptTokens {
      j := FindSegment(x, r, |x.cu| - 1);
    } else {
      j := |x.cu| - 1 + (r - x.promptTokens);
    }
    i := order[j];
    var s := batch[i];
    assert x.seqIndices[order[j]] == j && Row(x, s, j, blockSize);
    CeilDivBounds(|s.tokens|, blockSize);
    if s.Prefill() {
      p := r - x.cu[j];
      BlockIndexBound(p, blockSize, |s.blocks|);
      assert x.slots[x.cu[j]..x.cu[j + 1]][p] == x.slots[r];
    } else {
      p := |s.tokens| - 1;
      LastSlotIsLookup(s, blockSize);
    }
  }

  /** In a separated batch a slot names its sequence and its position. */
  lemma SlotNames(batch: seq<SeqState>, blockSize: nat, numBlocks: nat, i: nat, p: nat, i': nat, p': nat)
    requires blockSize > 0 && Separated(batch, numBlocks) && i < |batch| && i' < |batch|
    requires p / blockSize < |batch[i].blocks| && p' / blockSize < |batch[i'].blocks|
    ensures 0 <= Slot(batch[i].blocks, blockSize, p) < numBlocks * blockSize
    ensures Slot(batch[i].blocks, blockSize, p) == Slot(batch[i'].blocks, blockSize, p') ==> i == i' && p == p'
  {
    var a, b := batch[i].blocks, batch[i'].blocks;
    SlotParts(a, blockSize, p);
    SlotParts(b, blockSize, p');
    SlotBound(a[p / blockSize], blockSize, numBlocks, p % blockSize);
    if Slot(a, blockSize, p) == Slot(b, blockSize, p') {
      assert a[p / blockSize] == b[p' / blockSize];
      assert i == i';
      SlotInjective(a, blockSize, p, p');
    }
  }

  /** All slots of a flat batch are in range and pairwise distinct. */
  lemma SlotsDistinct(x: Flat, batch: seq<SeqState>, blockSize: nat, numBlocks: nat)
    requires blockSize > 0 && GrantedBatch(batch, blockSize) && Holds(x, batch, Order(batch), blockSize)
    requires |x.rows| == |batch| && Separated(batch, numBlocks)
    ensures forall r :: 0 <= r < |x.slots| ==> 0 <= x.slots[r] < numBlocks * blockSize
    ensures forall r, q :: 0 <= r < q < |x.slots| ==> x.slots[r] != x.slots[q]
  {
    forall r | 0 <= r < |x.slots| ensures 0 <= x.slots[r] < numBlocks * blockSize {
      var i, p := SlotOwner(x, batch, blockSize, r);
      SlotNames(batch, blockSize, numBlocks, i, p, i, p);
    }
    forall r, q | 0 <= r < q < |x.slots| ensures x.slots[r] != x.slots[q] {
      var i, p := SlotOwner(x, batch, blockSize, r);
      var i', p' := SlotOwner(x, batch, blockSize, q);
      SlotNames(batch, blockSize, numBlocks, i, p, i', p');
    }
  }

  // ----- the pass computes every sequence's private cache

  lemma {:induction false} SegmentAt(f: Network, x: Flat, m: nat, j: nat)
    requires Lined(x) && j < m < |x.cu|
    ensures 0 <= x.cu[j] <= x.cu[j + 1] <= |SegmentKVs(f, x, m)|
    ensures SegmentKVs(f, x, m)[x.cu[j]..x.cu[j + 1]] == PrivateKV(f, x.tokens[x.cu[j]..x.cu[j + 1]])
  {
    var front, back := SegmentKVs(f, x, m - 1), PrivateKV(f, x.tokens[x.cu[m - 1]..x.cu[m]]);
    if j < m - 1 {
      SegmentAt(f, x, m - 1, j);
      SliceKept(front, front + back, x.cu[j], x.cu[j + 1]);
    } else {
      LastPart(front, back);
    }
  }

  lemma LastPart<T>(front: seq<T>, back: seq<T>)
    ensures (front + back)[|front|..|front| + |back|] == back
  {
  }

  /** Before the pass, the cached prefix of s is its private cache. */
  predicate CachedPrefix(f: Network, cache: seq<KV>, s: SeqState, blockSize: nat) {
    && s.cachePos <= |s.tokens|
    && Readable(cache, blockSize, s.blocks, s.cachePos)
    && ReadTable(cache, blockSize, s.blocks, s.cachePos) == PrivateKV(f, s.tokens[..s.cachePos])
  }

  /** A longer table reads the same at the positions both cover. */
  lemma ExtendedRead(cache: seq<KV>, blockSize: nat, table: seq<int>, table': seq<int>, n: nat)
    requires Readable(cache, blockSize, table, n) && table <= table'
    ensures Readable(cache, blockSize, table', n)
    ensures ReadTable(cache, blockSize, table', n) == ReadTable(cache, blockSize, table, n)
  {
    MulMonotone(|table|, |table'|, blockSize);
    forall p | 0 <= p < n
      ensures SlotInRange(|cache|, blockSize, table', p)
      ensures Slot(table', blockSize, p) == Slot(table, blockSize, p)
    {
      assert SlotInRange(|cache|, blockSize, table, p);
    }
  }

  lemma PaddedRead(cache: seq<KV>, blockSize: nat, table: seq<int>, len: nat, n: nat)
    requires Readable(cache, blockSize, table, n) && |table| <= len
    ensures Readable(cache, blockSize, PadTable(table, len), n)
    ensures ReadTable(cache, blockSize, PadTable(table, len), n) == ReadTable(cache, blockSize, table, n)
  {
    ExtendedRead(cache, blockSize, table, PadTable(table, len), n);
  }

  /** The blocks of a granted sequence cover all its positions. */
  lemma GrantedReadable(cache: seq<KV>, blockSize: nat, numBlocks: nat, s: SeqState)
    requires blockSize > 0 && Granted(s, blockSize) && |cache| == numBlocks * blockSize
    requires forall x :: 0 <= x < |s.blocks| ==> 0 <= s.blocks[x] < numBlocks
    ensures Readable(cache, blockSize, s.blocks, |s.tokens|)
  {
    CeilDivBounds(|s.tokens|, blockSize);
    forall p | 0 <= p < |s.tokens|
      ensures SlotInRange(|cache|, blockSize, s.blocks, p)
    {
      BlockIndexBound(p, blockSize, |s.blocks|);
      SlotBound(s.blocks[p / blockSize], blockSize, numBlocks, p % blockSize);
    }
  }

  /** What the scheduler owes the engine when it hands over a batch. */
  predicate BatchReady(f: Network, cache: seq<KV>, batch: seq<SeqState>, blockSize: nat, numBlocks: nat) {
    && blockSize > 0 && |cache| == numBlocks * blockSize
    && GrantedBatch(batch, blockSize) && Separated(batch, numBlocks)
    && (forall i :: 0 <= i < |batch| ==>
          (batch[i].cachePos == 0 || batch[i].cachePos == |batch[i].tokens| - 1)
          && CachedPrefix(f, cache, batch[i], blockSize))
  }

  lemma ReadyExecutable(f: Network, cache: seq<KV>, batch: seq<SeqState>, blockSize: nat, numBlocks: nat)
    requires BatchReady(f, cache, batch, blockSize, numBlocks) && RunnableBatch(batch, blockSize)
    ensures Executable(Flatten(batch, blockSize), cache, blockSize)
  {
    FlattenFaithful(batch, blockSize);
    var x := Flatten(batch, blockSize);
    SlotsDistinct(x, batch, blockSize, numBlocks);
    forall d | 0 <= d < |x.tables|
      ensures x.contextLens[d] > 0
           && Readable(cache, blockSize, PadTable(x.tables[d], x.maxTableLen), x.contextLens[d])
    {
      TableOfRow(x, batch, blockSize, d);
      var s := batch[Order(batch)[|x.cu| - 1 + d]];
      GrantedReadable(cache, blockSize, numBlocks, s);
      PaddedRead(cache, blockSize, s.blocks, x.maxTableLen, |s.tokens|);
    }
  }

  lemma TableOfRow(x: Flat, batch: seq<SeqState>, blockSize: nat, d: nat)
    requires blockSize > 0 && GrantedBatch(batch, blockSize) && Holds(x, batch, Order(batch), blockSize)
    requires d < |x.tables|
    ensures var j := |x.cu| - 1 + d;
            j < |Order(batch)| && Order(batch)[j] < |batch|
            && var s := batch[Order(batch)[j]];
               x.tables[d] == s.blocks && x.contextLens[d] == |s.tokens| > 0
  {
    var j := |x.cu| - 1 + d;
    assert Row(x, batch[Order(batch)[j]], j, blockSize);
  }

  /** A prefill row gets its sequence's private K/V. */
  lemma PrefillKVs(f: Network, x: Flat, cache: seq<KV>, blockSize: nat, s: SeqState, j: nat, p: nat)
    requires blockSize > 0 && Executable(x, cache, blockSize) && Granted(s, blockSize)
    requires PrefillRow(x, s, j, blockSize) && p < |s.tokens|
    ensures RowKVs(f, x, cache, blockSize)[x.cu[j] + p] == PrivateKV(f, s.tokens)[p]
  {
    var m := |x.cu| - 1;
    SegmentAt(f, x, m, j);
    assert SegmentKVs(f, x, m)[x.cu[j]..x.cu[j + 1]][p] == SegmentKVs(f, x, m)[x.cu[j] + p];
  }

  /** A decode row extends its sequence's private K/V by one. */
  lemma DecodeKVs(f: Network, x: Flat, cache: seq<KV>, blockSize: nat, s: SeqState, j: nat)
    requires blockSize > 0 && Executable(x, cache, blockSize) && Granted(s, blockSize)
    requires DecodeRow(x, s, j, blockSize) && s.cachePos == |s.tokens| - 1
    requires CachedPrefix(f, cache, s, blockSize) && Readable(cache, blockSize, s.blocks, |s.tokens|)
    ensures RowKVs(f, x, cache, blockSize)[x.promptTokens + (j - (|x.cu| - 1))] == PrivateKV(f, s.tokens)[|s.tokens| - 1]
  {
    var d := j - (|x.cu| - 1);
    DecodeReads(f, x, cache, blockSize, s, d);
    DecodeEntry(f, x, cache, blockSize, d);
    LastPrivate(f, s.tokens);
  }

  /** What a decode row reads before its own entry. */
  lemma DecodeReads(f: Network, x: Flat, cache: seq<KV>, blockSize: nat, s: SeqState, d: nat)
    requires Executable(x, cache, blockSize) && d < |x.tables|
    requires x.tables[d] == s.blocks && x.contextLens[d] == |s.tokens| > 0 && s.cachePos == |s.tokens| - 1
    requires CachedPrefix(f, cache, s, blockSize) && Readable(cache, blockSize, s.blocks, |s.tokens|)
    ensures var n := |s.tokens|;
            ReadTable(cache, blockSize, PadTable(x.tables[d], x.maxTableLen), n)[..n - 1] == PrivateKV(f, s.tokens[..n - 1])
  {
    PaddedRead(cache, blockSize, s.blocks, x.maxTableLen, |s.tokens|);
    ReadBeforeLast(f, cache, s, blockSize);
  }

  lemma DecodeEntry(f: Network, x: Flat, cache: seq<KV>, blockSize: nat, d: nat)
    requires Executable(x, cache, blockSize) && d < |x.tables|
    ensures RowKVs(f, x, cache, blockSize)[x.promptTokens + d] == DecodeKV(f, x, cache, blockSize, d)
  {
  }

  lemma LastPrivate(f: Network, tokens: seq<int>)
    requires tokens != []
    ensures var n := |tokens|; PrivateKV(f, tokens)[n - 1] == f(tokens[n - 1], n - 1, PrivateKV(f, tokens[..n - 1]))
  {
  }

  /** The K/V written for the slot of position p of sequence i, when the pass writes it. */
  lemma WrittenKV(f: Network, cache: seq<KV>, batch: seq<SeqState>, blockSize: nat, numBlocks: nat, r: nat)
    returns (i: nat, p: nat)
    requires BatchReady(f, cache, batch, blockSize, numBlocks) && RunnableBatch(batch, blockSize)
    requires Executable(Flatten(batch, blockSize), cache, blockSize) && r < |Flatten(batch, blockSize).slots|
    ensures i < |batch| && p < |batch[i].tokens| && p / blockSize < |batch[i].blocks|
    ensures Flatten(batch, blockSize).slots[r] == Slot(batch[i].blocks, blockSize, p)
    ensures !batch[i].Prefill() ==> p == |batch[i].tokens| - 1
    ensures RowKVs(f, Flatten(batch, blockSize), cache, blockSize)[r] == PrivateKV(f, batch[i].tokens)[p]
  {
    var x := Flatten(batch, blockSize);
    FlattenFaithful(batch, blockSize);
    i, p := SlotOwner(x, batch, blockSize, r);
    var s, j := batch[i], x.seqIndices[i];
    assert Row(x, s, j, blockSize);
    if s.Prefill() {
      PrefillKVs(f, x, cache, blockSize, s, j, p);
    } else {
      GrantedReadable(cache, blockSize, numBlocks, s);
      DecodeKVs(f, x, cache, blockSize, s, j);
    }
  }

  /** The flat entry that writes position p of sequence i. */
  function EntryOf(x: Flat, s: SeqState, i: nat, p: nat): int
    requires i < |x.seqIndices|
  {
    var j := x.seqIndices[i];
    if s.Prefill() then (if 0 <= j < |x.cu| then x.cu[j] + p else 0) else x.promptTokens + (j - (|x.cu| - 1))
  }

  lemma EntryWrites(x: Flat, batch: seq<SeqState>, blockSize: nat, i: nat, p: nat)
    requires blockSize > 0 && GrantedBatch(batch, blockSize) && Lined(x) && |x.seqIndices| == |batch|
    requires i < |batch| && 0 <= x.seqIndices[i] && Row(x, batch[i], x.seqIndices[i], blockSize)
    requires p < |batch[i].tokens| && (batch[i].Prefill() || p == |batch[i].tokens| - 1)
    ensures p / blockSize < |batch[i].blocks|
    ensures 0 <= EntryOf(x, batch[i], i, p) < |x.slots|
    ensures x.slots[EntryOf(x, batch[i], i, p)] == Slot(batch[i].blocks, blockSize, p)
  {
    var s, j := batch[i], x.seqIndices[i];
    CeilDivBounds(|s.tokens|, blockSize);
    BlockIndexBound(p, blockSize, |s.blocks|);
    if s.Prefill() {
      assert x.slots[x.cu[j]..x.cu[j + 1]][p] == x.slots[x.cu[j] + p];
    } else {
      LastSlotIsLookup(s, blockSize);
    }
  }

  /** After the pass, position p of sequence i holds the private K/V. */
  lemma ForwardAt(f: Network, cache: seq<KV>, batch: seq<SeqState>, blockSize: nat, numBlocks: nat, i: nat, p: nat)
    requires BatchReady(f, cache, batch, blockSize, numBlocks) && RunnableBatch(batch, blockSize)
    requires Executable(Flatten(batch, blockSize), cache, blockSize)
    requires i < |batch| && p < |batch[i].tokens| && p / blockSize < |batch[i].blocks|
    requires 0 <= Slot(batch[i].blocks, blockSize, p) < |cache|
    ensures Forward(f, Flatten(batch, blockSize), cache, blockSize)[Slot(batch[i].blocks, blockSize, p)]
         == PrivateKV(f, batch[i].tokens)[p]
  {
    var s, x := batch[i], Flatten(batch, blockSize);
    var kvs := RowKVs(f, x, cache, blockSize);
    var a := Slot(s.blocks, blockSize, p);
    if s.Prefill() || p == |s.tokens| - 1 {
      FlattenFaithful(batch, blockSize);
      EntryWrites(x, batch, blockSize, i, p);
      var r := EntryOf(x, s, i, p);
      SlotsDistinct(x, batch, blockSize, numBlocks);
      WriteAllAt(cache, x.slots, kvs, r);
      var i', p' := WrittenKV(f, cache, batch, blockSize, numBlocks, r);
      SlotNames(batch, blockSize, numBlocks, i, p, i', p');
    } else {
      forall r | 0 <= r < |x.slots| ensures x.slots[r] != a {
        var i', p' := WrittenKV(f, cache, batch, blockSize, numBlocks, r);
        SlotNames(batch, blockSize, numBlocks, i, p, i', p');
      }
      WriteAllElsewhere(cache, x.slots, kvs, a);
      CachedAt(f, cache, s, blockSize, p);
    }
  }

  lemma CachedAt(f: Network, cache: seq<KV>, s: SeqState, blockSize: nat, p: nat)
    requires CachedPrefix(f, cache, s, blockSize) && p < s.cachePos
    ensures SlotInRange(|cache|, blockSize, s.blocks, p)
    ensures cache[Slot(s.blocks, blockSize, p)] == PrivateKV(f, s.tokens)[p]
  {
    assert SlotInRange(|cache|, blockSize, s.blocks, p);
    var read := ReadTable(cache, blockSize, s.blocks, s.cachePos);
    assert read[p] == cache[Slot(s.blocks, blockSize, p)];
    var all := PrivateKV(f, s.tokens);
    assert all[..s.cachePos] == read by { PrivatePrefix(f, s.tokens, s.cachePos); }
    assert all[..s.cachePos][p] == all[p];
  }

  /** The paged pass refines the private caches: afterwards, reading any sequence of the batch through
      its block table gives exactly the K/V of each of its own token prefixes, in order. */
  lemma ForwardRefines(f: Network, cache: seq<KV>, batch: seq<SeqState>, blockSize: nat, numBlocks: nat, i: nat)
    requires BatchReady(f, cache, batch, blockSize, numBlocks) && RunnableBatch(batch, blockSize)
    requires Executable(Flatten(batch, blockSize), cache, blockSize) && i < |batch|
    ensures var cache' := Forward(f, Flatten(batch, blockSize), cache, blockSize);
            && Readable(cache', blockSize, batch[i].blocks, |batch[i].tokens|)
            && ReadTable(cache', blockSize, batch[i].blocks, |batch[i].tokens|) == PrivateKV(f, batch[i].tokens)
  {
    var s := batch[i];
    var cache' := Forward(f, Flatten(batch, blockSize), cache, blockSize);
    GrantedReadable(cache, blockSize, numBlocks, s);
    GrantedReadable(cache', blockSize, numBlocks, s);
    forall p | 0 <= p < |s.tokens|
      ensures ReadTable(cache', blockSize, s.blocks, |s.tokens|)[p] == PrivateKV(f, s.tokens)[p]
    {
      assert SlotInRange(|cache'|, blockSize, s.blocks, p);
      ForwardAt(f, cache, batch, blockSize, numBlocks, i, p);
    }
  }

  lemma BlocksDiffer(a: seq<int>, b: seq<int>, blockSize: nat, p: nat, q: nat)
    requires blockSize > 0 && p / blockSize < |a| && q / blockSize < |b|
    requires forall x, y :: 0 <= x < |a| && 0 <= y < |b| ==> a[x] != b[y]
    ensures Slot(a, blockSize, p) != Slot(b, blockSize, q)
  {
    SlotParts(a, blockSize, p);
    SlotParts(b, blockSize, q);
  }

  predicate Outside(batch: seq<SeqState>, t: SeqState) {
    forall i, x, y :: 0 <= i < |batch| && 0 <= x < |batch[i].blocks| && 0 <= y < |t.blocks| ==>
      batch[i].blocks[x] != t.blocks[y]
  }

  lemma SlotUntouched(f: Network, cache: seq<KV>, batch: seq<SeqState>, blockSize: nat, numBlocks: nat, t: SeqState, p: nat)
    requires BatchReady(f, cache, batch, blockSize, numBlocks) && RunnableBatch(batch, blockSize)
    requires Executable(Flatten(batch, blockSize), cache, blockSize) && Outside(batch, t)
    requires p / blockSize < |t.blocks| && 0 <= Slot(t.blocks, blockSize, p) < |cache|
    ensures Forward(f, Flatten(batch, blockSize), cache, blockSize)[Slot(t.blocks, blockSize, p)]
         == cache[Slot(t.blocks, blockSize, p)]
  {
    var x, a := Flatten(batch, blockSize), Slot(t.blocks, blockSize, p);
    forall r | 0 <= r < |x.slots| ensures x.slots[r] != a {
      var i, q := WrittenKV(f, cache, batch, blockSize, numBlocks, r);
      BlocksDiffer(batch[i].blocks, t.blocks, blockSize, q, p);
    }
    WriteAllElsewhere(cache, x.slots, RowKVs(f, x, cache, blockSize), a);
  }

  /** A sequence outside the batch keeps its cached prefix: none of its slots is written. */
  lemma ForwardFrames(f: Network, cache: seq<KV>, batch: seq<SeqState>, blockSize: nat, numBlocks: nat, t: SeqState)
    requires BatchReady(f, cache, batch, blockSize, numBlocks) && RunnableBatch(batch, blockSize)
    requires Executable(Flatten(batch, blockSize), cache, blockSize) && Outside(batch, t)
    requires CachedPrefix(f, cache, t, blockSize)
    ensures CachedPrefix(f, Forward(f, Flatten(batch, blockSize), cache, blockSize), t, blockSize)
  {
    var cache' := Forward(f, Flatten(batch, blockSize), cache, blockSize);
    forall p | 0 <= p < t.cachePos
      ensures SlotInRange(|cache|, blockSize, t.blocks, p)
      ensures cache'[Slot(t.blocks, blockSize, p)] == cache[Slot(t.blocks, blockSize, p)]
    {
      assert SlotInRange(|cache|, blockSize, t.blocks, p);
      SlotUntouched(f, cache, batch, blockSize, numBlocks, t, p);
    }
    SameRead(cache, cache', blockSize, t.blocks, t.cachePos);
  }

  lemma SameRead(cache: seq<KV>, cache': seq<KV>, blockSize: nat, table: seq<int>, n: nat)
    requires Readable(cache, blockSize, table, n) && |cache'| == |cache|
    requires forall p :: 0 <= p < n ==>
               SlotInRange(|cache|, blockSize, table, p) && cache'[Slot(table, blockSize, p)] == cache[Slot(table, blockSize, p)]
    ensures Readable(cache', blockSize, table, n)
    ensures ReadTable(cache', blockSize, table, n) == ReadTable(cache, blockSize, table, n)
  {
  }

  /** The sample index of a row points at the sequence's last token. */
  lemma SampledRow(x: Flat, s: SeqState, j: nat, blockSize: nat)
    requires blockSize > 0 && Granted(s, blockSize) && Lined(x) && Row(x, s, j, blockSize)
    ensures j < |x.sampleIdx| && 0 <= x.sampleIdx[j] < |x.tokens|
    ensures x.tokens[x.sampleIdx[j]] == s.tokens[|s.tokens| - 1]
    ensures x.positions[x.sampleIdx[j]] == |s.tokens| - 1
    ensures j < |x.params| && x.params[j] == s.settings.sampling
  {
    if s.Prefill() {
      var a, b := x.cu[j], x.cu[j + 1];
      assert x.tokens[b - 1] == x.tokens[a..b][|s.tokens| - 1];
      assert x.positions[b - 1] == x.positions[a..b][|s.tokens| - 1];
    }
  }

  lemma RowContext(f: Network, x: Flat, cache: seq<KV>, blockSize: nat, s: SeqState, j: nat)
    requires blockSize > 0 && Granted(s, blockSize) && Executable(x, cache, blockSize) && Row(x, s, j, blockSize)
    requires Readable(cache, blockSize, s.blocks, |s.tokens|)
    requires ReadTable(cache, blockSize, s.blocks, |s.tokens|) == PrivateKV(f, s.tokens)
    ensures j < |x.rows| && Context(f, x, cache, blockSize, j) == PrivateKV(f, s.tokens)
  {
    if !s.Prefill() {
      PaddedRead(cache, blockSize, s.blocks, x.maxTableLen, |s.tokens|);
    }
  }

  lemma StillExecutable(x: Flat, cache: seq<KV>, cache': seq<KV>, blockSize: nat)
    requires Executable(x, cache, blockSize) && |cache'| == |cache|
    ensures Executable(x, cache', blockSize)
  {
    forall d | 0 <= d < |x.tables|
      ensures Readable(cache', blockSize, PadTable(x.tables[d], x.maxTableLen), x.contextLens[d])
    {
      assert Readable(cache, blockSize, PadTable(x.tables[d], x.maxTableLen), x.contextLens[d]);
    }
  }

  /** The decode pass may write the new K/V before it reads, as the source does, or after: on a batch that is ready both
      orders compute the same. */
  lemma WriteOrderDoesNotMatter(f: Network, cache: seq<KV>, batch: seq<SeqState>, blockSize: nat, numBlocks: nat, d: nat)
    requires BatchReady(f, cache, batch, blockSize, numBlocks) && RunnableBatch(batch, blockSize)
    requires Executable(Flatten(batch, blockSize), cache, blockSize) && d < |Flatten(batch, blockSize).tables|
    ensures var x := Flatten(batch, blockSize);
            var cache' := Forward(f, x, cache, blockSize);
            && Executable(x, cache', blockSize)
            && DecodeKV(f, x, cache', blockSize, d) == DecodeKV(f, x, cache, blockSize, d)
  {
    var x := Flatten(batch, blockSize);
    var cache' := Forward(f, x, cache, blockSize);
    FlattenFaithful(batch, blockSize);
    StillExecutable(x, cache, cache', blockSize);
    TableOfRow(x, batch, blockSize, d);
    var i := Order(batch)[|x.cu| - 1 + d];
    var s := batch[i];
    assert Row(x, s, |x.cu| - 1 + d, blockSize);
    GrantedReadable(cache, blockSize, numBlocks, s);
    ForwardRefines(f, cache, batch, blockSize, numBlocks, i);
    PaddedRead(cache, blockSize, s.blocks, x.maxTableLen, |s.tokens|);
    PaddedRead(cache', blockSize, s.blocks, x.maxTableLen, |s.tokens|);
    ReadBeforeLast(f, cache, s, blockSize);
    PrivatePrefix(f, s.tokens, |s.tokens| - 1);
  }

  lemma ReadBeforeLast(f: Network, cache: seq<KV>, s: SeqState, blockSize: nat)
    requires CachedPrefix(f, cache, s, blockSize) && s.tokens != [] && s.cachePos == |s.tokens| - 1
    requires Readable(cache, blockSize, s.blocks, |s.tokens|)
    ensures ReadTable(cache, blockSize, s.blocks, |s.tokens|)[..|s.tokens| - 1] == PrivateKV(f, s.tokens[..|s.tokens| - 1])
  {
    var n := |s.tokens|;
    assert ReadTable(cache, blockSize, s.blocks, n)[..n - 1] == ReadTable(cache, blockSize, s.blocks, n - 1);
  }

  /** Output routing: after selection by seqIndices, the i-th sample is the one taken at the last flat
      entry of batch[i], whose attention sees exactly batch[i]'s private cache. */
  lemma OutputRouting(f: Network, cache: seq<KV>, batch: seq<SeqState>, blockSize: nat, numBlocks: nat, i: nat)
    requires BatchReady(f, cache, batch, blockSize, numBlocks) && RunnableBatch(batch, blockSize)
    requires Executable(Flatten(batch, blockSize), cache, blockSize) && i < |batch|
    ensures var x := Flatten(batch, blockSize);
            var cache' := Forward(f, x, cache, blockSize);
            && |x.rows| == |batch| && 0 <= x.seqIndices[i] < |batch|
            && Executable(x, cache', blockSize)
            && 0 <= x.sampleIdx[x.seqIndices[i]] < |x.tokens|
            && x.tokens[x.sampleIdx[x.seqIndices[i]]] == batch[i].tokens[|batch[i].tokens| - 1]
            && x.positions[x.sampleIdx[x.seqIndices[i]]] == |batch[i].tokens| - 1
            && x.params[x.seqIndices[i]] == batch[i].settings.sampling
            && Context(f, x, cache', blockSize, x.seqIndices[i]) == PrivateKV(f, batch[i].tokens)
  {
    var x := Flatten(batch, blockSize);
    var cache' := Forward(f, x, cache, blockSize);
    FlattenFaithful(batch, blockSize);
    StillExecutable(x, cache, cache', blockSize);
    SampledRow(x, batch[i], x.seqIndices[i], blockSize);
    ForwardRefines(f, cache, batch, blockSize, numBlocks, i);
    RowContext(f, x, cache', blockSize, batch[i], x.seqIndices[i]);
  }
}
