/** The physical cache: keys in a blocked layout, values next to them, both written in place
    (src/memory/kv_cache.cpp). */
module KvCaches {
  import opened Arith
  import opened Sequences
  import opened PagedExecution

  lemma ColumnInRange(d: int, size: int, x: int)
    requires 0 <= d < size && x > 0 && size % x == 0
    ensures 0 <= d / x < size / x
  {
    assert size == (size / x) * x;
    BlockIndexBound(d, x, size / x);
  }

  lemma ColumnJoined(j: int, y: int, size: int, x: int)
    requires x > 0 && 0 <= j < size / x && 0 <= y < x && 0 <= size && size % x == 0
    ensures 0 <= j * x + y < size
  {
    assert size == (size / x) * x;
    SlotBound(j, x, size / x, y);
  }

  lemma SlotSplit(a: int, n: int, b: int)
    requires 0 <= a < n * b && b > 0
    ensures 0 <= a / b < n && 0 <= a % b < b
  {
    BlockIndexBound(a, b, n);
  }

  lemma SlotsDiffer(a: int, c: int, b: int)
    requires b > 0 && a / b == c / b && a % b == c % b
    ensures a == c
  {
    assert a == (a / b) * b + a % b;
    assert c == (c / b) * b + c % b;
  }

  class KVCache {
    const numBlocks: nat
    const heads: nat
    const headSize: nat
    const blockSize: nat
    const x: nat
    // [numBlocks, heads, headSize / x, blockSize, x]
    const keyCache: array5<real>
    // [numBlocks, heads, headSize, blockSize]
    const valueCache: array4<real>

    ghost predicate Valid() {
      && blockSize > 0 && x > 0 && headSize % x == 0
      && keyCache.Length0 == numBlocks && keyCache.Length1 == heads && keyCache.Length2 == headSize / x
      && keyCache.Length3 == blockSize && keyCache.Length4 == x
      && valueCache.Length0 == numBlocks && valueCache.Length1 == heads && valueCache.Length2 == headSize
      && valueCache.Length3 == blockSize
    }

    constructor (numBlocks: nat, heads: nat, headSize: nat, blockSize: nat, x: nat)
      requires blockSize > 0 && x > 0 && headSize % x == 0
      ensures Valid() && fresh(keyCache) && fresh(valueCache)
      ensures this.numBlocks == numBlocks && this.blockSize == blockSize
    {
      this.numBlocks, this.heads, this.headSize, this.blockSize, this.x := numBlocks, heads, headSize, blockSize, x;
      keyCache := new real[numBlocks, heads, headSize / x, blockSize, x];
      valueCache := new real[numBlocks, heads, headSize, blockSize];
    }

    /** A key/value pair of the cache's dimensions. */
    predicate Shaped(kv: KV) {
      && |kv.key| == heads && |kv.value| == heads
      && (forall h :: 0 <= h < heads ==> |kv.key[h]| == headSize && |kv.value[h]| == headSize)
    }

    /** The key of a slot as the source reshapes it back: [heads, headSize]. */
    function KeyAt(block: nat, offset: nat, h: nat): (row: seq<real>)
      requires Valid() && block < numBlocks && offset < blockSize && h < heads
      reads keyCache
      ensures |row| == headSize
    {
      seq(headSize, d requires 0 <= d < headSize reads keyCache =>
        ColumnInRange(d, headSize, x); keyCache[block, h, d / x, offset, d % x])
    }

    function ValueAt(block: nat, offset: nat, h: nat): (row: seq<real>)
      requires Valid() && block < numBlocks && offset < blockSize && h < heads
      reads valueCache
      ensures |row| == headSize
    {
      seq(headSize, d requires 0 <= d < headSize reads valueCache => valueCache[block, h, d, offset])
    }

    function SlotKV(a: nat): KV
      requires Valid() && a < numBlocks * blockSize
      reads keyCache, valueCache
    {
      SlotSplit(a, numBlocks, blockSize);
      KV(seq(heads, h requires 0 <= h < heads reads keyCache => KeyAt(a / blockSize, a % blockSize, h)),
         seq(heads, h requires 0 <= h < heads reads valueCache => ValueAt(a / blockSize, a % blockSize, h)))
    }

    /** The cache as a list of slots. */
    ghost function Slots(): (slots: seq<KV>)
      requires Valid()
      reads keyCache, valueCache
      ensures |slots| == numBlocks * blockSize
    {
      seq(numBlocks * blockSize, a requires 0 <= a < numBlocks * blockSize reads keyCache, valueCache => SlotKV(a))
    }

    /** The physical layout: columns go in groups of x, and the slot's place comes between the group and the place in it. */
    lemma KeyLayout(block: nat, offset: nat, h: nat, j: nat, y: nat)
      requires Valid() && block < numBlocks && offset < blockSize && h < heads && j < headSize / x && y < x
      ensures 0 <= j * x + y < headSize
      ensures keyCache[block, h, j, offset, y] == KeyAt(block, offset, h)[j * x + y]
    {
      ColumnJoined(j, y, headSize, x);
      DivModUnique(j * x + y, x, j, y);
    }

    method SetKey(block: nat, offset: nat, kv: KV)
      requires Valid() && block < numBlocks && offset < blockSize && Shaped(kv)
      modifies keyCache
      ensures forall h :: 0 <= h < heads ==> KeyAt(block, offset, h) == kv.key[h]
      ensures forall b, o, h :: 0 <= b < numBlocks && 0 <= o < blockSize && 0 <= h < heads && (b != block || o != offset) ==>
                KeyAt(b, o, h) == old(KeyAt(b, o, h))
    {
      forall h, j, y | 0 <= h < heads && 0 <= j < headSize / x && 0 <= y < x {
        keyCache[block, h, j, offset, y] := (ColumnJoined(j, y, headSize, x); kv.key[h][j * x + y]);
      }
      forall h | 0 <= h < heads ensures KeyAt(block, offset, h) == kv.key[h] {
        forall d | 0 <= d < headSize ensures KeyAt(block, offset, h)[d] == kv.key[h][d] {
          ColumnInRange(d, headSize, x);
          assert (d / x) * x + d % x == d;
        }
      }
    }

    method SetValue(block: nat, offset: nat, kv: KV)
      requires Valid() && block < numBlocks && offset < blockSize && Shaped(kv)
      modifies valueCache
      ensures forall h :: 0 <= h < heads ==> ValueAt(block, offset, h) == kv.value[h]
      ensures forall h, d :: 0 <= h < heads && 0 <= d < headSize ==> valueCache[block, h, d, offset] == kv.value[h][d]
      ensures forall b, o, h :: 0 <= b < numBlocks && 0 <= o < blockSize && 0 <= h < heads && (b != block || o != offset) ==>
                ValueAt(b, o, h) == old(ValueAt(b, o, h))
    {
      forall h, d | 0 <= h < heads && 0 <= d < headSize {
        valueCache[block, h, d, offset] := kv.value[h][d];
      }
    }

    method SetSlot(a: nat, kv: KV)
      requires Valid() && a < numBlocks * blockSize && Shaped(kv)
      modifies keyCache, valueCache
      ensures Slots() == old(Slots())[a := kv]
    {
      SlotSplit(a, numBlocks, blockSize);
      SetKey(a / blockSize, a % blockSize, kv);
      SetValue(a / blockSize, a % blockSize, kv);
      forall c | 0 <= c < numBlocks * blockSize
        ensures SlotKV(c) == if c == a then kv else old(SlotKV(c))
      {
        SlotSplit(c, numBlocks, blockSize);
        if c != a && c / blockSize == a / blockSize && c % blockSize == a % blockSize { SlotsDiffer(a, c, blockSize); }
      }
    }

    /** set_kv_cache_slow: one slot after the other. */
    method SetKvCache(slotIds: seq<int>, kvs: seq<KV>)
      requires Valid() && |slotIds| == |kvs|
      requires forall i :: 0 <= i < |slotIds| ==> 0 <= slotIds[i] < numBlocks * blockSize && Shaped(kvs[i])
      modifies keyCache, valueCache
      ensures Slots() == WriteAll(old(Slots()), slotIds, kvs)
    {
      for i := 0 to |slotIds|
        invariant Slots() == WriteAll(old(Slots()), slotIds[..i], kvs[..i])
      {
        assert slotIds[..i + 1][..i] == slotIds[..i] && kvs[..i + 1][..i] == kvs[..i];
        SetSlot(slotIds[i], kvs[i]);
      }
      assert slotIds[..|slotIds|] == slotIds && kvs[..|slotIds|] == kvs;
    }

    /** get_kv_cache by slot ids. */
    method GetSlots(slotIds: seq<int>) returns (kvs: seq<KV>)
      requires Valid() && forall i :: 0 <= i < |slotIds| ==> 0 <= slotIds[i] < numBlocks * blockSize
      ensures |kvs| == |slotIds| && forall i :: 0 <= i < |slotIds| ==> kvs[i] == Slots()[slotIds[i]]
    {
      kvs := [];
      for i := 0 to |slotIds|
        invariant |kvs| == i && forall j :: 0 <= j < i ==> kvs[j] == Slots()[slotIds[j]]
      {
        kvs := kvs + [SlotKV(slotIds[i])];
      }
    }

    /** The slot ids of a block table's first positions. */
    static method SlotIds(table: seq<int>, blockSize: nat, contextLen: nat, ghost size: nat) returns (ids: seq<int>)
      requires blockSize > 0 && forall p :: 0 <= p < contextLen ==> SlotInRange(size, blockSize, table, p)
      ensures |ids| == contextLen
      ensures forall p :: 0 <= p < contextLen ==>
                SlotInRange(size, blockSize, table, p) && ids[p] == Slot(table, blockSize, p)
    {
      ids := [];
      for i := 0 to contextLen
        invariant |ids| == i
        invariant forall p :: 0 <= p < i ==> SlotInRange(size, blockSize, table, p) && ids[p] == Slot(table, blockSize, p)
      {
        assert SlotInRange(size, blockSize, table, i);
        var blockId := table[i / blockSize];
        var blockOffset := i % blockSize;
        ids := ids + [blockId * blockSize + blockOffset];
      }
    }

    /** get_kv_cache by block table and context length. */
    method GetTable(table: seq<int>, contextLen: nat) returns (kvs: seq<KV>)
      requires Valid() && Readable(Slots(), blockSize, table, contextLen)
      ensures kvs == ReadTable(Slots(), blockSize, table, contextLen)
    {
      var ids := SlotIds(table, blockSize, contextLen, |Slots()|);
      kvs := GetSlots(ids);
    }
  }
}
