/** What the flat batch says about the sequences it was made from. */
module BatchFaithful {
  import opened Arith
  import opened Sequences
  import opened BatchInputs

  /** A sequence that has been granted slots: it holds exactly the blocks it needs. */
  predicate Granted(s: SeqState, blockSize: nat)
    requires blockSize > 0
  {
    s.tokens != [] && |s.blocks| == s.BlocksNeeded(blockSize)
  }

  predicate GrantedBatch(batch: seq<SeqState>, blockSize: nat)
    requires blockSize > 0
  {
    forall i :: 0 <= i < |batch| ==> Granted(batch[i], blockSize)
  }

  /** Of a granted batch, the checks of prepare_inputs can only fail on a finished sequence. */
  lemma GrantedRunnable(batch: seq<SeqState>, blockSize: nat)
    requires blockSize > 0 && GrantedBatch(batch, blockSize)
    ensures RunnableBatch(batch, blockSize) <==> forall i :: 0 <= i < |batch| ==> !batch[i].Finished()
  {
    forall i | 0 <= i < |batch| ensures Runnable(batch[i], blockSize) <==> !batch[i].Finished() {
      CeilDivBounds(|batch[i].tokens|, blockSize);
    }
    if RunnableBatch(batch, blockSize) {
      assert forall i :: 0 <= i < |batch| ==> batch[i] in batch;
    }
  }

  /** The batch indices in the order in which the first k are visited by the two loops. */
  function PrefillOrder(batch: seq<SeqState>, k: nat): seq<nat>
    requires k <= |batch|
  {
    if k == 0 then []
    else PrefillOrder(batch, k - 1) + if batch[k - 1].Prefill() then [k - 1] else []
  }

  function DecodeOrder(batch: seq<SeqState>, k: nat): seq<nat>
    requires k <= |batch|
  {
    if k == 0 then PrefillOrder(batch, |batch|)
    else DecodeOrder(batch, k - 1) + if batch[k - 1].Prefill() then [] else [k - 1]
  }

  function Order(batch: seq<SeqState>): seq<nat> { DecodeOrder(batch, |batch|) }

  /** The fields of a flat batch line up. */
  predicate Lined(x: Flat) {
    && |x.tokens| == |x.positions| == |x.slots| == x.promptTokens + |x.contextLens|
    && |x.cu| > 0
    && |x.rows| == |x.sampleIdx| == |x.params| == |x.cu| - 1 + |x.contextLens|
    && (forall j :: 0 <= j < |x.sampleIdx| ==> 0 <= x.sampleIdx[j] < |x.tokens|)
    && |x.contextLens| == |x.tables|
    && x.cu[0] == 0 && x.cu[|x.cu| - 1] == x.promptTokens
    && (forall j :: 0 <= j < |x.cu| ==> 0 <= x.cu[j] <= x.promptTokens)
    && (forall j :: 0 <= j < |x.cu| - 1 ==> x.cu[j] <= x.cu[j + 1])
    && (forall d :: 0 <= d < |x.tables| ==> |x.tables[d]| <= x.maxTableLen)
  }

  /** Row j of the flat batch is the prefill sequence s: its slice between two prefix sums. */
  predicate PrefillRow(x: Flat, s: SeqState, j: nat, blockSize: nat)
    requires blockSize > 0 && Granted(s, blockSize) && Lined(x)
  {
    CeilDivBounds(|s.tokens|, blockSize);
    && j < |x.cu| - 1
    && x.cu[j + 1] - x.cu[j] == |s.tokens|
    && x.tokens[x.cu[j]..x.cu[j + 1]] == s.tokens
    && x.positions[x.cu[j]..x.cu[j + 1]] == Iota(|s.tokens|)
    && x.slots[x.cu[j]..x.cu[j + 1]] == TableSlots(s.blocks, blockSize, |s.tokens|)
    && x.sampleIdx[j] == x.cu[j + 1] - 1
    && x.rows[j] == s.tokens && x.params[j] == s.settings.sampling
  }

  /** Row j is the decode sequence s: one flat entry, a block table and a context length. */
  predicate DecodeRow(x: Flat, s: SeqState, j: nat, blockSize: nat)
    requires blockSize > 0 && Granted(s, blockSize) && Lined(x)
  {
    var d := j - (|x.cu| - 1);
    && 0 <= d < |x.contextLens|
    && x.tokens[x.promptTokens + d] == s.tokens[|s.tokens| - 1]
    && x.positions[x.promptTokens + d] == |s.tokens| - 1
    && x.slots[x.promptTokens + d] == LastSlotId(s, blockSize)
    && x.contextLens[d] == |s.tokens|
    && x.tables[d] == s.blocks
    && x.sampleIdx[j] == x.promptTokens + d
    && x.rows[j] == s.tokens && x.params[j] == s.settings.sampling
  }

  predicate Row(x: Flat, s: SeqState, j: nat, blockSize: nat)
    requires blockSize > 0 && Granted(s, blockSize) && Lined(x)
  {
    if s.Prefill() then PrefillRow(x, s, j, blockSize) else DecodeRow(x, s, j, blockSize)
  }

  /** x holds exactly the sequences named by order, and seqIndices is the inverse of order. */
  predicate Holds(x: Flat, batch: seq<SeqState>, order: seq<nat>, blockSize: nat)
    requires blockSize > 0 && GrantedBatch(batch, blockSize)
  {
    && Lined(x)
    && |x.seqIndices| == |batch|
    && |order| == |x.rows|
    && (forall j :: 0 <= j < |order| ==>
          order[j] < |batch| && x.seqIndices[order[j]] == j && Row(x, batch[order[j]], j, blockSize))
  }

  /** y adds to x without touching what is there. */
  predicate Extends(x: Flat, y: Flat) {
    && x.tokens <= y.tokens && x.positions <= y.positions && x.slots <= y.slots
    && x.cu <= y.cu && x.sampleIdx <= y.sampleIdx && x.rows <= y.rows && x.params <= y.params
    && x.contextLens <= y.contextLens && x.tables <= y.tables
    && (x.contextLens == [] || (x.cu == y.cu && x.promptTokens == y.promptTokens))
  }

  lemma SliceKept<T>(xs: seq<T>, ys: seq<T>, a: nat, b: nat)
    requires xs <= ys && a <= b <= |xs|
    ensures ys[a..b] == xs[a..b]
  {
  }

  lemma RowKept(x: Flat, y: Flat, s: SeqState, j: nat, blockSize: nat)
    requires blockSize > 0 && Granted(s, blockSize)
    requires Lined(x) && Lined(y) && Extends(x, y) && Row(x, s, j, blockSize)
    ensures Row(y, s, j, blockSize)
  {
    if s.Prefill() {
      var a, b := x.cu[j], x.cu[j + 1];
      SliceKept(x.tokens, y.tokens, a, b);
      SliceKept(x.positions, y.positions, a, b);
      SliceKept(x.slots, y.slots, a, b);
    }
  }

  lemma PrefillRowAdded(x: Flat, s: SeqState, k: nat, blockSize: nat)
    requires blockSize > 0 && Granted(s, blockSize) && s.Prefill()
    requires Lined(x) && x.contextLens == [] && k < |x.seqIndices|
    ensures var y := AddPrefill(x, s, k, blockSize);
            Lined(y) && Extends(x, y) && Row(y, s, |x.rows|, blockSize)
  {
    var n, j := |s.tokens|, |x.rows|;
    var y := AddPrefill(x, s, k, blockSize);
    CacheSlotsExact(s.blocks, blockSize, n);
    assert y.cu[j] == |x.tokens| && y.cu[j + 1] == |y.tokens|;
    assert y.tokens[|x.tokens|..] == s.tokens;
    assert y.positions[|x.tokens|..] == Iota(n);
    assert y.slots[|x.tokens|..] == TableSlots(s.blocks, blockSize, n);
  }

  lemma DecodeRowAdded(x: Flat, s: SeqState, k: nat, blockSize: nat)
    requires blockSize > 0 && Granted(s, blockSize) && !s.Prefill() && s.blocks != []
    requires Lined(x) && k < |x.seqIndices|
    ensures var y := AddDecode(x, s, k, blockSize);
            Lined(y) && Extends(x, y) && Row(y, s, |x.rows|, blockSize)
  {
  }

  /** Adding one more row to x gives a y that holds one more sequence. */
  lemma OneMore(x: Flat, y: Flat, batch: seq<SeqState>, order: seq<nat>, k: nat, blockSize: nat)
    requires blockSize > 0 && GrantedBatch(batch, blockSize) && Holds(x, batch, order, blockSize)
    requires k < |batch| && k !in order
    requires Lined(y) && Extends(x, y) && Row(y, batch[k], |x.rows|, blockSize)
    requires |y.rows| == |x.rows| + 1 && y.seqIndices == x.seqIndices[k := |x.rows|]
    ensures Holds(y, batch, order + [k], blockSize)
  {
    var order' := order + [k];
    forall j | 0 <= j < |order'|
      ensures order'[j] < |batch| && y.seqIndices[order'[j]] == j && Row(y, batch[order'[j]], j, blockSize)
    {
      if j < |order| {
        assert order'[j] == order[j] && order[j] in order;
        RowKept(x, y, batch[order[j]], j, blockSize);
      }
    }
  }

  lemma {:induction false} PrefillOrderMembers(batch: seq<SeqState>, k: nat)
    requires k <= |batch|
    ensures forall i <- PrefillOrder(batch, k) :: i < k && batch[i].Prefill()
    ensures forall i :: 0 <= i < k && batch[i].Prefill() ==> i in PrefillOrder(batch, k)
  {
    if k > 0 { PrefillOrderMembers(batch, k - 1); }
  }

  lemma {:induction false} DecodeOrderMembers(batch: seq<SeqState>, k: nat)
    requires k <= |batch|
    ensures forall i <- DecodeOrder(batch, k) :: i < |batch| && (i < k || batch[i].Prefill())
    ensures forall i :: 0 <= i < |batch| && (i < k || batch[i].Prefill()) ==> i in DecodeOrder(batch, k)
  {
    if k == 0 { PrefillOrderMembers(batch, |batch|); } else { DecodeOrderMembers(batch, k - 1); }
  }

  lemma PrefillStep(x: Flat, batch: seq<SeqState>, order: seq<nat>, k: nat, blockSize: nat)
    requires blockSize > 0 && GrantedBatch(batch, blockSize) && Holds(x, batch, order, blockSize)
    requires k < |batch| && k !in order && batch[k].Prefill() && x.contextLens == []
    ensures Holds(AddPrefill(x, batch[k], k, blockSize), batch, order + [k], blockSize)
  {
    PrefillRowAdded(x, batch[k], k, blockSize);
    OneMore(x, AddPrefill(x, batch[k], k, blockSize), batch, order, k, blockSize);
  }

  lemma {:induction false} PrefillPassHolds(batch: seq<SeqState>, blockSize: nat, k: nat)
    requires blockSize > 0 && GrantedBatch(batch, blockSize) && k <= |batch|
    ensures PrefillPass(batch, blockSize, k).contextLens == []
    ensures Holds(PrefillPass(batch, blockSize, k), batch, PrefillOrder(batch, k), blockSize)
  {
    if k > 0 {
      var x, order := PrefillPass(batch, blockSize, k - 1), PrefillOrder(batch, k - 1);
      PrefillPassHolds(batch, blockSize, k - 1);
      if batch[k - 1].Prefill() {
        assert k - 1 !in order by { PrefillOrderMembers(batch, k - 1); }
        PrefillStep(x, batch, order, k - 1, blockSize);
      } else {
        assert PrefillOrder(batch, k) == order;
      }
    }
  }

  lemma DecodeStep(x: Flat, batch: seq<SeqState>, order: seq<nat>, k: nat, blockSize: nat)
    requires blockSize > 0 && GrantedBatch(batch, blockSize) && Holds(x, batch, order, blockSize)
    requires k < |batch| && k !in order && !batch[k].Prefill()
    ensures batch[k].blocks != []
    ensures Holds(AddDecode(x, batch[k], k, blockSize), batch, order + [k], blockSize)
  {
    LastSlotIsLookup(batch[k], blockSize);
    DecodeRowAdded(x, batch[k], k, blockSize);
    OneMore(x, AddDecode(x, batch[k], k, blockSize), batch, order, k, blockSize);
  }

  lemma DecodePassStep(batch: seq<SeqState>, blockSize: nat, k: nat)
    requires blockSize > 0 && GrantedBatch(batch, blockSize) && RunnableBatch(batch, blockSize) && k < |batch|
    requires Holds(DecodePass(batch, blockSize, k), batch, DecodeOrder(batch, k), blockSize) && !batch[k].Prefill()
    ensures Holds(DecodePass(batch, blockSize, k + 1), batch, DecodeOrder(batch, k + 1), blockSize)
  {
    var x, order := DecodePass(batch, blockSize, k), DecodeOrder(batch, k);
    assert k !in order by { DecodeOrderMembers(batch, k); }
    DecodeStep(x, batch, order, k, blockSize);
    assert DecodePass(batch, blockSize, k + 1) == AddDecode(x, batch[k], k, blockSize);
    assert DecodeOrder(batch, k + 1) == order + [k];
  }

  lemma DecodePassSkip(batch: seq<SeqState>, blockSize: nat, k: nat)
    requires blockSize > 0 && RunnableBatch(batch, blockSize) && k < |batch| && batch[k].Prefill()
    ensures DecodePass(batch, blockSize, k + 1) == DecodePass(batch, blockSize, k)
    ensures DecodeOrder(batch, k + 1) == DecodeOrder(batch, k)
  {
  }

  lemma DecodePassStart(batch: seq<SeqState>, blockSize: nat)
    requires blockSize > 0 && GrantedBatch(batch, blockSize) && RunnableBatch(batch, blockSize)
    ensures Holds(DecodePass(batch, blockSize, 0), batch, DecodeOrder(batch, 0), blockSize)
  {
    PrefillPassHolds(batch, blockSize, |batch|);
  }

  lemma {:induction false} DecodePassHolds(batch: seq<SeqState>, blockSize: nat, k: nat)
    requires blockSize > 0 && GrantedBatch(batch, blockSize) && RunnableBatch(batch, blockSize) && k <= |batch|
    ensures Holds(DecodePass(batch, blockSize, k), batch, DecodeOrder(batch, k), blockSize)
  {
    if k == 0 {
      DecodePassStart(batch, blockSize);
    } else {
      DecodePassHolds(batch, blockSize, k - 1);
      if batch[k - 1].Prefill() {
        DecodePassSkip(batch, blockSize, k - 1);
      } else {
        DecodePassStep(batch, blockSize, k - 1);
      }
    }
  }

  /** Flattening is faithful: every sequence of the batch owns exactly one row, seqIndices sends each
      sequence to its row, and the row's slices give the sequence back. */
  lemma FlattenFaithful(batch: seq<SeqState>, blockSize: nat)
    requires blockSize > 0 && GrantedBatch(batch, blockSize) && RunnableBatch(batch, blockSize)
    ensures var x := Flatten(batch, blockSize);
            && Holds(x, batch, Order(batch), blockSize)
            && |x.rows| == |batch|
            && (forall i :: 0 <= i < |batch| ==>
                  0 <= x.seqIndices[i] < |batch| && Order(batch)[x.seqIndices[i]] == i
                  && Row(x, batch[i], x.seqIndices[i], blockSize))
  {
    var x, order := Flatten(batch, blockSize), Order(batch);
    DecodePassHolds(batch, blockSize, |batch|);
    DecodeOrderMembers(batch, |batch|);
    forall i | 0 <= i < |batch|
      ensures 0 <= x.seqIndices[i] < |order| && order[x.seqIndices[i]] == i
    {
      assert i in order;
      var j :| 0 <= j < |order| && order[j] == i;
    }
    OrderLength(batch, |batch|);
  }

  lemma {:induction false} OrderLength(batch: seq<SeqState>, k: nat)
    requires k <= |batch|
    ensures |DecodeOrder(batch, k)| + |PrefillOrder(batch, k)| == |PrefillOrder(batch, |batch|)| + k
  {
    if k > 0 { OrderLength(batch, k - 1); }
  }

  // ----- the maxima that go with the flat batch

  /** m is the largest of the numbers, or zero when there are none. */
  predicate Peak(m: nat, numbers: seq<int>) {
    && (forall i :: 0 <= i < |numbers| ==> numbers[i] <= m)
    && (if numbers == [] then m == 0 else m in numbers)
  }

  lemma PeakGrows(m: nat, numbers: seq<int>, n: nat)
    requires Peak(m, numbers)
    ensures Peak(Max(m, n), numbers + [n])
  {
    assert n in numbers + [n];
    assert numbers != [] ==> m in numbers + [n];
  }

  function Lengths<T>(parts: seq<seq<T>>): (lengths: seq<int>)
    ensures |lengths| == |parts| && forall i :: 0 <= i < |parts| ==> lengths[i] == |parts[i]|
  {
    seq(|parts|, i requires 0 <= i < |parts| => |parts[i]|)
  }

  lemma LengthsGrow<T>(parts: seq<seq<T>>, part: seq<T>)
    ensures Lengths(parts + [part]) == Lengths(parts) + [|part|]
  {
  }

  /** Each maximum is attained by a row of its kind: prefill rows come first, decode rows after them. */
  predicate Peaks(x: Flat) {
    && Lined(x)
    && Peak(x.maxTokens, Lengths(x.rows))
    && Peak(x.maxSeqLen, Lengths(x.rows[..|x.cu| - 1]))
    && Peak(x.maxContextLen, x.contextLens)
    && Peak(x.maxTableLen, Lengths(x.tables))
  }

  lemma PrefillPeaks(x: Flat, s: SeqState, k: nat, blockSize: nat)
    requires blockSize > 0 && Peaks(x) && x.contextLens == [] && k < |x.seqIndices| && Granted(s, blockSize) && s.Prefill()
    ensures Peaks(AddPrefill(x, s, k, blockSize))
  {
    PrefillRowAdded(x, s, k, blockSize);
    var y := AddPrefill(x, s, k, blockSize);
    LengthsGrow(x.rows, s.tokens);
    PeakGrows(x.maxTokens, Lengths(x.rows), |s.tokens|);
    assert x.rows[..|x.cu| - 1] == x.rows && y.rows[..|y.cu| - 1] == y.rows;
    PeakGrows(x.maxSeqLen, Lengths(x.rows), |s.tokens|);
  }

  lemma DecodePeaks(x: Flat, s: SeqState, k: nat, blockSize: nat)
    requires blockSize > 0 && Peaks(x) && k < |x.seqIndices| && Granted(s, blockSize) && !s.Prefill() && s.blocks != []
    ensures Peaks(AddDecode(x, s, k, blockSize))
  {
    DecodeRowAdded(x, s, k, blockSize);
    var y := AddDecode(x, s, k, blockSize);
    LengthsGrow(x.rows, s.tokens);
    LengthsGrow(x.tables, s.blocks);
    PeakGrows(x.maxTokens, Lengths(x.rows), |s.tokens|);
    PeakGrows(x.maxContextLen, x.contextLens, |s.tokens|);
    PeakGrows(x.maxTableLen, Lengths(x.tables), |s.blocks|);
    assert y.rows[..|y.cu| - 1] == x.rows[..|x.cu| - 1];
  }

  lemma {:induction false} PrefillPassPeaks(batch: seq<SeqState>, blockSize: nat, k: nat)
    requires blockSize > 0 && GrantedBatch(batch, blockSize) && k <= |batch|
    ensures PrefillPass(batch, blockSize, k).contextLens == [] && Peaks(PrefillPass(batch, blockSize, k))
  {
    if k > 0 {
      PrefillPassPeaks(batch, blockSize, k - 1);
      if batch[k - 1].Prefill() { PrefillPeaks(PrefillPass(batch, blockSize, k - 1), batch[k - 1], k - 1, blockSize); }
    }
  }

  lemma {:induction false} DecodePassPeaks(batch: seq<SeqState>, blockSize: nat, k: nat)
    requires blockSize > 0 && GrantedBatch(batch, blockSize) && RunnableBatch(batch, blockSize) && k <= |batch|
    ensures Peaks(DecodePass(batch, blockSize, k))
  {
    if k == 0 {
      PrefillPassPeaks(batch, blockSize, |batch|);
    } else {
      DecodePassPeaks(batch, blockSize, k - 1);
      if !batch[k - 1].Prefill() {
        LastSlotIsLookup(batch[k - 1], blockSize);
        DecodePeaks(DecodePass(batch, blockSize, k - 1), batch[k - 1], k - 1, blockSize);
      }
    }
  }

  /** The longest row, prefill, context and table that are reported are those of the batch. */
  lemma FlattenPeaks(batch: seq<SeqState>, blockSize: nat)
    requires blockSize > 0 && GrantedBatch(batch, blockSize) && RunnableBatch(batch, blockSize)
    ensures Peaks(Flatten(batch, blockSize))
  {
    DecodePassPeaks(batch, blockSize, |batch|);
  }

  /** A sequence takes part as a prefill exactly when nothing of it is cached, and else as one decode entry. */
  lemma StagesByCache(batch: seq<SeqState>, blockSize: nat, i: nat)
    requires blockSize > 0 && GrantedBatch(batch, blockSize) && RunnableBatch(batch, blockSize) && i < |batch|
    ensures var x := Flatten(batch, blockSize);
            && Lined(x) && 0 <= x.seqIndices[i] < |x.rows|
            && (batch[i].cachePos == 0 ==> x.seqIndices[i] < |x.cu| - 1)
            && (batch[i].cachePos > 0 ==> x.seqIndices[i] >= |x.cu| - 1)
  {
    FlattenFaithful(batch, blockSize);
  }
}
