/** Executing a batch keeps the invariant; its checks never fail. */
module SchedulerExecution {
  import opened Arith
  import opened Sequences
  import opened BlockMemory
  import opened BatchInputs
  import opened BatchFaithful
  import opened PagedExecution
  import opened SchedulerState
  import opened SchedulerMemory
  import opened SchedulerInvariants

  lemma SelectSeparated(m: Memory, numBlocks: nat, ids: seq<nat>)
    requires Conserved(m.free, m.seqs, numBlocks) && Known(m.seqs, ids) && NoDup(ids)
    ensures Separated(Select(m.seqs, ids), numBlocks)
  {
    var batch := Select(m.seqs, ids);
    forall i | 0 <= i < |batch|
      ensures forall x :: 0 <= x < |batch[i].blocks| ==> 0 <= batch[i].blocks[x] < numBlocks
      ensures forall x, y :: 0 <= x < y < |batch[i].blocks| ==> batch[i].blocks[x] != batch[i].blocks[y]
    {
      BlocksOwn(m.free, m.seqs, numBlocks, ids[i]);
    }
    forall i, j | 0 <= i < j < |batch|
      ensures forall x, y :: 0 <= x < |batch[i].blocks| && 0 <= y < |batch[j].blocks| ==>
                batch[i].blocks[x] != batch[j].blocks[y]
    {
      BlocksApart(m.free, m.seqs, numBlocks, ids[i], ids[j]);
    }
  }

  lemma ReadyBatch(e: Engine, s: State)
    requires Inv(e, s) && s.phase == Ready
    ensures Named(s) && BatchReady(e.f, s.cache, BatchOf(s), e.blockSize, e.numBlocks)
  {
    InvNamed(e, s);
    SelectSeparated(s.mem, e.numBlocks, s.seqBatch);
    var batch := BatchOf(s);
    forall i | 0 <= i < |batch|
      ensures Granted(batch[i], e.blockSize) && CachedPrefix(e.f, s.cache, batch[i], e.blockSize)
      ensures batch[i].cachePos == 0 || batch[i].cachePos == |batch[i].tokens| - 1
    {
      var k := s.seqBatch[i];
      assert k in s.seqBatch && Healthy(s.mem.seqs[k], e.blockSize);
    }
  }

  lemma SelectLive(s: State)
    requires Named(s) && s.phase != Idle
    ensures Live(s) <==> forall i :: 0 <= i < |BatchOf(s)| ==> !BatchOf(s)[i].Finished()
  {
    assert forall i :: 0 <= i < |s.seqBatch| ==> s.seqBatch[i] in s.seqBatch && BatchOf(s)[i] == s.mem.seqs[s.seqBatch[i]];
  }

  /** The checks of prepare_inputs pass on a batch the scheduler built if and only if none of its sequences has been
      cancelled in the meantime. */
  lemma ChecksPass(e: Engine, s: State)
    requires Inv(e, s) && s.phase == Ready
    ensures Named(s) && (Passes(e, s) <==> Live(s))
  {
    ReadyBatch(e, s);
    SelectLive(s);
    GrantedRunnable(BatchOf(s), e.blockSize);
    if Live(s) {
      ReadyExecutable(e.f, s.cache, BatchOf(s), e.blockSize, e.numBlocks);
      FlattenFaithful(BatchOf(s), e.blockSize);
    }
  }

  lemma {:induction false} AppendAllOther(seqs: seq<SeqState>, ids: seq<nat>, tokens: seq<int>, k: nat)
    requires |ids| == |tokens| && Known(seqs, ids) && k < |seqs| && k !in ids
    ensures AppendAll(seqs, ids, tokens)[k] == seqs[k]
  {
    if ids != [] {
      var n := |ids| - 1;
      assert ids[n] in ids;
      AppendAllOther(seqs, ids[..n], tokens[..n], k);
    }
  }

  lemma {:induction false} AppendAllMember(seqs: seq<SeqState>, ids: seq<nat>, tokens: seq<int>, i: nat)
    requires |ids| == |tokens| && Known(seqs, ids) && NoDup(ids) && i < |ids|
    ensures AppendAll(seqs, ids, tokens)[ids[i]] == seqs[ids[i]].Append(tokens[i]).CheckStop()
  {
    var n := |ids| - 1;
    if i < n {
      AppendAllMember(seqs, ids[..n], tokens[..n], i);
    } else {
      AppendAllOther(seqs, ids[..n], tokens[..n], ids[n]);
    }
  }

  /** A sequence that was executed: one token longer, everything before it cached. */
  lemma AppendOne(e: Engine, cache: seq<KV>, t: SeqState, token: int)
    requires e.blockSize > 0 && Healthy(t, e.blockSize) && Granted(t, e.blockSize) && !t.Finished()
    requires Readable(cache, e.blockSize, t.blocks, |t.tokens|)
    requires ReadTable(cache, e.blockSize, t.blocks, |t.tokens|) == PrivateKV(e.f, t.tokens)
    ensures Healthy(t.Append(token).CheckStop(), e.blockSize)
    ensures CachedPrefix(e.f, cache, t.Append(token).CheckStop(), e.blockSize)
  {
    CeilDivMonotone(|t.tokens|, |t.tokens| + 1, e.blockSize);
    CeilDivBounds(|t.tokens|, e.blockSize);
    assert (t.tokens + [token])[..|t.tokens|] == t.tokens;
  }

  lemma SelectOutside(m: Memory, numBlocks: nat, ids: seq<nat>, k: nat)
    requires Conserved(m.free, m.seqs, numBlocks) && Known(m.seqs, ids) && k < |m.seqs| && k !in ids
    ensures Outside(Select(m.seqs, ids), m.seqs[k])
  {
    var batch := Select(m.seqs, ids);
    forall i | 0 <= i < |batch|
      ensures forall x, y :: 0 <= x < |batch[i].blocks| && 0 <= y < |m.seqs[k].blocks| ==>
                batch[i].blocks[x] != m.seqs[k].blocks[y]
    {
      assert ids[i] in ids;
      BlocksApart(m.free, m.seqs, numBlocks, ids[i], k);
    }
  }

  predicate Runs(e: Engine, cache: seq<KV>, batch: seq<SeqState>) {
    && BatchReady(e.f, cache, batch, e.blockSize, e.numBlocks)
    && RunnableBatch(batch, e.blockSize)
    && Executable(Flatten(batch, e.blockSize), cache, e.blockSize)
  }

  function Ran(e: Engine, cache: seq<KV>, batch: seq<SeqState>): seq<KV>
    requires Runs(e, cache, batch)
  {
    Forward(e.f, Flatten(batch, e.blockSize), cache, e.blockSize)
  }

  lemma ExecuteBatched(e: Engine, cache: seq<KV>, batch: seq<SeqState>, i: nat, token: int)
    requires Runs(e, cache, batch) && i < |batch| && Healthy(batch[i], e.blockSize)
    ensures Healthy(batch[i].Append(token).CheckStop(), e.blockSize)
    ensures CachedPrefix(e.f, Ran(e, cache, batch), batch[i].Append(token).CheckStop(), e.blockSize)
  {
    assert batch[i] in batch && Runnable(batch[i], e.blockSize);
    ForwardRefines(e.f, cache, batch, e.blockSize, e.numBlocks, i);
    AppendOne(e, Ran(e, cache, batch), batch[i], token);
  }

  lemma ExecuteStore(e: Engine, m: Memory, cache: seq<KV>, ids: seq<nat>, tokens: seq<int>)
    requires e.blockSize > 0 && Sound(e, m) && Cached(e, cache, m.seqs)
    requires Known(m.seqs, ids) && NoDup(ids) && |tokens| == |ids|
    requires Runs(e, cache, Select(m.seqs, ids))
    ensures var seqs' := AppendAll(m.seqs, ids, tokens);
            && Sound(e, m.(seqs := seqs'))
            && Cached(e, Ran(e, cache, Select(m.seqs, ids)), seqs')
            && forall k :: 0 <= k < |m.seqs| ==> seqs'[k].blocks == m.seqs[k].blocks
  {
    var seqs' := AppendAll(m.seqs, ids, tokens);
    forall k | 0 <= k < |m.seqs|
      ensures Healthy(seqs'[k], e.blockSize) && seqs'[k].blocks == m.seqs[k].blocks
      ensures CachedPrefix(e.f, Ran(e, cache, Select(m.seqs, ids)), seqs'[k], e.blockSize)
    {
      ExecuteOne(e, m, cache, ids, tokens, k);
    }
    HeldSame(m.seqs, seqs');
  }

  lemma ExecuteMember(e: Engine, m: Memory, cache: seq<KV>, ids: seq<nat>, tokens: seq<int>, i: nat)
    requires e.blockSize > 0 && Sound(e, m) && Known(m.seqs, ids) && NoDup(ids) && |tokens| == |ids| && i < |ids|
    requires Runs(e, cache, Select(m.seqs, ids))
    ensures var t := AppendAll(m.seqs, ids, tokens)[ids[i]];
            Healthy(t, e.blockSize) && t.blocks == m.seqs[ids[i]].blocks
            && CachedPrefix(e.f, Ran(e, cache, Select(m.seqs, ids)), t, e.blockSize)
  {
    AppendAllMember(m.seqs, ids, tokens, i);
    assert Healthy(m.seqs[ids[i]], e.blockSize);
    assert Select(m.seqs, ids)[i] == m.seqs[ids[i]];
    AppendKeepsBlocks(m.seqs[ids[i]], tokens[i]);
    ExecuteBatched(e, cache, Select(m.seqs, ids), i, tokens[i]);
  }

  lemma AppendKeepsBlocks(t: SeqState, token: int)
    ensures t.Append(token).CheckStop().blocks == t.blocks
  {
  }

  lemma ExecuteBystander(e: Engine, m: Memory, cache: seq<KV>, ids: seq<nat>, tokens: seq<int>, k: nat)
    requires e.blockSize > 0 && Sound(e, m) && Cached(e, cache, m.seqs) && k < |m.seqs| && k !in ids
    requires Known(m.seqs, ids) && NoDup(ids) && |tokens| == |ids|
    requires Runs(e, cache, Select(m.seqs, ids))
    ensures AppendAll(m.seqs, ids, tokens)[k] == m.seqs[k] && Healthy(m.seqs[k], e.blockSize)
    ensures CachedPrefix(e.f, Ran(e, cache, Select(m.seqs, ids)), m.seqs[k], e.blockSize)
  {
    AppendAllOther(m.seqs, ids, tokens, k);
    assert Healthy(m.seqs[k], e.blockSize);
    SelectOutside(m, e.numBlocks, ids, k);
    ForwardFrames(e.f, cache, Select(m.seqs, ids), e.blockSize, e.numBlocks, m.seqs[k]);
  }

  lemma ExecuteOne(e: Engine, m: Memory, cache: seq<KV>, ids: seq<nat>, tokens: seq<int>, k: nat)
    requires e.blockSize > 0 && Sound(e, m) && Cached(e, cache, m.seqs) && k < |m.seqs|
    requires Known(m.seqs, ids) && NoDup(ids) && |tokens| == |ids|
    requires Runs(e, cache, Select(m.seqs, ids))
    ensures var t := AppendAll(m.seqs, ids, tokens)[k];
            Healthy(t, e.blockSize) && t.blocks == m.seqs[k].blocks
            && CachedPrefix(e.f, Ran(e, cache, Select(m.seqs, ids)), t, e.blockSize)
  {
    if k in ids {
      var i :| 0 <= i < |ids| && ids[i] == k;
      ExecuteMember(e, m, cache, ids, tokens, i);
    } else {
      ExecuteBystander(e, m, cache, ids, tokens, k);
    }
  }

  lemma ExecuteKeeps(e: Engine, s: State, sample: Sampler)
    requires Inv(e, s) && Enabled(e, s, Execute(sample))
    ensures Inv(e, DoExecute(e, s, sample))
  {
    var s' := DoExecute(e, s, sample);
    ReadyBatch(e, s);
    ExecuteStore(e, s.mem, s.cache, s.seqBatch, Samples(e, s, sample));
    forall r <- s.done ensures NoBlocks(s'.mem.seqs, s.reqs[r].seqs) {
      assert NoBlocks(s.mem.seqs, s.reqs[r].seqs);
    }
  }
}
