/** The scheduler's invariant, and its preservation by every event. */
module SchedulerInvariants {
  import opened Arith
  import opened Sequences
  import opened BlockMemory
  import opened BatchInputs
  import opened BatchFaithful
  import opened PagedExecution
  import opened SchedulerState
  import opened SchedulerMemory

  /** Every sequence belongs to at most one request, once. */
  predicate Handles(reqs: seq<Request>, n: nat) {
    && (forall r :: 0 <= r < |reqs| ==> NoDup(reqs[r].seqs))
    && (forall r, i :: 0 <= r < |reqs| && 0 <= i < |reqs[r].seqs| ==> reqs[r].seqs[i] < n)
    && (forall q, r, k :: 0 <= q < |reqs| && 0 <= r < |reqs| && k in reqs[q].seqs && k in reqs[r].seqs ==> q == r)
  }

  /** No two accepted requests have the same priority and creation time. */
  predicate KeysDistinct(reqs: seq<Request>) {
    forall a, b :: 0 <= a < b < |reqs| ==> Before(reqs[a], reqs[b]) || Before(reqs[b], reqs[a])
  }

  function Ids(n: nat): (m: multiset<nat>)
    ensures forall r: nat :: m[r] == if r < n then 1 else 0
  {
    if n == 0 then multiset{} else Ids(n - 1) + multiset{n - 1}
  }

  /** Every accepted request is in exactly one place, once. */
  ghost predicate Owned(n: nat, intake: seq<nat>, heap: set<nat>, batch: seq<nat>, done: seq<nat>) {
    multiset(intake) + multiset(heap) + multiset(batch) + multiset(done) == Ids(n)
  }

  predicate Precede(reqs: seq<Request>, batch: seq<nat>, heap: set<nat>) {
    forall b, h :: b in batch && h in heap && b < |reqs| && h < |reqs| ==> Before(reqs[b], reqs[h])
  }

  predicate OwnerIn(reqs: seq<Request>, batch: seq<nat>, k: nat) {
    exists r <- batch :: r < |reqs| && k in reqs[r].seqs
  }

  /** The sequences of the batch: distinct, granted, and each of a batched request. */
  predicate Scheduled(blockSize: nat, reqs: seq<Request>, seqs: seq<SeqState>, batch: seq<nat>, seqBatch: seq<nat>)
    requires blockSize > 0
  {
    && NoDup(seqBatch)
    && (forall k <- seqBatch :: k < |seqs| && Granted(seqs[k], blockSize) && OwnerIn(reqs, batch, k))
  }

  predicate DoneReleased(reqs: seq<Request>, seqs: seq<SeqState>, done: seq<nat>) {
    forall r <- done :: r < |reqs| && NoBlocks(seqs, reqs[r].seqs)
  }

  predicate NoneFits(blockSize: nat, m: Memory, ids: seq<nat>)
    requires blockSize > 0 && Known(m.seqs, ids)
  {
    forall i :: 0 <= i < |ids| ==>
      m.seqs[ids[i]].Finished() || BlocksToAllocate(m.seqs[ids[i]], blockSize) > |m.free|
  }

  predicate Stuck(e: Engine, s: State)
    requires e.blockSize > 0 && KnownAll(s.mem.seqs, s.reqs)
  {
    forall c <- s.heap :: IsTop(s.reqs, s.heap, c) ==> NoneFits(e.blockSize, s.mem, s.reqs[c].seqs)
  }

  /** The store: who owns which sequence, block conservation, and the cached prefixes. */
  ghost predicate StoreInv(e: Engine, reqs: seq<Request>, m: Memory, cache: seq<KV>, done: seq<nat>)
    requires e.blockSize > 0
  {
    && KnownAll(m.seqs, reqs)
    && Handles(reqs, |m.seqs|)
    && Sound(e, m)
    && Cached(e, cache, m.seqs)
    && DoneReleased(reqs, m.seqs, done)
  }

  /** The containers: every request in one place, batch and preemptable list sorted by key, and the
      preemptable list a part of the heap, empty outside the scheduling loop. */
  ghost predicate PlaceInv(s: State) {
    && Owned(|s.reqs|, s.intake, s.heap, s.batch, s.done)
    && Sorted(s.reqs, s.batch)
    && Sorted(s.reqs, s.preemptable)
    && (forall r <- s.preemptable :: r in s.heap)
    && (s.phase != Building ==> s.preemptable == [])
  }

  /** The batch under construction or ready to run. */
  predicate BatchInv(e: Engine, s: State)
    requires e.blockSize > 0 && KnownAll(s.mem.seqs, s.reqs)
  {
    && Known(s.mem.seqs, s.seqBatch)
    && (s.phase != Idle ==>
          && Precede(s.reqs, s.batch, s.heap)
          && Scheduled(e.blockSize, s.reqs, s.mem.seqs, s.batch, s.seqBatch))
    && (s.phase == Built ==> s.heap == {} || s.seqBatch != [] || Stuck(e, s))
  }

  ghost predicate Inv(e: Engine, s: State) {
    && e.blockSize > 0
    && StoreInv(e, s.reqs, s.mem, s.cache, s.done)
    && PlaceInv(s)
    && BatchInv(e, s)
  }

  /** No sequence of the batch under construction or ready to run has been cancelled since it was granted its slots. */
  predicate Live(s: State) { s.phase != Idle ==> Unfinished(s.mem.seqs, s.seqBatch) }

  predicate Unfinished(seqs: seq<SeqState>, ids: seq<nat>) {
    forall k <- ids :: k < |seqs| && !seqs[k].Finished()
  }

  lemma InvNamed(e: Engine, s: State)
    requires Inv(e, s)
    ensures Named(s)
  {
  }

  // ----- requests in places

  lemma InRange(n: nat, intake: seq<nat>, heap: set<nat>, batch: seq<nat>, done: seq<nat>)
    requires Owned(n, intake, heap, batch, done)
    ensures forall r :: r in intake || r in heap || r in batch || r in done ==> r < n
    ensures forall r <- heap :: r !in batch && r !in done && r !in intake
    ensures forall r <- batch :: r !in done
  {
    var m := multiset(intake) + multiset(heap) + multiset(batch) + multiset(done);
    forall r | r in intake || r in heap || r in batch || r in done ensures r < n {
      assert m[r] > 0;
    }
    forall r <- heap ensures r !in batch && r !in done && r !in intake {
      assert m[r] == 1;
      assert r in multiset(heap);
      assert multiset(intake)[r] + multiset(batch)[r] + multiset(done)[r] == 0;
    }
    forall r <- batch ensures r !in done {
      assert m[r] == 1;
      assert multiset(batch)[r] + multiset(done)[r] <= 1;
    }
  }

  lemma OwnedArrive(n: nat, intake: seq<nat>, heap: set<nat>, batch: seq<nat>, done: seq<nat>)
    requires Owned(n, intake, heap, batch, done)
    ensures Owned(n + 1, intake + [n], heap, batch, done)
  {
    assert multiset(intake + [n]) == multiset(intake) + multiset{n};
    assert multiset(intake) + multiset{n} + multiset(heap) + multiset(batch) + multiset(done)
        == (multiset(intake) + multiset(heap) + multiset(batch) + multiset(done)) + multiset{n};
  }

  lemma OwnedSchedule(n: nat, intake: seq<nat>, heap: set<nat>, batch: seq<nat>, done: seq<nat>, c: nat)
    requires Owned(n, intake, heap, batch, done) && c in heap
    ensures Owned(n, intake, heap - {c}, batch + [c], done)
    ensures Owned(n, intake, heap - {c}, batch, done + [c])
  {
    assert heap == (heap - {c}) + {c};
    assert multiset(heap) == multiset(heap - {c}) + multiset{c};
    assert multiset(batch + [c]) == multiset(batch) + multiset{c};
    assert multiset(done + [c]) == multiset(done) + multiset{c};
    var a, h, b, d, z := multiset(intake), multiset(heap - {c}), multiset(batch), multiset(done), multiset{c};
    assert a + h + (b + z) + d == a + (h + z) + b + d;
    assert a + h + b + (d + z) == a + (h + z) + b + d;
  }

  lemma OwnedRecycle(n: nat, intake: seq<nat>, heap: set<nat>, batch: seq<nat>, done: seq<nat>,
                     heap': set<nat>, done': seq<nat>, preemptable: seq<nat>)
    requires Owned(n, intake, heap, batch, done)
    requires heap' == heap + Elements(intake) + Elements(preemptable)
    requires multiset(done') + multiset(preemptable) == multiset(done) + multiset(batch)
    ensures Owned(n, [], heap', [], done')
  {
    var none: seq<nat> := [];
    forall r: nat
      ensures (multiset(none) + multiset(heap') + multiset(none) + multiset(done'))[r] == Ids(n)[r]
    {
      assert (multiset(intake) + multiset(heap) + multiset(batch) + multiset(done))[r] == Ids(n)[r] <= 1;
      assert (multiset(done') + multiset(preemptable))[r] == (multiset(done) + multiset(batch))[r];
      assert r in intake <==> multiset(intake)[r] > 0;
      assert r in preemptable <==> multiset(preemptable)[r] > 0;
      assert multiset(heap')[r] == if r in heap' then 1 else 0;
      assert multiset(heap)[r] == if r in heap then 1 else 0;
    }
  }

  // ----- arrivals

  lemma ArriveStore(e: Engine, reqs: seq<Request>, m: Memory, cache: seq<KV>, done: seq<nat>, r: Request, prompts: seq<Prompt>)
    requires e.blockSize > 0 && StoreInv(e, reqs, m, cache, done)
    requires forall p <- prompts :: p.tokens != []
    requires r.seqs == seq(|prompts|, i requires 0 <= i < |prompts| => |m.seqs| + i)
    ensures StoreInv(e, reqs + [r], m.(seqs := m.seqs + NewSequences(prompts)), cache, done)
  {
    var more := NewSequences(prompts);
    var m' := m.(seqs := m.seqs + more);
    HeldAppend(m.seqs, more);
    forall k | 0 <= k < |m'.seqs|
      ensures Healthy(m'.seqs[k], e.blockSize) && CachedPrefix(e.f, cache, m'.seqs[k], e.blockSize)
    {
      if k < |m.seqs| {
        assert m'.seqs[k] == m.seqs[k] && Healthy(m.seqs[k], e.blockSize);
      } else {
        var p := prompts[k - |m.seqs|];
        assert p in prompts && m'.seqs[k] == NewSequence(p.tokens, p.settings).Release();
      }
    }
    ArriveHandles(reqs, m.seqs, r, more);
    forall q <- done ensures q < |reqs + [r]| && NoBlocks(m'.seqs, (reqs + [r])[q].seqs) {
      assert NoBlocks(m.seqs, reqs[q].seqs);
    }
  }

  lemma ArriveHandles(reqs: seq<Request>, seqs: seq<SeqState>, r: Request, more: seq<SeqState>)
    requires Handles(reqs, |seqs|) && KnownAll(seqs, reqs)
    requires r.seqs == seq(|more|, i requires 0 <= i < |more| => |seqs| + i)
    ensures Handles(reqs + [r], |seqs + more|) && KnownAll(seqs + more, reqs + [r])
  {
    assert forall k <- r.seqs :: k >= |seqs|;
    assert forall q, k :: 0 <= q < |reqs| && k in reqs[q].seqs ==> k < |seqs|;
  }

  lemma ArriveBatch(e: Engine, s: State, s': State)
    requires Inv(e, s)
    requires s.reqs <= s'.reqs && s.mem.seqs <= s'.mem.seqs && s.mem.free == s'.mem.free
    requires s'.phase == s.phase && s'.heap == s.heap && s'.batch == s.batch && s'.seqBatch == s.seqBatch
    requires KnownAll(s'.mem.seqs, s'.reqs)
    ensures BatchInv(e, s')
  {
    InRange(|s.reqs|, s.intake, s.heap, s.batch, s.done);
    if s.phase != Idle {
      forall k <- s.seqBatch ensures OwnerIn(s'.reqs, s'.batch, k) {
        assert OwnerIn(s.reqs, s.batch, k);
        var r :| r in s.batch && r < |s.reqs| && k in s.reqs[r].seqs;
        assert s'.reqs[r] == s.reqs[r];
      }
    }
    if s.phase == Built && s.heap != {} && s.seqBatch == [] {
      forall c <- s.heap | IsTop(s'.reqs, s'.heap, c) ensures NoneFits(e.blockSize, s'.mem, s'.reqs[c].seqs) {
        assert IsTop(s.reqs, s.heap, c);
        assert NoneFits(e.blockSize, s.mem, s.reqs[c].seqs);
      }
    }
  }

  lemma ArrivePlaces(s: State, s': State)
    requires PlaceInv(s) && |s'.reqs| == |s.reqs| + 1 && s.reqs <= s'.reqs && s'.intake == s.intake + [|s.reqs|]
    requires s'.phase == s.phase && s'.heap == s.heap && s'.batch == s.batch && s'.done == s.done
    requires s'.preemptable == s.preemptable
    ensures PlaceInv(s')
  {
    InRange(|s.reqs|, s.intake, s.heap, s.batch, s.done);
    OwnedArrive(|s.reqs|, s.intake, s.heap, s.batch, s.done);
  }

  lemma ArriveKeeps(e: Engine, s: State, prompts: seq<Prompt>, priority: int, created: int)
    requires Inv(e, s) && Enabled(e, s, Arrive(prompts, priority, created))
    ensures Inv(e, DoArrive(e, s, prompts, priority, created))
  {
    if |s.intake| < e.capacity {
      var s' := DoArrive(e, s, prompts, priority, created);
      ArriveStore(e, s.reqs, s.mem, s.cache, s.done, s'.reqs[|s.reqs|], prompts);
      ArriveBatch(e, s, s');
      ArrivePlaces(s, s');
    }
  }

  // ----- cancellations

  lemma CancelOne(e: Engine, cache: seq<KV>, t: SeqState)
    requires e.blockSize > 0 && Healthy(t, e.blockSize) && CachedPrefix(e.f, cache, t, e.blockSize)
    ensures Healthy(t.Cancel(), e.blockSize) && CachedPrefix(e.f, cache, t.Cancel(), e.blockSize)
  {
  }

  lemma CancelStore(e: Engine, reqs: seq<Request>, m: Memory, cache: seq<KV>, done: seq<nat>, k: nat)
    requires e.blockSize > 0 && StoreInv(e, reqs, m, cache, done) && k < |m.seqs|
    ensures StoreInv(e, reqs, m.(seqs := m.seqs[k := m.seqs[k].Cancel()]), cache, done)
  {
    var m' := m.(seqs := m.seqs[k := m.seqs[k].Cancel()]);
    HeldSame(m.seqs, m'.seqs);
    assert Healthy(m.seqs[k], e.blockSize) && CachedPrefix(e.f, cache, m.seqs[k], e.blockSize);
    CancelOne(e, cache, m.seqs[k]);
    assert Sound(e, m');
    assert Cached(e, cache, m'.seqs);
    forall r <- done ensures NoBlocks(m'.seqs, reqs[r].seqs) {
      assert NoBlocks(m.seqs, reqs[r].seqs);
    }
  }

  lemma CancelBatch(e: Engine, s: State, k: nat)
    requires Inv(e, s) && Enabled(e, s, Cancel(k))
    requires KnownAll(s.mem.seqs[k := s.mem.seqs[k].Cancel()], s.reqs)
    ensures BatchInv(e, s.(mem := s.mem.(seqs := s.mem.seqs[k := s.mem.seqs[k].Cancel()])))
  {
    var s' := s.(mem := s.mem.(seqs := s.mem.seqs[k := s.mem.seqs[k].Cancel()]));
    if s.phase == Built && s.heap != {} && s.seqBatch == [] {
      forall c <- s.heap | IsTop(s.reqs, s.heap, c) ensures NoneFits(e.blockSize, s'.mem, s'.reqs[c].seqs) {
        assert NoneFits(e.blockSize, s.mem, s.reqs[c].seqs);
      }
    }
  }

  lemma CancelKeeps(e: Engine, s: State, k: nat)
    requires Inv(e, s) && Enabled(e, s, Cancel(k))
    ensures Inv(e, Next(e, s, Cancel(k)))
  {
    CancelStore(e, s.reqs, s.mem, s.cache, s.done, k);
    CancelBatch(e, s, k);
  }

  // ----- the start of a build

  /** A store in which every sequence is unchanged or released. */
  lemma KeptStore(e: Engine, reqs: seq<Request>, m: Memory, cache: seq<KV>, done: seq<nat>, m': Memory)
    requires e.blockSize > 0 && StoreInv(e, reqs, m, cache, done)
    requires |m'.seqs| == |m.seqs| && Sound(e, m')
    requires forall k :: 0 <= k < |m.seqs| ==> Kept(m.seqs[k], m'.seqs[k])
    ensures StoreInv(e, reqs, m', cache, done)
  {
    forall k | 0 <= k < |m.seqs| ensures CachedPrefix(e.f, cache, m'.seqs[k], e.blockSize) {
      assert Kept(m.seqs[k], m'.seqs[k]);
      CachedReleased(e, cache, m.seqs[k]);
    }
    forall r <- done ensures NoBlocks(m'.seqs, reqs[r].seqs) {
      assert NoBlocks(m.seqs, reqs[r].seqs);
      forall i | 0 <= i < |reqs[r].seqs| ensures m'.seqs[reqs[r].seqs[i]].blocks == [] {
        assert Kept(m.seqs[reqs[r].seqs[i]], m'.seqs[reqs[r].seqs[i]]);
      }
    }
  }

  lemma BeginKeeps(e: Engine, s: State)
    requires Inv(e, s) && s.phase == Idle
    ensures Named(s) && Inv(e, DoBegin(s))
  {
    InvNamed(e, s);
    var heap := s.heap + Elements(s.intake);
    var x := RecycleBatch(s.reqs, s.mem, heap, s.done, s.batch);
    RecycleBatchStore(e, s.reqs, s.mem, heap, s.done, s.batch);
    RecycleBatchPlaces(s.reqs, s.mem, heap, s.done, s.batch);
    KeptStore(e, s.reqs, s.mem, s.cache, s.done, x.m);
    OwnedRecycle(|s.reqs|, s.intake, s.heap, s.batch, s.done, x.heap, x.done, x.preemptable);
    InRange(|s.reqs|, [], x.heap, [], x.done);
    forall r <- x.done ensures r < |s.reqs| && NoBlocks(x.m.seqs, s.reqs[r].seqs) {
    }
  }
}
