/** The scheduling loop keeps the invariant, and what it guarantees round by round. */
module SchedulerLoop {
  import opened Arith
  import opened Sequences
  import opened BlockMemory
  import opened BatchInputs
  import opened BatchFaithful
  import opened PagedExecution
  import opened SchedulerState
  import opened SchedulerMemory
  import opened SchedulerInvariants

  lemma HandleElsewhere(reqs: seq<Request>, n: nat, q: nat, r: nat, k: nat)
    requires Handles(reqs, n) && q < |reqs| && r < |reqs| && q != r && k in reqs[q].seqs
    ensures k !in reqs[r].seqs
  {
  }

  // ----- the attempt to allocate

  lemma AttemptStore(e: Engine, reqs: seq<Request>, m: Memory, cache: seq<KV>, done: seq<nat>, c: nat, a: Attempt)
    requires e.blockSize > 0 && StoreInv(e, reqs, m, cache, done)
    requires c < |reqs| && c !in done && AttemptOk(e, m, reqs[c].seqs, a)
    ensures StoreInv(e, reqs, a.m, cache, done)
  {
    forall k | 0 <= k < |m.seqs| ensures CachedPrefix(e.f, cache, a.m.seqs[k], e.blockSize) {
      CachedGrown(e, cache, m.seqs[k], a.m.seqs[k]);
    }
    forall r <- done ensures NoBlocks(a.m.seqs, reqs[r].seqs) {
      assert NoBlocks(m.seqs, reqs[r].seqs);
      forall i | 0 <= i < |reqs[r].seqs| ensures a.m.seqs[reqs[r].seqs[i]].blocks == [] {
        HandleElsewhere(reqs, |m.seqs|, r, c, reqs[r].seqs[i]);
      }
    }
  }

  /** Sequences already in the batch are left alone by whatever happens to another request. */
  lemma BatchUntouched(e: Engine, reqs: seq<Request>, seqs: seq<SeqState>, batch: seq<nat>, seqBatch: seq<nat>,
                       r: nat, seqs': seq<SeqState>)
    requires e.blockSize > 0 && Handles(reqs, |seqs|) && r < |reqs| && r !in batch && |seqs'| == |seqs|
    requires Scheduled(e.blockSize, reqs, seqs, batch, seqBatch)
    requires forall k :: 0 <= k < |seqs| && k !in reqs[r].seqs ==> seqs'[k] == seqs[k]
    ensures Scheduled(e.blockSize, reqs, seqs', batch, seqBatch)
    ensures forall k <- seqBatch :: k !in reqs[r].seqs && seqs'[k] == seqs[k]
  {
    forall k <- seqBatch ensures k !in reqs[r].seqs && seqs'[k] == seqs[k] {
      assert OwnerIn(reqs, batch, k);
      var q :| q in batch && q < |reqs| && k in reqs[q].seqs;
      HandleElsewhere(reqs, |seqs|, q, r, k);
    }
  }

  lemma BatchExtended(e: Engine, reqs: seq<Request>, seqs: seq<SeqState>, batch: seq<nat>, seqBatch: seq<nat>,
                      c: nat, granted: seq<nat>)
    requires e.blockSize > 0 && c < |reqs| && Scheduled(e.blockSize, reqs, seqs, batch, seqBatch)
    requires forall k <- seqBatch :: k !in reqs[c].seqs
    requires NoDup(granted)
    requires forall k <- granted :: k in reqs[c].seqs && k < |seqs| && Granted(seqs[k], e.blockSize)
    ensures Scheduled(e.blockSize, reqs, seqs, batch + [c], seqBatch + granted)
  {
    var batch', seqBatch' := batch + [c], seqBatch + granted;
    forall k <- seqBatch' ensures k < |seqs| && Granted(seqs[k], e.blockSize) && OwnerIn(reqs, batch', k) {
      if k in granted {
        assert c in batch';
      } else {
        assert OwnerIn(reqs, batch, k);
        var r :| r in batch && r < |reqs| && k in reqs[r].seqs;
        assert r in batch';
      }
    }
    forall i, j | 0 <= i < j < |seqBatch'| ensures seqBatch'[i] != seqBatch'[j] {
      if i < |seqBatch| <= j {
        assert seqBatch'[i] in seqBatch && seqBatch'[j] in granted;
      }
    }
  }

  // ----- the order of the containers

  /** If the top of the heap is preemptable at all, it is the first preemptable request. */
  lemma TopIsFront(reqs: seq<Request>, heap: set<nat>, preemptable: seq<nat>, c: nat)
    requires IsTop(reqs, heap, c) && Sorted(reqs, preemptable) && forall r <- preemptable :: r in heap
    requires c in preemptable
    ensures preemptable[0] == c && c !in preemptable[1..]
  {
    var i :| 0 <= i < |preemptable| && preemptable[i] == c;
    assert preemptable[0] in preemptable;
  }

  lemma TopPrecedes(reqs: seq<Request>, heap: set<nat>, batch: seq<nat>, c: nat)
    requires KeysDistinct(reqs) && IsTop(reqs, heap, c) && Precede(reqs, batch, heap) && Sorted(reqs, batch)
    ensures Precede(reqs, batch + [c], heap - {c}) && Sorted(reqs, batch + [c])
  {
    forall h <- heap - {c} | h < |reqs| ensures Before(reqs[c], reqs[h]) {
      assert !Before(reqs[h], reqs[c]);
      if h < c { assert Before(reqs[h], reqs[c]) || Before(reqs[c], reqs[h]); }
    }
    assert forall i :: 0 <= i < |batch| ==> batch[i] in batch;
  }

  lemma ScheduledPlaces(s: State, c: nat, preemptable: seq<nat>, s': State)
    requires PlaceInv(s) && s.phase != Idle && IsTop(s.reqs, s.heap, c)
    requires KeysDistinct(s.reqs) && Precede(s.reqs, s.batch, s.heap)
    requires preemptable == if s.preemptable != [] && s.preemptable[0] == c then s.preemptable[1..] else s.preemptable
    requires s'.reqs == s.reqs && s'.intake == s.intake && s'.done == s.done
    requires s'.heap == s.heap - {c} && s'.batch == s.batch + [c] && s'.preemptable == preemptable
    requires s'.phase == s.phase || s.preemptable == []
    ensures PlaceInv(s') && Precede(s'.reqs, s'.batch, s'.heap)
  {
    TopPrecedes(s.reqs, s.heap, s.batch, c);
    OwnedSchedule(|s.reqs|, s.intake, s.heap, s.batch, s.done, c);
    TopRemoved(s.reqs, s.heap, s.preemptable, c, preemptable);
  }

  /** Taking the front off the list when it is the top leaves a sorted part of the rest of the heap. */
  lemma TopRemoved(reqs: seq<Request>, heap: set<nat>, list: seq<nat>, c: nat, rest: seq<nat>)
    requires IsTop(reqs, heap, c) && Sorted(reqs, list) && forall r <- list :: r in heap
    requires rest == if list != [] && list[0] == c then list[1..] else list
    ensures Sorted(reqs, rest) && forall r <- rest :: r in heap - {c}
  {
    if c in list { TopIsFront(reqs, heap, list, c); }
    assert forall i :: 0 <= i < |rest| ==> rest[i] in rest;
  }

  // ----- one round

  lemma RoundSchedules(e: Engine, s: State, c: nat, a: Attempt, preemptable: seq<nat>, s': State)
    requires Inv(e, s) && s.phase == Building && IsTop(s.reqs, s.heap, c) && KeysDistinct(s.reqs)
    requires AttemptOk(e, s.mem, s.reqs[c].seqs, a)
    requires preemptable == if s.preemptable != [] && s.preemptable[0] == c then s.preemptable[1..] else s.preemptable
    requires s' == Schedule(s.(mem := a.m), c, a.granted).(preemptable := preemptable, phase := s'.phase)
    requires s'.phase == Building || (s'.phase == Built && s.preemptable == [] && s'.seqBatch != [])
    ensures Inv(e, s')
  {
    InRange(|s.reqs|, s.intake, s.heap, s.batch, s.done);
    AttemptStore(e, s.reqs, s.mem, s.cache, s.done, c, a);
    BatchUntouched(e, s.reqs, s.mem.seqs, s.batch, s.seqBatch, c, a.m.seqs);
    BatchExtended(e, s.reqs, a.m.seqs, s.batch, s.seqBatch, c, a.granted);
    ScheduledPlaces(s, c, preemptable, s');
    assert Known(s'.mem.seqs, s'.seqBatch) by {
      forall i | 0 <= i < |s'.seqBatch| ensures s'.seqBatch[i] < |s'.mem.seqs| {
        assert s'.seqBatch[i] in s'.seqBatch;
      }
    }
  }

  /** Whatever happens to the memory of the candidate alone, the batch under construction stands. */
  lemma RoundRetries(e: Engine, s: State, c: nat, a: Attempt)
    requires Inv(e, s) && s.phase == Building && IsTop(s.reqs, s.heap, c) && s.preemptable != []
    requires AttemptOk(e, s.mem, s.reqs[c].seqs, a)
    ensures Inv(e, s.(mem := a.m, preemptable := s.preemptable[..|s.preemptable| - 1]))
  {
    var n := |s.preemptable| - 1;
    InRange(|s.reqs|, s.intake, s.heap, s.batch, s.done);
    AttemptStore(e, s.reqs, s.mem, s.cache, s.done, c, a);
    BatchUntouched(e, s.reqs, s.mem.seqs, s.batch, s.seqBatch, c, a.m.seqs);
    assert forall r <- s.preemptable[..n] :: r in s.preemptable;
  }

  /** A waiting request can be stripped of its blocks: no request in the batch loses any. */
  lemma ReleaseStore(e: Engine, reqs: seq<Request>, m: Memory, cache: seq<KV>, done: seq<nat>, v: nat)
    requires e.blockSize > 0 && StoreInv(e, reqs, m, cache, done) && v < |reqs|
    ensures StoreInv(e, reqs, ReleaseAll(m, reqs[v].seqs), cache, done + [v])
  {
    var m' := ReleaseAll(m, reqs[v].seqs);
    ReleaseAllSafe(e, m, reqs[v].seqs);
    KeptStore(e, reqs, m, cache, done, m');
    assert NoBlocks(m'.seqs, reqs[v].seqs) by {
      assert forall i :: 0 <= i < |reqs[v].seqs| ==> reqs[v].seqs[i] in reqs[v].seqs;
    }
    OneMoreDone(reqs, m'.seqs, done, v);
  }

  lemma OneMoreDone(reqs: seq<Request>, seqs: seq<SeqState>, done: seq<nat>, v: nat)
    requires v < |reqs| && DoneReleased(reqs, seqs, done) && NoBlocks(seqs, reqs[v].seqs)
    ensures DoneReleased(reqs, seqs, done + [v])
  {
  }

  lemma FewerDone(e: Engine, reqs: seq<Request>, m: Memory, cache: seq<KV>, done: seq<nat>, v: nat)
    requires e.blockSize > 0 && StoreInv(e, reqs, m, cache, done + [v])
    ensures StoreInv(e, reqs, m, cache, done)
  {
    assert forall r <- done :: r in done + [v];
  }

  lemma RoundPreempts(e: Engine, s: State, v: nat)
    requires Inv(e, s) && s.phase == Building && v in s.heap
    ensures v < |s.reqs| && Inv(e, s.(mem := ReleaseAll(s.mem, s.reqs[v].seqs)))
    ensures forall k <- s.seqBatch :: ReleaseAll(s.mem, s.reqs[v].seqs).seqs[k] == s.mem.seqs[k]
  {
    InRange(|s.reqs|, s.intake, s.heap, s.batch, s.done);
    var m' := ReleaseAll(s.mem, s.reqs[v].seqs);
    ReleaseStore(e, s.reqs, s.mem, s.cache, s.done, v);
    FewerDone(e, s.reqs, m', s.cache, s.done, v);
    ReleaseAllSafe(e, s.mem, s.reqs[v].seqs);
    BatchUntouched(e, s.reqs, s.mem.seqs, s.batch, s.seqBatch, v, m'.seqs);
  }

  /** With distinct keys the top of the heap is unique. */
  lemma TopUnique(reqs: seq<Request>, heap: set<nat>, c: nat, d: nat)
    requires KeysDistinct(reqs) && IsTop(reqs, heap, c) && IsTop(reqs, heap, d)
    ensures c == d
  {
    assert !Before(reqs[c], reqs[d]) && !Before(reqs[d], reqs[c]);
  }

  lemma RoundStops(e: Engine, s: State, c: nat, a: Attempt)
    requires Inv(e, s) && s.phase == Building && IsTop(s.reqs, s.heap, c) && KeysDistinct(s.reqs)
    requires AttemptOk(e, s.mem, s.reqs[c].seqs, a) && s.preemptable == [] && a.granted == []
    ensures Inv(e, s.(mem := a.m, phase := Built))
  {
    var s' := s.(phase := Built);
    assert NoneFits(e.blockSize, s.mem, s.reqs[c].seqs);
    forall d <- s.heap | IsTop(s.reqs, s.heap, d) ensures NoneFits(e.blockSize, s'.mem, s.reqs[d].seqs) {
      TopUnique(s.reqs, s.heap, c, d);
    }
    assert Stuck(e, s');
  }

  lemma IterateSchedules(e: Engine, s: State, c: nat)
    requires Inv(e, s) && Enabled(e, s, Iterate(c)) && KeysDistinct(s.reqs)
    requires var a := AllocateAll(s.mem, s.reqs[c].seqs, e.blockSize); a.all || (s.preemptable == [] && a.granted != [])
    ensures Inv(e, DoIterate(e, s, c))
  {
    var a := AllocateAll(s.mem, s.reqs[c].seqs, e.blockSize);
    AllocateAllSafe(e, s.mem, s.reqs[c].seqs);
    var preemptable := if s.preemptable != [] && s.preemptable[0] == c then s.preemptable[1..] else s.preemptable;
    RoundSchedules(e, s, c, a, preemptable, DoIterate(e, s, c));
  }

  /** What a round that preempts leads to. */
  lemma PreemptedState(e: Engine, s: State, c: nat)
    requires e.blockSize > 0 && Named(s) && c < |s.reqs| && s.preemptable != []
    requires !AllocateAll(s.mem, s.reqs[c].seqs, e.blockSize).all
    ensures var a, n := AllocateAll(s.mem, s.reqs[c].seqs, e.blockSize), |s.preemptable| - 1;
            var s1 := s.(mem := a.m, preemptable := s.preemptable[..n]);
            DoIterate(e, s, c) == if s.preemptable[n] == c then s1
                                  else s1.(mem := ReleaseAll(a.m, s.reqs[s.preemptable[n]].seqs))
  {
  }

  lemma IteratePreempts(e: Engine, s: State, c: nat)
    requires Inv(e, s) && Enabled(e, s, Iterate(c)) && KeysDistinct(s.reqs)
    requires !AllocateAll(s.mem, s.reqs[c].seqs, e.blockSize).all && s.preemptable != []
    ensures Inv(e, DoIterate(e, s, c))
  {
    var a := AllocateAll(s.mem, s.reqs[c].seqs, e.blockSize);
    AllocateAllSafe(e, s.mem, s.reqs[c].seqs);
    RoundRetries(e, s, c, a);
    PreemptedState(e, s, c);
    var n := |s.preemptable| - 1;
    if s.preemptable[n] != c {
      assert s.preemptable[n] in s.preemptable;
      RoundPreempts(e, s.(mem := a.m, preemptable := s.preemptable[..n]), s.preemptable[n]);
    }
  }

  lemma IterateStops(e: Engine, s: State, c: nat)
    requires Inv(e, s) && Enabled(e, s, Iterate(c)) && KeysDistinct(s.reqs)
    requires var a := AllocateAll(s.mem, s.reqs[c].seqs, e.blockSize); !a.all && s.preemptable == [] && a.granted == []
    ensures Inv(e, DoIterate(e, s, c))
  {
    AllocateAllSafe(e, s.mem, s.reqs[c].seqs);
    RoundStops(e, s, c, AllocateAll(s.mem, s.reqs[c].seqs, e.blockSize));
  }

  lemma IterateKeeps(e: Engine, s: State, c: nat)
    requires Inv(e, s) && Enabled(e, s, Iterate(c)) && KeysDistinct(s.reqs)
    ensures Inv(e, DoIterate(e, s, c))
  {
    var a := AllocateAll(s.mem, s.reqs[c].seqs, e.blockSize);
    if a.all || (s.preemptable == [] && a.granted != []) {
      IterateSchedules(e, s, c);
    } else if s.preemptable != [] {
      IteratePreempts(e, s, c);
    } else {
      IterateStops(e, s, c);
    }
  }

  lemma EndKeeps(e: Engine, s: State, c: nat)
    requires Inv(e, s) && Enabled(e, s, End(c))
    ensures Inv(e, DoEnd(s, c))
  {
    if s.seqBatch == [] && s.heap != {} {
      InRange(|s.reqs|, s.intake, s.heap, s.batch, s.done);
      ReleaseStore(e, s.reqs, s.mem, s.cache, s.done, c);
      OwnedSchedule(|s.reqs|, s.intake, s.heap, s.batch, s.done, c);
    } else {
      assert s.heap == {} ==> s.preemptable == [] by {
        if s.preemptable != [] { assert s.preemptable[0] in s.preemptable; }
      }
    }
  }
}
