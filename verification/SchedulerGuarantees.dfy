/** What the scheduling loop guarantees: safe preemption, termination in priority order, honest aborts,
    and request ownership. */
module SchedulerGuarantees {
  import opened Arith
  import opened Sequences
  import opened BlockMemory
  import opened BatchInputs
  import opened BatchFaithful
  import opened PagedExecution
  import opened SchedulerState
  import opened SchedulerMemory
  import opened SchedulerInvariants
  import opened SchedulerLoop
  import opened SchedulerTheorems

  /** The victim of a round, if it has one. */
  predicate Preempts(e: Engine, s: State, c: nat, v: nat)
    requires Enabled(e, s, Iterate(c))
  {
    && !AllocateAll(s.mem, s.reqs[c].seqs, e.blockSize).all
    && s.preemptable != [] && v == s.preemptable[|s.preemptable| - 1] && v != c
  }

  // ----- the priority order, in the fields of the requests

  /** a is served before b: a smaller priority value, or the same value and an earlier second. */
  predicate Earlier(a: Request, b: Request) {
    a.priority < b.priority || (a.priority == b.priority && a.created < b.created)
  }

  /** What is taken from the heap has the smallest priority value, and among those the earliest second. */
  lemma TopGoesFirst(reqs: seq<Request>, heap: set<nat>, c: nat, o: nat)
    requires IsTop(reqs, heap, c) && o in heap && o < |reqs|
    ensures reqs[c].priority < reqs[o].priority
         || (reqs[c].priority == reqs[o].priority && reqs[c].created <= reqs[o].created)
  {
    assert !Before(reqs[o], reqs[c]);
  }

  lemma BeforeIsEarlier(a: Request, b: Request)
    ensures Before(a, b) <==> a.priority < b.priority || (a.priority == b.priority && a.created < b.created)
  {
  }

  /** A victim comes strictly after the candidate, and no preemptable request comes after the victim; it waits in the heap
      and is not in the batch. */
  lemma VictimIsLower(e: Engine, s: State, c: nat, v: nat)
    requires Inv(e, s) && KeysDistinct(s.reqs) && Enabled(e, s, Iterate(c)) && Preempts(e, s, c, v)
    ensures v < |s.reqs| && v in s.heap && v !in s.batch
    ensures s.reqs[c].priority < s.reqs[v].priority
         || (s.reqs[c].priority == s.reqs[v].priority && s.reqs[c].created < s.reqs[v].created)
    ensures forall r <- s.preemptable :: r < |s.reqs| && (r == v || Earlier(s.reqs[r], s.reqs[v]))
  {
    assert v in s.preemptable;
    InRange(|s.reqs|, s.intake, s.heap, s.batch, s.done);
    assert !Before(s.reqs[v], s.reqs[c]);
    BeforeIsEarlier(s.reqs[c], s.reqs[v]);
    forall r <- s.preemptable ensures r < |s.reqs| && (r == v || Earlier(s.reqs[r], s.reqs[v])) {
      var i :| 0 <= i < |s.preemptable| && s.preemptable[i] == r;
      BeforeIsEarlier(s.reqs[r], s.reqs[v]);
    }
  }

  /** A preempting round takes the blocks and the cached prefix of every sequence of its victim and of nothing else, and the
      victim's place on the list. */
  lemma PreemptExactly(e: Engine, s: State, c: nat, v: nat)
    requires Inv(e, s) && Enabled(e, s, Iterate(c)) && Preempts(e, s, c, v)
    ensures v < |s.reqs|
    ensures var s' := DoIterate(e, s, c);
            && (forall k <- s.reqs[v].seqs :: s'.mem.seqs[k].blocks == [] && s'.mem.seqs[k].cachePos == 0)
            && (forall k :: 0 <= k < |s.mem.seqs| && k !in s.reqs[v].seqs ==>
                  s'.mem.seqs[k] == AllocateAll(s.mem, s.reqs[c].seqs, e.blockSize).m.seqs[k])
            && s'.preemptable + [v] == s.preemptable
            && s' == s.(mem := s'.mem, preemptable := s'.preemptable)
  {
    assert v in s.preemptable;
    InRange(|s.reqs|, s.intake, s.heap, s.batch, s.done);
    var a := AllocateAll(s.mem, s.reqs[c].seqs, e.blockSize);
    PreemptedState(e, s, c);
    forall k | 0 <= k < |s.mem.seqs|
      ensures DoIterate(e, s, c).mem.seqs[k] == if k in s.reqs[v].seqs then a.m.seqs[k].Release() else a.m.seqs[k]
    {
      ReleaseAllAt(a.m, s.reqs[v].seqs, k);
    }
  }

  lemma AttemptKeepsBatch(e: Engine, s: State, c: nat)
    requires Inv(e, s) && Enabled(e, s, Iterate(c))
    ensures forall k <- s.seqBatch :: k < |s.mem.seqs|
              && AllocateAll(s.mem, s.reqs[c].seqs, e.blockSize).m.seqs[k] == s.mem.seqs[k]
  {
    AllocateAllSafe(e, s.mem, s.reqs[c].seqs);
    InRange(|s.reqs|, s.intake, s.heap, s.batch, s.done);
    BatchUntouched(e, s.reqs, s.mem.seqs, s.batch, s.seqBatch, c, AllocateAll(s.mem, s.reqs[c].seqs, e.blockSize).m.seqs);
  }

  lemma PreemptKeepsBatch(e: Engine, s: State, c: nat, v: nat)
    requires Inv(e, s) && Enabled(e, s, Iterate(c)) && Preempts(e, s, c, v)
    ensures forall k <- s.seqBatch :: k < |s.mem.seqs|
              && ReleaseAll(AllocateAll(s.mem, s.reqs[c].seqs, e.blockSize).m, s.reqs[v].seqs).seqs[k] == s.mem.seqs[k]
  {
    var a := AllocateAll(s.mem, s.reqs[c].seqs, e.blockSize);
    AttemptKeepsBatch(e, s, c);
    AllocateAllSafe(e, s.mem, s.reqs[c].seqs);
    RoundRetries(e, s, c, a);
    assert v in s.preemptable;
    RoundPreempts(e, s.(mem := a.m, preemptable := s.preemptable[..|s.preemptable| - 1]), v);
  }

  /** No round takes anything from a sequence that is already in the batch. */
  lemma BatchKeepsBlocks(e: Engine, s: State, c: nat)
    requires Inv(e, s) && Enabled(e, s, Iterate(c))
    ensures s.seqBatch <= DoIterate(e, s, c).seqBatch
    ensures forall k <- s.seqBatch :: k < |s.mem.seqs| && k < |DoIterate(e, s, c).mem.seqs|
              && DoIterate(e, s, c).mem.seqs[k] == s.mem.seqs[k]
  {
    AttemptKeepsBatch(e, s, c);
    if s.preemptable != [] && Preempts(e, s, c, s.preemptable[|s.preemptable| - 1]) {
      PreemptKeepsBatch(e, s, c, s.preemptable[|s.preemptable| - 1]);
    }
  }

  /** Each round that does not stop the loop makes heap and preemptable list together smaller. */
  lemma RoundsRunOut(e: Engine, s: State, c: nat)
    requires Enabled(e, s, Iterate(c)) && DoIterate(e, s, c).phase == Building
    ensures |DoIterate(e, s, c).heap| + |DoIterate(e, s, c).preemptable| < |s.heap| + |s.preemptable|
  {
    assert c in s.heap;
    assert |s.heap - {c}| == |s.heap| - 1;
  }

  lemma NothingIn(xs: seq<nat>)
    requires forall r: nat :: r !in xs
    ensures xs == []
  {
    if |xs| > 0 { FirstIsIn(xs); }
  }

  lemma FirstIsIn(xs: seq<nat>)
    requires |xs| > 0
    ensures exists r: nat :: r in xs
  {
    assert xs[0] in xs;
  }

  /** The batch is served before what waits, and in order: by smaller priority value, then by earlier second. */
  predicate ServedInOrder(reqs: seq<Request>, batch: seq<nat>, heap: set<nat>) {
    && (forall b, h :: b in batch && h in heap ==> b < |reqs| && h < |reqs| && Earlier(reqs[b], reqs[h]))
    && (forall i, j :: 0 <= i < j < |batch| ==>
          batch[i] < |reqs| && batch[j] < |reqs| && Earlier(reqs[batch[i]], reqs[batch[j]]))
  }

  /** When the loop is over nothing is preemptable, so no name outlives the build; the batch is in priority order, and no
      waiting request has a smaller priority value, or the same value and an earlier second, than a batched one. */
  lemma BuiltInOrder(e: Engine, s: State)
    requires Inv(e, s) && (s.phase == Built || s.phase == Ready || (s.phase == Building && s.heap == {}))
    ensures s.preemptable == []
    ensures ServedInOrder(s.reqs, s.batch, s.heap)
    ensures forall b, h :: b in s.batch && h in s.heap ==>
              && b < |s.reqs| && h < |s.reqs|
              && s.reqs[b].priority <= s.reqs[h].priority
              && (s.reqs[b].priority == s.reqs[h].priority ==> s.reqs[b].created < s.reqs[h].created)
  {
    if s.phase == Building {
      assert forall r :: r !in s.preemptable;
      NothingIn(s.preemptable);
    }
    InRange(|s.reqs|, s.intake, s.heap, s.batch, s.done);
    forall b, h | b in s.batch && h in s.heap ensures b < |s.reqs| && h < |s.reqs| && Earlier(s.reqs[b], s.reqs[h]) {
      BeforeIsEarlier(s.reqs[b], s.reqs[h]);
    }
    forall i, j | 0 <= i < j < |s.batch| ensures Earlier(s.reqs[s.batch[i]], s.reqs[s.batch[j]]) {
      BeforeIsEarlier(s.reqs[s.batch[i]], s.reqs[s.batch[j]]);
    }
  }

  /** A request is given up for lack of memory only when nothing is preemptable, nothing was scheduled, and
      each of its unfinished sequences needs more blocks than are free. */
  lemma AbortIsHonest(e: Engine, s: State, c: nat)
    requires Inv(e, s) && Enabled(e, s, End(c)) && s.seqBatch == [] && s.heap != {}
    ensures s.preemptable == [] && NoneFits(e.blockSize, s.mem, s.reqs[c].seqs)
  {
    assert Stuck(e, s);
  }

  // ----- the two ends of a round and of a build, exactly

  /** An attempt grants slots to exactly those unfinished sequences it can serve, in order, and succeeds exactly when that
      is all of them. */
  lemma {:induction false} AttemptExactly(m: Memory, ids: seq<nat>, blockSize: nat)
    requires Known(m.seqs, ids) && blockSize > 0 && NoDup(ids)
    ensures var a := AllocateAll(m, ids, blockSize);
            && (forall i :: 0 <= i < |ids| && ids[i] in a.granted ==> !m.seqs[ids[i]].cancelled && !m.seqs[ids[i]].stopped)
            && (forall k <- a.granted :: k in ids)
            && (a.all <==> forall i :: 0 <= i < |ids| ==>
                  ids[i] in a.granted || m.seqs[ids[i]].cancelled || m.seqs[ids[i]].stopped)
            && (forall k :: 0 <= k < |m.seqs| ==> a.m.seqs[k] == m.seqs[k].(blocks := a.m.seqs[k].blocks))
  {
    if ids != [] {
      var n, k := |ids| - 1, ids[|ids| - 1];
      AttemptExactly(m, ids[..n], blockSize);
      var p, a := AllocateAll(m, ids[..n], blockSize), AllocateAll(m, ids, blockSize);
      assert k !in ids[..n];
      assert k !in p.granted;
      assert a.granted == p.granted || a.granted == p.granted + [k];
      forall i | 0 <= i < n ensures ids[i] in a.granted <==> ids[i] in p.granted {
        assert ids[i] == ids[..n][i] && ids[i] != k;
      }
    }
  }

  /** The members of xs that are in `keep`, in their order. */
  function Keep(xs: seq<nat>, keep: seq<nat>): seq<nat> {
    if xs == [] then []
    else Keep(xs[..|xs| - 1], keep) + if xs[|xs| - 1] in keep then [xs[|xs| - 1]] else []
  }

  lemma {:induction false} KeepSame(xs: seq<nat>, a: seq<nat>, b: seq<nat>)
    requires forall x <- xs :: x in a <==> x in b
    ensures Keep(xs, a) == Keep(xs, b)
  {
    if xs != [] {
      assert forall x <- xs[..|xs| - 1] :: x in xs;
      assert xs[|xs| - 1] in xs;
      KeepSame(xs[..|xs| - 1], a, b);
    }
  }

  /** The sequences of a request are served, and enter the batch, in their order. */
  lemma {:induction false} GrantedInOrder(m: Memory, ids: seq<nat>, blockSize: nat)
    requires Known(m.seqs, ids) && blockSize > 0 && NoDup(ids)
    ensures AllocateAll(m, ids, blockSize).granted == Keep(ids, AllocateAll(m, ids, blockSize).granted)
  {
    if ids != [] {
      var n, k := |ids| - 1, ids[|ids| - 1];
      GrantedInOrder(m, ids[..n], blockSize);
      AttemptExactly(m, ids[..n], blockSize);
      var p, a := AllocateAll(m, ids[..n], blockSize).granted, AllocateAll(m, ids, blockSize).granted;
      assert k !in ids[..n] && k !in p;
      assert a == p || a == p + [k];
      forall x <- ids[..n] ensures x in a <==> x in p {
        assert x != k;
      }
      KeepSame(ids[..n], a, p);
    }
  }

  /** Recycling parts the previous batch: its finished requests, those with no live sequence, are handed off, and the
      others wait, can be preempted, and keep their blocks and their cached prefixes. */
  lemma {:induction false} RecycledExactly(reqs: seq<Request>, m: Memory, heap: set<nat>, done: seq<nat>, batch: seq<nat>)
    requires KnownAll(m.seqs, reqs) && Handles(reqs, |m.seqs|) && NoDup(batch)
    requires forall i :: 0 <= i < |batch| ==> batch[i] < |reqs|
    ensures var x := RecycleBatch(reqs, m, heap, done, batch);
            && (forall r <- batch :: AllOver(m.seqs, reqs[r].seqs) ==> r in x.done)
            && (forall r <- batch :: !AllOver(m.seqs, reqs[r].seqs) ==> r in x.heap && r in x.preemptable)
            && (forall r <- x.preemptable :: r in batch && !AllOver(m.seqs, reqs[r].seqs))
            && (forall k ::
                  0 <= k < |m.seqs| && (forall r <- batch :: AllOver(m.seqs, reqs[r].seqs) ==> k !in reqs[r].seqs) ==>
                    x.m.seqs[k] == m.seqs[k])
  {
    if batch != [] {
      var r, rest := batch[0], batch[1..];
      assert batch == [r] + rest && r !in rest;
      RecycledExactly(reqs, m, heap, done, rest);
      var x := RecycleBatch(reqs, m, heap, done, rest);
      RestUntouched(reqs, m, heap, done, rest, r);
      assert RequestFinished(x.m.seqs, reqs[r].seqs) <==> AllOver(m.seqs, reqs[r].seqs);
      forall k | 0 <= k < |m.seqs| && k !in reqs[r].seqs ensures ReleaseAll(x.m, reqs[r].seqs).seqs[k] == x.m.seqs[k] {
        ReleaseAllAt(x.m, reqs[r].seqs, k);
      }
    }
  }

  /** No sequence of the request is alive. */
  predicate AllOver(seqs: seq<SeqState>, ids: seq<nat>)
    requires Known(seqs, ids)
  {
    forall i :: 0 <= i < |ids| ==> seqs[ids[i]].cancelled || seqs[ids[i]].stopped
  }

  lemma {:induction false} RestUntouched(reqs: seq<Request>, m: Memory, heap: set<nat>, done: seq<nat>, rest: seq<nat>, r: nat)
    requires KnownAll(m.seqs, reqs) && Handles(reqs, |m.seqs|) && r < |reqs| && r !in rest
    requires forall i :: 0 <= i < |rest| ==> rest[i] < |reqs|
    ensures forall k <- reqs[r].seqs :: RecycleBatch(reqs, m, heap, done, rest).m.seqs[k] == m.seqs[k]
  {
    if rest != [] {
      RestUntouched(reqs, m, heap, done, rest[1..], r);
      var x := RecycleBatch(reqs, m, heap, done, rest[1..]);
      forall k <- reqs[r].seqs ensures ReleaseAll(x.m, reqs[rest[0]].seqs).seqs[k] == x.m.seqs[k] {
        HandleElsewhere(reqs, |m.seqs|, r, rest[0], k);
        ReleaseAllAt(x.m, reqs[rest[0]].seqs, k);
      }
    }
  }

  /** The intake queue never holds more than its capacity. */
  lemma {:induction false} IntakeBounded(e: Engine, s: State, evs: seq<Event>)
    requires Valid(e, s, evs) && |s.intake| <= e.capacity
    ensures |After(e, s, evs).intake| <= e.capacity
    decreases |evs|
  {
    if evs != [] {
      IntakeStep(e, s, evs[0]);
      IntakeBounded(e, Next(e, s, evs[0]), evs[1..]);
    }
  }

  lemma IntakeStep(e: Engine, s: State, ev: Event)
    requires Enabled(e, s, ev) && |s.intake| <= e.capacity
    ensures |Next(e, s, ev).intake| <= e.capacity
  {
  }

  /** An arrival that finds room is recorded as it came, with fresh sequences for its prompts; one that does not changes
      nothing. */
  lemma ArrivalExactly(e: Engine, s: State, prompts: seq<Prompt>, priority: int, created: int)
    requires Enabled(e, s, Arrive(prompts, priority, created))
    ensures var t, r, n := DoArrive(e, s, prompts, priority, created), |s.reqs|, |s.mem.seqs|;
            if |s.intake| >= e.capacity then t == s
            else
              && |t.reqs| == r + 1 && t.reqs[..r] == s.reqs && t.intake == s.intake + [r]
              && t.reqs[r].priority == priority && t.reqs[r].created == created && |t.reqs[r].seqs| == |prompts|
              && |t.mem.seqs| == n + |prompts| && t.mem.seqs[..n] == s.mem.seqs
              && (forall i :: 0 <= i < |prompts| ==>
                    && t.reqs[r].seqs[i] == n + i
                    && t.mem.seqs[n + i].tokens == prompts[i].tokens && t.mem.seqs[n + i].settings == prompts[i].settings
                    && t.mem.seqs[n + i].promptLen == |prompts[i].tokens| && t.mem.seqs[n + i].blocks == []
                    && t.mem.seqs[n + i].cachePos == 0 && !t.mem.seqs[n + i].Finished())
  {
  }

  // ----- ownership

  /** Hand-off is final: over any run the list of handed-off requests only grows. */
  lemma {:induction false} DoneGrows(e: Engine, s: State, evs: seq<Event>)
    requires Inv(e, s) && Valid(e, s, evs) && KeysDistinct(After(e, s, evs).reqs)
    ensures s.done <= After(e, s, evs).done
    decreases |evs|
  {
    if evs != [] {
      var s' := Next(e, s, evs[0]);
      RequestsGrow(e, s, evs);
      StepKeeps(e, s, evs[0]);
      DoneGrows(e, s', evs[1..]);
      DoneKept(e, s, evs[0]);
    }
  }

  lemma DoneKept(e: Engine, s: State, ev: Event)
    requires Enabled(e, s, ev) && Sorted(s.reqs, s.batch)
    ensures s.done <= Next(e, s, ev).done
  {
    if ev.Begin? {
      RecycleBatchPlaces(s.reqs, s.mem, s.heap + Elements(s.intake), s.done, s.batch);
    }
  }

  /** In every reachable state each accepted request is in exactly one of intake queue, heap, batch or
      handed off, once; and a handed-off request holds no blocks. */
  lemma EveryRequestOwned(e: Engine, s: State, r: nat)
    requires Reachable(e, s) && KeysDistinct(s.reqs) && r < |s.reqs|
    ensures multiset(s.intake)[r] + (if r in s.heap then 1 else 0) + multiset(s.batch)[r] + multiset(s.done)[r] == 1
    ensures r in s.done ==> NoBlocks(s.mem.seqs, s.reqs[r].seqs)
  {
    ReachableInv(e, s);
    assert (multiset(s.intake) + multiset(s.heap) + multiset(s.batch) + multiset(s.done))[r] == Ids(|s.reqs|)[r];
    assert multiset(s.heap)[r] == if r in s.heap then 1 else 0;
  }

  /** In every reachable state the free list and the blocks of all sequences are together 0 .. numBlocks - 1,
      each once, and every sequence holds at most the blocks it needs; exactly those, once it is scheduled. */
  lemma BlocksConservedAndTight(e: Engine, s: State)
    requires Reachable(e, s) && KeysDistinct(s.reqs)
    ensures e.blockSize > 0
    ensures multiset(s.mem.free) + Held(s.mem.seqs) == Pool(e.numBlocks)
    ensures forall k :: 0 <= k < |s.mem.seqs| ==>
              |s.mem.seqs[k].blocks| <= CeilDiv(|s.mem.seqs[k].tokens|, e.blockSize)
    ensures s.phase == Ready ==>
              (forall k <- s.seqBatch ::
                 k < |s.mem.seqs| && |s.mem.seqs[k].blocks| == CeilDiv(|s.mem.seqs[k].tokens|, e.blockSize))
  {
    ReachableInv(e, s);
    forall k | 0 <= k < |s.mem.seqs|
      ensures |s.mem.seqs[k].blocks| <= CeilDiv(|s.mem.seqs[k].tokens|, e.blockSize)
    {
      assert Healthy(s.mem.seqs[k], e.blockSize);
    }
  }
}
