/** With no further arrivals the engine drains: a bounded number of builds serves every accepted request
    (src/scheduler/continuous_batching_scheduler.cpp). */
module Draining {
  import opened Sequences
  import opened BlockMemory
  import opened BatchInputs
  import opened PagedExecution
  import opened SchedulerState
  import opened SchedulerMemory
  import opened SchedulerInvariants
  import opened SchedulerLoop
  import opened SchedulerExecution
  import opened SequenceLife
  import opened SchedulerTheorems
  import opened SchedulerGuarantees
  import opened SchedulerFacts

  // ----- the work that is left

  /** The tokens a sequence may still be given. */
  function Left(t: SeqState): nat {
    if t.Finished() || |t.tokens| >= t.promptLen + t.settings.maxTokens then 0
    else t.promptLen + t.settings.maxTokens - |t.tokens|
  }

  function SumLeft(seqs: seq<SeqState>): nat {
    if seqs == [] then 0 else SumLeft(seqs[..|seqs| - 1]) + Left(seqs[|seqs| - 1])
  }

  predicate Limited(seqs: seq<SeqState>) { forall k :: 0 <= k < |seqs| ==> seqs[k].settings.maxTokens > 0 }

  /** Tokens and hand-offs to come. */
  function Work(s: State): int { SumLeft(s.mem.seqs) + |s.reqs| - |s.done| }

  /** No sequence has more left in b than in a. */
  predicate NoMore(a: seq<SeqState>, b: seq<SeqState>) {
    |a| == |b| && forall k :: 0 <= k < |a| ==> Left(b[k]) <= Left(a[k])
  }

  lemma {:induction false} SumShrinks(a: seq<SeqState>, b: seq<SeqState>)
    requires NoMore(a, b)
    ensures SumLeft(b) <= SumLeft(a)
  {
    if a != [] { SumShrinks(a[..|a| - 1], b[..|b| - 1]); }
  }

  lemma {:induction false} SumDrops(a: seq<SeqState>, b: seq<SeqState>, k: nat)
    requires NoMore(a, b) && k < |a| && Left(b[k]) < Left(a[k])
    ensures SumLeft(b) < SumLeft(a)
  {
    var n := |a| - 1;
    if k < n { SumDrops(a[..n], b[..n], k); } else { SumShrinks(a[..n], b[..n]); }
  }

  lemma EvolvesLeft(a: SeqState, b: SeqState)
    requires Evolves(a, b)
    ensures Left(b) <= Left(a)
    ensures |b.tokens| > |a.tokens| && |a.tokens| < a.promptLen + a.settings.maxTokens ==> Left(b) < Left(a)
  {
  }

  lemma SameStore(e: Engine, s: State, ev: Event)
    requires Enabled(e, s, ev) && !ev.Arrive?
    ensures |Next(e, s, ev).mem.seqs| == |s.mem.seqs| && Next(e, s, ev).reqs == s.reqs
  {
    if ev.Iterate? { IterateText(e, s, ev.c); }
  }

  lemma BatchDistinct(e: Engine, s: State, ev: Event)
    requires Inv(e, s) && Enabled(e, s, ev) && ev.Execute?
    ensures NoDup(s.seqBatch)
  {
  }

  /** No event but an arrival adds work. */
  lemma LeftShrinks(e: Engine, s: State, ev: Event)
    requires Inv(e, s) && Enabled(e, s, ev) && !ev.Arrive?
    ensures NoMore(s.mem.seqs, Next(e, s, ev).mem.seqs)
    ensures SumLeft(Next(e, s, ev).mem.seqs) <= SumLeft(s.mem.seqs)
    ensures Limited(s.mem.seqs) ==> Limited(Next(e, s, ev).mem.seqs)
  {
    var seqs' := Next(e, s, ev).mem.seqs;
    SameStore(e, s, ev);
    if ev.Execute? { BatchDistinct(e, s, ev); }
    forall k | 0 <= k < |s.mem.seqs|
      ensures Left(seqs'[k]) <= Left(s.mem.seqs[k]) && seqs'[k].settings == s.mem.seqs[k].settings
    {
      StepEvolves(e, s, ev, k);
      EvolvesLeft(s.mem.seqs[k], seqs'[k]);
    }
    SumShrinks(s.mem.seqs, seqs');
  }

  lemma RunnableLeft(e: Engine, s: State, k: nat)
    requires Inv(e, s) && Named(s) && Passes(e, s) && Limited(s.mem.seqs) && k in s.seqBatch
    ensures |s.mem.seqs[k].tokens| < s.mem.seqs[k].promptLen + s.mem.seqs[k].settings.maxTokens
    ensures !s.mem.seqs[k].Finished()
  {
    var i :| 0 <= i < |s.seqBatch| && s.seqBatch[i] == k;
    assert BatchOf(s)[i] in BatchOf(s) && Runnable(BatchOf(s)[i], e.blockSize);
    assert Healthy(s.mem.seqs[k], e.blockSize);
  }

  /** An execution takes at least one token off what is left. */
  lemma ExecutionWorks(e: Engine, s: State, ev: Event)
    requires Inv(e, s) && Enabled(e, s, ev) && ev.Execute? && s.seqBatch != [] && Limited(s.mem.seqs)
    ensures SumLeft(Next(e, s, ev).mem.seqs) < SumLeft(s.mem.seqs)
  {
    var seqs, seqs', k := s.mem.seqs, Next(e, s, ev).mem.seqs, s.seqBatch[0];
    LeftShrinks(e, s, ev);
    FirstDrops(e, s, ev);
    SumDrops(seqs, seqs', k);
  }

  lemma FirstDrops(e: Engine, s: State, ev: Event)
    requires Inv(e, s) && Enabled(e, s, ev) && ev.Execute? && s.seqBatch != [] && Limited(s.mem.seqs)
    ensures var k := s.seqBatch[0];
            k < |Next(e, s, ev).mem.seqs| && Left(Next(e, s, ev).mem.seqs[k]) < Left(s.mem.seqs[k])
  {
    var k := s.seqBatch[0];
    BatchDistinct(e, s, ev);
    RunnableLeft(e, s, k);
    StepEvolves(e, s, ev, k);
    assert !s.mem.seqs[k].Finished() by { RunnableLeft(e, s, k); }
    EvolvesLeft(s.mem.seqs[k], Next(e, s, ev).mem.seqs[k]);
  }

  // ----- requests

  predicate AllFinished(reqs: seq<Request>, seqs: seq<SeqState>, batch: seq<nat>)
    requires KnownAll(seqs, reqs)
  {
    forall r <- batch :: r < |reqs| && RequestFinished(seqs, reqs[r].seqs)
  }

  /** What holds between builds when nothing arrives: a ready batch is not empty, a build has emptied the intake, and
      requests that were batched without any sequence are finished. */
  predicate Settled(s: State)
    requires KnownAll(s.mem.seqs, s.reqs)
  {
    && (s.phase == Ready ==> s.seqBatch != [])
    && (s.phase != Idle ==> s.intake == [])
    && (s.phase != Idle && s.seqBatch == [] ==> AllFinished(s.reqs, s.mem.seqs, s.batch))
  }

  lemma FinishedStays(reqs: seq<Request>, seqs: seq<SeqState>, seqs': seq<SeqState>, batch: seq<nat>)
    requires KnownAll(seqs, reqs) && KnownAll(seqs', reqs) && AllFinished(reqs, seqs, batch) && SameTexts(seqs, seqs')
    ensures AllFinished(reqs, seqs', batch)
  {
    forall r <- batch ensures r < |reqs| && RequestFinished(seqs', reqs[r].seqs) {
      forall i | 0 <= i < |reqs[r].seqs| ensures seqs'[reqs[r].seqs[i]].Finished() {
        assert SameText(seqs[reqs[r].seqs[i]], seqs'[reqs[r].seqs[i]]);
      }
    }
  }

  /** An attempt that succeeds without granting anything was made for a finished request. */
  lemma {:induction false} NothingGranted(m: Memory, ids: seq<nat>, blockSize: nat)
    requires Known(m.seqs, ids) && blockSize > 0
    ensures var a := AllocateAll(m, ids, blockSize);
            a.all && a.granted == [] ==> a.m == m && RequestFinished(m.seqs, ids)
  {
    if ids != [] {
      NothingGranted(m, ids[..|ids| - 1], blockSize);
    }
  }

  /** What a round does to the two batches: nothing, or it adds the candidate and what it was granted. */
  lemma IterateShape(e: Engine, s: State, c: nat)
    requires Enabled(e, s, Iterate(c))
    ensures var a, s' := AllocateAll(s.mem, s.reqs[c].seqs, e.blockSize), DoIterate(e, s, c);
            && (s'.phase == Building || s'.phase == Built) && s'.intake == s.intake && s'.reqs == s.reqs && s'.done == s.done
            && (|| (s'.batch == s.batch && s'.seqBatch == s.seqBatch)
                || (s'.batch == s.batch + [c] && s'.seqBatch == s.seqBatch + a.granted && (a.all || a.granted != [])))
  {
  }

  lemma OneMoreFinished(reqs: seq<Request>, seqs: seq<SeqState>, batch: seq<nat>, c: nat)
    requires KnownAll(seqs, reqs) && AllFinished(reqs, seqs, batch) && c < |reqs| && RequestFinished(seqs, reqs[c].seqs)
    ensures AllFinished(reqs, seqs, batch + [c])
  {
  }

  lemma IterateSettled(e: Engine, s: State, c: nat)
    requires Inv(e, s) && Enabled(e, s, Iterate(c)) && Settled(s)
    ensures KnownAll(DoIterate(e, s, c).mem.seqs, s.reqs) && Settled(DoIterate(e, s, c))
  {
    var s' := DoIterate(e, s, c);
    IterateText(e, s, c);
    IterateShape(e, s, c);
    NothingGranted(s.mem, s.reqs[c].seqs, e.blockSize);
    if s'.seqBatch == [] {
      if s'.batch == s.batch {
        FinishedStays(s.reqs, s.mem.seqs, s'.mem.seqs, s.batch);
      } else {
        OneMoreFinished(s.reqs, s.mem.seqs, s.batch, c);
        FinishedStays(s.reqs, s.mem.seqs, s'.mem.seqs, s'.batch);
      }
    }
  }

  lemma SettledKept(e: Engine, s: State, ev: Event)
    requires Inv(e, s) && Enabled(e, s, ev) && !ev.Arrive? && Settled(s) && Inv(e, Next(e, s, ev))
    ensures Settled(Next(e, s, ev))
  {
    match ev
    case Iterate(c) => IterateSettled(e, s, c);
    case Cancel(k) =>
      StepText(e, s, ev);
      if s.phase != Idle && s.seqBatch == [] { FinishedStays(s.reqs, s.mem.seqs, Next(e, s, ev).mem.seqs, s.batch); }
    case Begin => assert Next(e, s, ev).batch == [];
    case End(c) =>
    case Execute(_) => assert Next(e, s, ev).phase == Idle;
  }

  // ----- being done

  predicate AllDone(s: State) { forall r :: 0 <= r < |s.reqs| ==> r in s.done }

  lemma {:induction false} IdsSize(n: nat)
    ensures |Ids(n)| == n
  {
    if n > 0 { IdsSize(n - 1); }
  }

  lemma DoneCount(e: Engine, s: State)
    requires Inv(e, s)
    ensures |s.done| <= |s.reqs|
  {
    IdsSize(|s.reqs|);
    assert multiset(s.done) <= Ids(|s.reqs|);
    assert Ids(|s.reqs|) == multiset(s.done) + (Ids(|s.reqs|) - multiset(s.done));
  }

  lemma NowhereElse(n: nat, intake: seq<nat>, heap: set<nat>, batch: seq<nat>, done: seq<nat>, r: nat)
    requires Owned(n, intake, heap, batch, done) && (r < n ==> r in done)
    ensures r !in intake && r !in heap && r !in batch
  {
    assert (multiset(intake) + multiset(heap) + multiset(batch) + multiset(done))[r] == Ids(n)[r];
    assert r < n ==> r in multiset(done);
    assert multiset(intake)[r] + multiset(heap)[r] + multiset(batch)[r] == 0;
    assert r !in multiset(intake) && r !in multiset(heap) && r !in multiset(batch);
  }

  /** Everything handed off: the other places are empty. */
  lemma DoneIsEverywhere(e: Engine, s: State)
    requires Inv(e, s) && AllDone(s)
    ensures s.intake == [] && s.heap == {} && s.batch == []
  {
    forall r: nat ensures r !in s.intake && r !in s.heap && r !in s.batch {
      NowhereElse(|s.reqs|, s.intake, s.heap, s.batch, s.done, r);
    }
    NothingIn(s.intake);
    NothingIn(s.batch);
  }

  /** Nothing is left but the hand-off of finished requests. */
  predicate LastCall(s: State)
    requires KnownAll(s.mem.seqs, s.reqs)
  {
    s.phase == Idle && s.intake == [] && s.heap == {} && AllFinished(s.reqs, s.mem.seqs, s.batch)
  }

  lemma {:induction false} HandOffAll(reqs: seq<Request>, m: Memory, heap: set<nat>, done: seq<nat>, batch: seq<nat>)
    requires KnownAll(m.seqs, reqs) && AllFinished(reqs, m.seqs, batch)
    requires forall i :: 0 <= i < |batch| ==> batch[i] < |reqs|
    ensures var x := RecycleBatch(reqs, m, heap, done, batch); x.heap == heap && x.preemptable == []
  {
    if batch != [] {
      HandOffAll(reqs, m, heap, done, batch[1..]);
      var x := RecycleBatch(reqs, m, heap, done, batch[1..]);
      RecycleText(reqs, m, heap, done, batch[1..]);
      assert batch[0] in batch;
      FinishedStays(reqs, m.seqs, x.m.seqs, batch);
    }
  }

  lemma LastCallServes(e: Engine, s: State)
    requires Inv(e, s) && Enabled(e, s, Begin) && LastCall(s) && Inv(e, DoBegin(s))
    ensures AllDone(DoBegin(s))
  {
    var s' := DoBegin(s);
    HandOffAll(s.reqs, s.mem, s.heap + Elements(s.intake), s.done, s.batch);
    assert s'.heap == {} && s'.intake == [] && s'.batch == [];
    forall r | 0 <= r < |s'.reqs| ensures r in s'.done {
      assert (multiset(s'.intake) + multiset(s'.heap) + multiset(s'.batch) + multiset(s'.done))[r] == Ids(|s'.reqs|)[r];
      assert multiset(s'.done)[r] == 1;
    }
  }

  // ----- the potential

  /** How many more builds may begin before everything is handed off. */
  function BuildsLeft(s: State): int
    requires KnownAll(s.mem.seqs, s.reqs)
  {
    if AllDone(s) then 0
    else if s.phase != Idle then Work(s) + 1
    else if LastCall(s) then 1
    else Work(s) + 2
  }

  function Cost(ev: Event): nat { if ev.Begin? then 1 else 0 }

  /** t has no more work than s, and keeps what s has handed off. */
  predicate Shrunk(s: State, t: State) {
    && t.reqs == s.reqs && s.done <= t.done && |t.done| <= |t.reqs|
    && SumLeft(t.mem.seqs) <= SumLeft(s.mem.seqs)
  }

  lemma ShrunkWork(s: State, t: State)
    requires Shrunk(s, t)
    ensures 0 <= Work(t) <= Work(s)
    ensures AllDone(s) ==> AllDone(t)
  {
    assert t.done == s.done + t.done[|s.done|..];
  }

  lemma StepShrinks(e: Engine, s: State, ev: Event)
    requires Inv(e, s) && Enabled(e, s, ev) && !ev.Arrive? && Inv(e, Next(e, s, ev))
    ensures Shrunk(s, Next(e, s, ev))
  {
    LeftShrinks(e, s, ev);
    SameStore(e, s, ev);
    DoneKept(e, s, ev);
    DoneCount(e, Next(e, s, ev));
  }

  /** The ways in which a step of the machine pays for the builds. */
  lemma PaidByBegin(s: State, t: State)
    requires KnownAll(s.mem.seqs, s.reqs) && KnownAll(t.mem.seqs, t.reqs) && Shrunk(s, t) && !AllDone(t)
    requires s.phase == Idle && t.phase == Building && !LastCall(s)
    ensures 1 + BuildsLeft(t) <= BuildsLeft(s)
  {
    ShrunkWork(s, t);
  }

  lemma PaidInside(s: State, t: State)
    requires KnownAll(s.mem.seqs, s.reqs) && KnownAll(t.mem.seqs, t.reqs) && Shrunk(s, t) && !AllDone(t)
    requires s.phase != Idle
    requires t.phase != Idle || Work(t) < Work(s) || LastCall(t)
    ensures BuildsLeft(t) <= BuildsLeft(s)
  {
    ShrunkWork(s, t);
  }

  lemma PaidByCancel(s: State, t: State)
    requires KnownAll(s.mem.seqs, s.reqs) && KnownAll(t.mem.seqs, t.reqs) && Shrunk(s, t) && !AllDone(t)
    requires t.phase == s.phase && (LastCall(s) ==> LastCall(t))
    ensures BuildsLeft(t) <= BuildsLeft(s)
  {
    ShrunkWork(s, t);
  }

  lemma EndShape(e: Engine, s: State, c: nat)
    requires Enabled(e, s, End(c)) && Settled(s) && s.phase != Idle
    ensures var t := DoEnd(s, c);
            && KnownAll(t.mem.seqs, t.reqs)
            && (t.phase != Idle || |t.done| == |s.done| + 1 || LastCall(t))
  {
  }

  lemma EndPays(e: Engine, s: State, c: nat)
    requires Inv(e, s) && Enabled(e, s, End(c)) && Settled(s) && Shrunk(s, DoEnd(s, c)) && !AllDone(DoEnd(s, c))
    ensures KnownAll(DoEnd(s, c).mem.seqs, DoEnd(s, c).reqs) && BuildsLeft(DoEnd(s, c)) <= BuildsLeft(s)
  {
    EndShape(e, s, c);
    PaidInside(s, DoEnd(s, c));
  }

  lemma CancelPays(e: Engine, s: State, k: nat)
    requires Inv(e, s) && Enabled(e, s, Cancel(k)) && Shrunk(s, Next(e, s, Cancel(k))) && !AllDone(Next(e, s, Cancel(k)))
    ensures KnownAll(Next(e, s, Cancel(k)).mem.seqs, s.reqs) && BuildsLeft(Next(e, s, Cancel(k))) <= BuildsLeft(s)
  {
    var t := Next(e, s, Cancel(k));
    StepText(e, s, Cancel(k));
    if LastCall(s) { FinishedStays(s.reqs, s.mem.seqs, t.mem.seqs, s.batch); }
    PaidByCancel(s, t);
  }

  lemma BeginPays(e: Engine, s: State)
    requires Inv(e, s) && Enabled(e, s, Begin) && Inv(e, DoBegin(s)) && Shrunk(s, DoBegin(s)) && !AllDone(DoBegin(s))
    ensures 1 + BuildsLeft(DoBegin(s)) <= BuildsLeft(s)
  {
    if LastCall(s) { LastCallServes(e, s); }
    PaidByBegin(s, DoBegin(s));
  }

  lemma IteratePays(e: Engine, s: State, c: nat)
    requires Inv(e, s) && Enabled(e, s, Iterate(c)) && Inv(e, DoIterate(e, s, c)) && Shrunk(s, DoIterate(e, s, c))
    requires !AllDone(DoIterate(e, s, c))
    ensures BuildsLeft(DoIterate(e, s, c)) <= BuildsLeft(s)
  {
    IterateShape(e, s, c);
    PaidInside(s, DoIterate(e, s, c));
  }

  lemma ExecutePays(e: Engine, s: State, ev: Event)
    requires Inv(e, s) && Enabled(e, s, ev) && ev.Execute? && Settled(s) && Limited(s.mem.seqs)
    requires Shrunk(s, Next(e, s, ev)) && !AllDone(Next(e, s, ev))
    ensures KnownAll(Next(e, s, ev).mem.seqs, s.reqs) && BuildsLeft(Next(e, s, ev)) <= BuildsLeft(s)
  {
    ExecutionWorks(e, s, ev);
    assert Next(e, s, ev).done == s.done && Next(e, s, ev).reqs == s.reqs;
    PaidInside(s, Next(e, s, ev));
  }

  lemma StepPays(e: Engine, s: State, ev: Event)
    requires Inv(e, s) && Enabled(e, s, ev) && !ev.Arrive? && Settled(s) && Limited(s.mem.seqs)
    requires Inv(e, Next(e, s, ev)) && Shrunk(s, Next(e, s, ev)) && !AllDone(Next(e, s, ev))
    ensures Cost(ev) + BuildsLeft(Next(e, s, ev)) <= BuildsLeft(s)
  {
    match ev
    case Begin => BeginPays(e, s);
    case Iterate(c) => IteratePays(e, s, c);
    case Cancel(k) => CancelPays(e, s, k);
    case End(c) => EndPays(e, s, c);
    case Execute(_) => ExecutePays(e, s, ev);
  }

  // ----- runs

  predicate NoArrivals(evs: seq<Event>) { forall i :: 0 <= i < |evs| ==> !evs[i].Arrive? }

  function BeginCount(evs: seq<Event>): nat {
    if evs == [] then 0 else Cost(evs[0]) + BeginCount(evs[1..])
  }

  function ExecutionCount(evs: seq<Event>): nat {
    if evs == [] then 0 else (if evs[0].Execute? then 1 else 0) + ExecutionCount(evs[1..])
  }

  /** The counts are of the builds begun and of the executions. */
  lemma {:induction false} CountsJoin(a: seq<Event>, b: seq<Event>, ev: Event)
    ensures BeginCount([ev]) == (if ev.Begin? then 1 else 0) && ExecutionCount([ev]) == if ev.Execute? then 1 else 0
    ensures BeginCount(a + b) == BeginCount(a) + BeginCount(b)
    ensures ExecutionCount(a + b) == ExecutionCount(a) + ExecutionCount(b)
    decreases |a|
  {
    assert [ev][1..] == [];
    if a == [] {
      assert a + b == b;
    } else {
      CountsJoin(a[1..], b, ev);
      assert (a + b)[1..] == a[1..] + b;
    }
  }

  lemma {:induction false} RunPays(e: Engine, s: State, evs: seq<Event>)
    requires Inv(e, s) && KeysDistinct(s.reqs) && Settled(s) && Limited(s.mem.seqs)
    requires Valid(e, s, evs) && NoArrivals(evs)
    ensures Inv(e, After(e, s, evs)) && After(e, s, evs).reqs == s.reqs
    ensures AllDone(s) ==> AllDone(After(e, s, evs))
    ensures !AllDone(After(e, s, evs)) ==> BeginCount(evs) + BuildsLeft(After(e, s, evs)) <= BuildsLeft(s)
    ensures ExecutionCount(evs) + SumLeft(After(e, s, evs).mem.seqs) <= SumLeft(s.mem.seqs)
    decreases |evs|
  {
    if evs != [] {
      OneEvent(e, s, evs[0]);
      RunPays(e, Next(e, s, evs[0]), evs[1..]);
    }
  }

  /** What one event of such a run keeps and pays. */
  lemma OneEvent(e: Engine, s: State, ev: Event)
    requires Inv(e, s) && KeysDistinct(s.reqs) && Settled(s) && Limited(s.mem.seqs) && Enabled(e, s, ev) && !ev.Arrive?
    ensures var t := Next(e, s, ev);
            && Inv(e, t) && t.reqs == s.reqs && Settled(t) && Limited(t.mem.seqs)
            && (AllDone(s) ==> AllDone(t))
            && (!AllDone(t) ==> Cost(ev) + BuildsLeft(t) <= BuildsLeft(s))
            && (if ev.Execute? then 1 else 0) + SumLeft(t.mem.seqs) <= SumLeft(s.mem.seqs)
  {
    StepKeeps(e, s, ev);
    SameStore(e, s, ev);
    SettledKept(e, s, ev);
    LeftShrinks(e, s, ev);
    StepShrinks(e, s, ev);
    ShrunkWork(s, Next(e, s, ev));
    if ev.Execute? { ExecutionWorks(e, s, ev); }
    if !AllDone(Next(e, s, ev)) { StepPays(e, s, ev); }
  }

  /** Draining: from an idle state with positive limits, in any run without arrivals, whatever is preempted or cancelled,
      the executions number at most the tokens left, and once as many builds have begun as there are tokens and hand-offs
      to come and two more, every accepted request has been handed off and holds no blocks, and intake, heap and batch are
      empty. */
  lemma EveryRequestIsServed(e: Engine, s: State, evs: seq<Event>)
    requires Reachable(e, s) && KeysDistinct(s.reqs) && s.phase == Idle && Limited(s.mem.seqs)
    requires Valid(e, s, evs) && NoArrivals(evs)
    ensures ExecutionCount(evs) <= SumLeft(s.mem.seqs)
    ensures BeginCount(evs) >= Work(s) + 2 ==>
              var t := After(e, s, evs);
              && t.reqs == s.reqs && AllDone(t) && t.intake == [] && t.heap == {} && t.batch == []
              && forall r :: 0 <= r < |t.reqs| ==> NoBlocks(t.mem.seqs, t.reqs[r].seqs)
  {
    ReachableInv(e, s);
    RunPays(e, s, evs);
    var t := After(e, s, evs);
    DoneCount(e, s);
    if AllDone(t) {
      DoneIsEverywhere(e, t);
    } else {
      PotentialIsPositive(e, t);
    }
  }

  lemma PotentialIsPositive(e: Engine, s: State)
    requires Inv(e, s) && !AllDone(s)
    ensures BuildsLeft(s) >= 1
  {
    DoneCount(e, s);
  }

  lemma TopEnabled(e: Engine, s: State) returns (c: nat)
    requires Inv(e, s) && Named(s) && s.heap != {}
    ensures IsTop(s.reqs, s.heap, c)
    ensures s.phase == Building ==> Enabled(e, s, Iterate(c))
    ensures s.phase == Built ==> Enabled(e, s, End(c))
  {
    InRange(|s.reqs|, s.intake, s.heap, s.batch, s.done);
    TopExists(s.reqs, s.heap);
    c :| c in s.heap && IsTop(s.reqs, s.heap, c);
  }

  lemma ReadyEnabled(e: Engine, s: State, sample: Sampler)
    requires Inv(e, s) && Live(s) && s.phase == Ready
    ensures Enabled(e, s, Execute(sample))
  {
    ChecksPass(e, s);
  }

  lemma BuildingEnabled(e: Engine, s: State) returns (ev: Event)
    requires Inv(e, s) && Named(s) && (s.phase == Building || s.phase == Built)
    ensures Enabled(e, s, ev) && (ev.Iterate? || ev.End?)
  {
    if s.heap == {} {
      ev := End(0);
    } else {
      var c := TopEnabled(e, s);
      ev := if s.phase == Building then Iterate(c) else End(c);
    }
  }

  /** And the engine never stops short: unless a cancellation has hit the batch, some event of the engine is enabled. */
  lemma NeverStuck(e: Engine, s: State) returns (ev: Event)
    requires Reachable(e, s) && KeysDistinct(s.reqs) && Live(s)
    ensures Enabled(e, s, ev) && !ev.Arrive? && !ev.Cancel?
  {
    ReachableInv(e, s);
    InvNamed(e, s);
    if s.phase == Idle {
      ev := Begin;
    } else if s.phase == Ready {
      ev := Execute((j, a, t, kvs) => 0);
      ReadyEnabled(e, s, ev.sample);
    } else {
      ev := BuildingEnabled(e, s);
    }
  }
}
