/** Why the keys have to be distinct: on every engine of useful size, for any two requests with equal keys, runs in which
    one of them is stripped of its blocks although it is already in the batch, so that a check of prepare_inputs fails,
    and runs in which one stays on the preemptable list after the build. */
module EqualKeys {
  import opened Arith
  import opened Sequences
  import opened BlockMemory
  import opened BatchInputs
  import opened BatchFaithful
  import opened PagedExecution
  import opened SchedulerState
  import opened SchedulerMemory
  import opened SchedulerInvariants
  import opened SchedulerExecution
  import opened SchedulerTheorems

  /** A priority and a creation time. */
  datatype Key = Key(priority: int, created: int)

  /** An engine, and two requests of one sequence each that share a key and settings. */
  datatype Case = Case(e: Engine, key: Key, settings: Settings)

  predicate Roomy(e: Engine) { e.blockSize > 0 && e.numBlocks >= 3 && e.capacity >= 2 }

  /** The limit leaves room for a second token. */
  predicate Fits(c: Case) { Roomy(c.e) && c.settings.maxTokens > 1 }

  // ----- the two sequences

  /** A prompt that fills n blocks. */
  function Full(c: Case, n: nat): (prompt: seq<int>)
    ensures |prompt| == n * c.e.blockSize
  {
    seq(n * c.e.blockSize, _ => 7)
  }

  /** Request 0 needs one block for its prompt, request 1 all the others but one. */
  function Fresh0(c: Case): SeqState { NewSequence(Full(c, 1), c.settings) }

  function Fresh1(c: Case): SeqState
    requires Fits(c)
  {
    NewSequence(Full(c, c.e.numBlocks - 2), c.settings)
  }

  /** The token that is drawn: not the end-of-sentence token. */
  function Drawn(c: Case): int { c.settings.eosTokenId + 1 }

  function Longer(c: Case, t: SeqState): SeqState {
    t.(tokens := t.tokens + [Drawn(c)], cachePos := |t.tokens|)
  }

  function With(t: SeqState, blocks: seq<int>): SeqState { t.(blocks := blocks) }

  /** Blocks 1 .. numBlocks - 2. */
  function Middle(c: Case): (blocks: seq<int>)
    requires Fits(c)
    ensures |blocks| == c.e.numBlocks - 2
  {
    seq(c.e.numBlocks - 2, i => i + 1)
  }

  function Last(c: Case): int { c.e.numBlocks - 1 }

  function Long0(c: Case): SeqState { Longer(c, With(Fresh0(c), [0])) }

  function Long1(c: Case): SeqState
    requires Fits(c)
  {
    Longer(c, With(Fresh1(c), Middle(c)))
  }

  // ----- what they need

  lemma Needs(t: SeqState, b: nat, q: nat)
    requires b > 0 && !t.Finished() && |t.tokens| <= q * b < |t.tokens| + b && |t.blocks| <= q
    ensures t.BlocksNeeded(b) == q && BlocksToAllocate(t, b) == q - |t.blocks|
  {
    CeilDivUnique(|t.tokens|, b, q);
  }

  /** A full prompt of n blocks, and the same with one more token. */
  lemma FullNeeds(c: Case, n: nat, blocks: seq<int>)
    requires Fits(c) && n > 0 && |blocks| <= n
    ensures var t := NewSequence(Full(c, n), c.settings);
            && BlocksToAllocate(With(t, blocks), c.e.blockSize) == n - |blocks|
            && With(t, blocks).BlocksNeeded(c.e.blockSize) == n
            && BlocksToAllocate(Longer(c, With(t, blocks)), c.e.blockSize) == n + 1 - |blocks|
  {
    var t, b := NewSequence(Full(c, n), c.settings), c.e.blockSize;
    assert (n + 1) * b == n * b + b;
    Needs(With(t, blocks), b, n);
    Needs(Longer(c, With(t, blocks)), b, n + 1);
  }

  lemma Gives(free: seq<int>, seqs: seq<SeqState>, k: nat, b: nat, n: nat, taken: seq<int>)
    requires b > 0 && k < |seqs| && BlocksToAllocate(seqs[k], b) == n && 0 < n <= |free| && taken == Taken(free, n)
    ensures AllocateAll(Memory(free, seqs), [k], b)
         == Attempt(Memory(free[..|free| - n], seqs[k := seqs[k].AppendBlocks(taken)]), [k], true)
  {
    assert [k][..0] == [];
    assert AllocateAll(Memory(free, seqs), [], b) == Attempt(Memory(free, seqs), [], true);
  }

  lemma Refuses(free: seq<int>, seqs: seq<SeqState>, k: nat, b: nat)
    requires b > 0 && k < |seqs| && BlocksToAllocate(seqs[k], b) > |free|
    ensures AllocateAll(Memory(free, seqs), [k], b) == Attempt(Memory(free, seqs), [], false)
  {
    assert [k][..0] == [];
    assert AllocateAll(Memory(free, seqs), [], b) == Attempt(Memory(free, seqs), [], true);
  }

  lemma ReleaseOne(m: Memory, k: nat)
    requires k < |m.seqs|
    ensures ReleaseAll(m, [k]) == Memory(m.free + m.seqs[k].blocks, m.seqs[k := m.seqs[k].Release()])
  {
    assert [k][..0] == [];
    assert ReleaseAll(m, []) == m;
  }

  // ----- the states of the runs

  function Reqs(key: Key): seq<Request> {
    [Request([0], key.priority, key.created), Request([1], key.priority, key.created)]
  }

  function Arrival(c: Case, n: nat): Event {
    Arrive([Prompt(Full(c, n), c.settings)], c.key.priority, c.key.created)
  }

  function At(c: Case, free: seq<int>, t0: SeqState, t1: SeqState, cache: seq<KV>, heap: set<nat>, batch: seq<nat>,
              preemptable: seq<nat>, phase: Phase): State
  {
    State(Reqs(c.key), Memory(free, [t0, t1]), cache, [], heap, batch, batch, preemptable, [], phase)
  }

  function Arrived(c: Case, cache: seq<KV>): State {
    State([Request([0], c.key.priority, c.key.created)], Memory(InitialFree(c.e.numBlocks), [Fresh0(c)]), cache,
          [0], {}, [], [], [], [], Idle)
  }

  function Started(c: Case, cache: seq<KV>): State
    requires Fits(c)
  {
    At(c, InitialFree(c.e.numBlocks), Fresh0(c), Fresh1(c), cache, {0, 1}, [], [], Building)
  }

  function Both(c: Case, cache: seq<KV>): State
    requires Fits(c)
  {
    Started(c, cache).(intake := [0, 1], heap := {}, phase := Idle)
  }

  function OneScheduled(c: Case, cache: seq<KV>): State
    requires Fits(c)
  {
    At(c, InitialFree(c.e.numBlocks)[..c.e.numBlocks - 1], With(Fresh0(c), [0]), Fresh1(c), cache, {1}, [0], [], Building)
  }

  function FirstBatch(c: Case, cache: seq<KV>, phase: Phase): State
    requires Fits(c)
  {
    At(c, [Last(c)], With(Fresh0(c), [0]), With(Fresh1(c), Middle(c)), cache, {}, [0, 1], [], phase)
  }

  function Executed(c: Case, cache: seq<KV>): State
    requires Fits(c)
  {
    At(c, [Last(c)], Long0(c), Long1(c), cache, {}, [0, 1], [], Idle)
  }

  function Rebuilding(c: Case, cache: seq<KV>): State
    requires Fits(c)
  {
    At(c, [Last(c)], Long0(c), Long1(c), cache, {0, 1}, [], [0, 1], Building)
  }

  /** The heap offers request 1 first this time; it is scheduled but not at the front of the list. */
  function StillPreemptable(c: Case, cache: seq<KV>): State
    requires Fits(c)
  {
    At(c, [], Long0(c), With(Long1(c), Middle(c) + [Last(c)]), cache, {0}, [1], [0, 1], Building)
  }

  function Stripped(c: Case, cache: seq<KV>): State
    requires Fits(c)
  {
    At(c, Middle(c) + [Last(c)], Long0(c), Long1(c).Release(), cache, {0}, [1], [0], Building)
  }

  /** Request 0 is scheduled next to the stripped request. */
  function Doomed(c: Case, cache: seq<KV>, phase: Phase): State
    requires Fits(c)
  {
    At(c, Middle(c), With(Long0(c), [0] + [Last(c)]), Long1(c).Release(), cache, {}, [1, 0], [], phase)
  }

  // ----- the first build

  lemma FirstArrival(c: Case, cache: seq<KV>)
    requires Fits(c)
    ensures Reaches(c.e, Initial(c.e, cache), Arrived(c, cache))
  {
    var s := Next(c.e, Initial(c.e, cache), Arrival(c, 1));
    assert s.mem.seqs == [Fresh0(c)];
    assert s.reqs[0].seqs == [0];
    OneStep(c.e, Initial(c.e, cache), Arrival(c, 1), Arrived(c, cache));
  }

  lemma SecondArrival(c: Case, cache: seq<KV>)
    requires Fits(c)
    ensures Reaches(c.e, Arrived(c, cache), Both(c, cache))
  {
    var n := c.e.numBlocks - 2;
    MulMonotone(1, n, c.e.blockSize);
    var s := Next(c.e, Arrived(c, cache), Arrival(c, n));
    assert s.mem.seqs == [Fresh0(c), Fresh1(c)];
    assert s.reqs[1].seqs == [1];
    assert s.reqs == Reqs(c.key);
    OneStep(c.e, Arrived(c, cache), Arrival(c, n), Both(c, cache));
  }

  lemma FirstBegin(c: Case, cache: seq<KV>)
    requires Fits(c)
    ensures Reaches(c.e, Both(c, cache), Started(c, cache))
  {
    OneStep(c.e, Both(c, cache), Begin, Started(c, cache));
  }

  lemma FirstGrant(c: Case)
    requires Fits(c)
    ensures var free := InitialFree(c.e.numBlocks);
            AllocateAll(Memory(free, [Fresh0(c), Fresh1(c)]), [0], c.e.blockSize)
            == Attempt(Memory(free[..c.e.numBlocks - 1], [With(Fresh0(c), [0]), Fresh1(c)]), [0], true)
  {
    var free, seqs := InitialFree(c.e.numBlocks), [Fresh0(c), Fresh1(c)];
    FirstTaken(c.e.numBlocks);
    NeedsOne(c);
    Gives(free, seqs, 0, c.e.blockSize, 1, [0]);
    assert Fresh0(c).AppendBlocks([0]) == With(Fresh0(c), [0]);
    assert seqs[0 := With(Fresh0(c), [0])] == [With(Fresh0(c), [0]), Fresh1(c)];
  }

  lemma FirstTaken(n: nat)
    requires n > 0
    ensures Taken(InitialFree(n), 1) == [0]
  {
    InitialPool(n);
  }

  lemma NeedsOne(c: Case)
    requires Fits(c)
    ensures BlocksToAllocate(Fresh0(c), c.e.blockSize) == 1
  {
    FullNeeds(c, 1, []);
    assert With(Fresh0(c), []) == Fresh0(c);
  }

  lemma FirstRound(c: Case, cache: seq<KV>)
    requires Fits(c)
    ensures Reaches(c.e, Started(c, cache), OneScheduled(c, cache))
  {
    FirstGrant(c);
    assert {0, 1} - {0} == {1} && [] + [0] == [0];
    OneStep(c.e, Started(c, cache), Iterate(0), OneScheduled(c, cache));
  }

  lemma MiddleTaken(c: Case)
    requires Fits(c)
    ensures var free := InitialFree(c.e.numBlocks)[..c.e.numBlocks - 1];
            Middle(c) == Taken(free, c.e.numBlocks - 2) && free[..1] == [Last(c)]
  {
    InitialPool(c.e.numBlocks);
  }

  lemma SecondRound(c: Case, cache: seq<KV>)
    requires Fits(c)
    ensures Reaches(c.e, OneScheduled(c, cache), FirstBatch(c, cache, Building))
  {
    var free, n := InitialFree(c.e.numBlocks)[..c.e.numBlocks - 1], c.e.numBlocks - 2;
    MiddleTaken(c);
    FullNeeds(c, n, []);
    assert With(Fresh1(c), []) == Fresh1(c);
    Gives(free, [With(Fresh0(c), [0]), Fresh1(c)], 1, c.e.blockSize, n, Middle(c));
    assert Fresh1(c).AppendBlocks(Middle(c)) == With(Fresh1(c), Middle(c)) by { assert [] + Middle(c) == Middle(c); }
    OneStep(c.e, OneScheduled(c, cache), Iterate(1), FirstBatch(c, cache, Building));
  }

  lemma FirstEnd(c: Case, cache: seq<KV>)
    requires Fits(c)
    ensures Reaches(c.e, FirstBatch(c, cache, Building), FirstBatch(c, cache, Ready))
  {
    OneStep(c.e, FirstBatch(c, cache, Building), End(0), FirstBatch(c, cache, Ready));
  }

  // ----- the first execution

  function Batch(c: Case): seq<SeqState>
    requires Fits(c)
  {
    [With(Fresh0(c), [0]), With(Fresh1(c), Middle(c))]
  }

  lemma BatchApart(c: Case)
    requires Fits(c)
    ensures Separated(Batch(c), c.e.numBlocks)
  {
    assert Batch(c)[0].blocks == [0] && Batch(c)[1].blocks == Middle(c);
  }

  lemma NothingCached(f: Network, cache: seq<KV>, t: SeqState, b: nat)
    requires b > 0 && t.cachePos == 0
    ensures CachedPrefix(f, cache, t, b)
  {
    assert 0 <= |t.blocks| * b;
  }

  lemma FirstBatchReady(c: Case, cache: seq<KV>)
    requires Fits(c) && |cache| == c.e.numBlocks * c.e.blockSize
    ensures BatchReady(c.e.f, cache, Batch(c), c.e.blockSize, c.e.numBlocks)
    ensures RunnableBatch(Batch(c), c.e.blockSize)
  {
    var b, batch := c.e.blockSize, Batch(c);
    MulMonotone(1, c.e.numBlocks - 2, b);
    FullNeeds(c, 1, [0]);
    FullNeeds(c, c.e.numBlocks - 2, Middle(c));
    BatchApart(c);
    NothingCached(c.e.f, cache, batch[0], b);
    NothingCached(c.e.f, cache, batch[1], b);
    assert Granted(batch[0], b) && Granted(batch[1], b);
    GrantedRunnable(batch, b);
  }

  lemma FirstBatchPasses(c: Case, cache: seq<KV>)
    requires Fits(c) && |cache| == c.e.numBlocks * c.e.blockSize
    ensures Passes(c.e, FirstBatch(c, cache, Ready))
  {
    assert BatchOf(FirstBatch(c, cache, Ready)) == Batch(c);
    FirstBatchReady(c, cache);
    ReadyExecutable(c.e.f, cache, Batch(c), c.e.blockSize, c.e.numBlocks);
    FlattenFaithful(Batch(c), c.e.blockSize);
  }

  lemma OneMoreToken(c: Case, t: SeqState)
    requires Fits(c) && t.settings == c.settings && !t.stopped && |t.tokens| == t.promptLen
    ensures t.Append(Drawn(c)).CheckStop() == Longer(c, t)
  {
  }

  /** Each sequence of the first batch is given one more token, for which it has no block yet. */
  lemma AppendedBoth(c: Case)
    requires Fits(c)
    ensures AppendAll(Batch(c), [0, 1], [Drawn(c), Drawn(c)]) == [Long0(c), Long1(c)]
  {
    var ids, tokens := [0, 1], [Drawn(c), Drawn(c)];
    AppendAllMember(Batch(c), ids, tokens, 0);
    AppendAllMember(Batch(c), ids, tokens, 1);
    OneMoreToken(c, Batch(c)[0]);
    OneMoreToken(c, Batch(c)[1]);
    assert ids[0] == 0 && ids[1] == 1;
  }

  lemma FirstExecution(c: Case, cache: seq<KV>) returns (cache': seq<KV>)
    requires Fits(c) && |cache| == c.e.numBlocks * c.e.blockSize
    ensures Reaches(c.e, FirstBatch(c, cache, Ready), Executed(c, cache'))
  {
    var s, sample: Sampler := FirstBatch(c, cache, Ready), (j, a, t, kvs) => Drawn(c);
    FirstBatchPasses(c, cache);
    assert Samples(c.e, s, sample) == [Drawn(c), Drawn(c)];
    AppendedBoth(c);
    assert s.mem.seqs == Batch(c);
    cache' := Next(c.e, s, Execute(sample)).cache;
    OneStep(c.e, s, Execute(sample), Executed(c, cache'));
  }

  // ----- the second build

  lemma SecondBegin(c: Case, cache: seq<KV>)
    requires Fits(c)
    ensures Reaches(c.e, Executed(c, cache), Rebuilding(c, cache))
  {
    var s, reqs := Executed(c, cache), Reqs(c.key);
    assert s.batch[1..] == [1] && s.batch[1..][1..] == [];
    assert RecycleBatch(reqs, s.mem, {}, [], []) == Recycled(s.mem, {}, [], []);
    assert !RequestFinished(s.mem.seqs, reqs[1].seqs) by { assert !s.mem.seqs[reqs[1].seqs[0]].Finished(); }
    assert RecycleBatch(reqs, s.mem, {}, [], [1]) == Recycled(s.mem, {1}, [], [1]);
    assert !RequestFinished(s.mem.seqs, reqs[0].seqs) by { assert !s.mem.seqs[reqs[0].seqs[0]].Finished(); }
    assert RecycleBatch(reqs, s.mem, {}, [], [0, 1]) == Recycled(s.mem, {0, 1}, [], [0, 1]);
    assert {} + Elements([]) == {};
    OneStep(c.e, s, Begin, Rebuilding(c, cache));
  }

  lemma ThirdRound(c: Case, cache: seq<KV>)
    requires Fits(c)
    ensures Reaches(c.e, Rebuilding(c, cache), StillPreemptable(c, cache))
  {
    FullNeeds(c, c.e.numBlocks - 2, Middle(c));
    assert Taken([Last(c)], 1) == [Last(c)];
    Gives([Last(c)], [Long0(c), Long1(c)], 1, c.e.blockSize, 1, [Last(c)]);
    assert [Last(c)][..0] == [];
    OneStep(c.e, Rebuilding(c, cache), Iterate(1), StillPreemptable(c, cache));
  }

  /** Request 0 finds no block and takes those of request 1, which is in the batch. */
  lemma FourthRound(c: Case, cache: seq<KV>)
    requires Fits(c)
    ensures Reaches(c.e, StillPreemptable(c, cache), Stripped(c, cache))
  {
    var s := StillPreemptable(c, cache);
    FullNeeds(c, 1, [0]);
    Refuses([], s.mem.seqs, 0, c.e.blockSize);
    ReleaseOne(s.mem, 1);
    var m := ReleaseAll(s.mem, [1]);
    assert m.free == Middle(c) + [Last(c)];
    assert m.seqs == [Long0(c), Long1(c).Release()];
    assert s.preemptable[..1] == [0];
    OneStep(c.e, s, Iterate(0), Stripped(c, cache));
  }

  lemma FifthRound(c: Case, cache: seq<KV>)
    requires Fits(c)
    ensures Reaches(c.e, Stripped(c, cache), Doomed(c, cache, Building))
  {
    var free := Middle(c) + [Last(c)];
    FullNeeds(c, 1, [0]);
    assert Taken(free, 1) == [Last(c)] && free[..|free| - 1] == Middle(c);
    Gives(free, [Long0(c), Long1(c).Release()], 0, c.e.blockSize, 1, [Last(c)]);
    assert {0} - {0} == {};
    OneStep(c.e, Stripped(c, cache), Iterate(0), Doomed(c, cache, Building));
  }

  lemma SecondEnd(c: Case, cache: seq<KV>)
    requires Fits(c)
    ensures Reaches(c.e, Doomed(c, cache, Building), Doomed(c, cache, Ready))
  {
    OneStep(c.e, Doomed(c, cache, Building), End(0), Doomed(c, cache, Ready));
  }

  /** The batch is handed to the engine, none of its sequences is finished, and the check for slots fails. */
  lemma DoomedFails(c: Case, cache: seq<KV>)
    requires Fits(c)
    ensures var s := Doomed(c, cache, Ready); Named(s) && Unfinished(s.mem.seqs, s.seqBatch) && !Passes(c.e, s)
  {
    var s := Doomed(c, cache, Ready);
    assert BatchOf(s)[0] == Long1(c).Release() && BatchOf(s)[0] in BatchOf(s);
    assert !Runnable(BatchOf(s)[0], c.e.blockSize);
  }

  // ----- the runs

  /** The first half of both runs, up to the second build. */
  lemma ToSecondBuild(c: Case, cache: seq<KV>) returns (cache': seq<KV>)
    requires Fits(c) && |cache| == c.e.numBlocks * c.e.blockSize
    ensures Reaches(c.e, Initial(c.e, cache), StillPreemptable(c, cache'))
  {
    var start := Initial(c.e, cache);
    FirstArrival(c, cache);
    SecondArrival(c, cache);
    MoreSteps(c.e, start, Arrived(c, cache), Both(c, cache));
    FirstBegin(c, cache);
    MoreSteps(c.e, start, Both(c, cache), Started(c, cache));
    FirstRound(c, cache);
    MoreSteps(c.e, start, Started(c, cache), OneScheduled(c, cache));
    SecondRound(c, cache);
    MoreSteps(c.e, start, OneScheduled(c, cache), FirstBatch(c, cache, Building));
    FirstEnd(c, cache);
    MoreSteps(c.e, start, FirstBatch(c, cache, Building), FirstBatch(c, cache, Ready));
    cache' := FirstExecution(c, cache);
    MoreSteps(c.e, start, FirstBatch(c, cache, Ready), Executed(c, cache'));
    SecondBegin(c, cache');
    MoreSteps(c.e, start, Executed(c, cache'), Rebuilding(c, cache'));
    ThirdRound(c, cache');
    MoreSteps(c.e, start, Rebuilding(c, cache'), StillPreemptable(c, cache'));
  }

  lemma ReachedFromStart(e: Engine, cache: seq<KV>, s: State)
    requires e.blockSize > 0 && |cache| == e.numBlocks * e.blockSize && Reaches(e, Initial(e, cache), s)
    ensures Reachable(e, s)
  {
    ReachesByRun(e, Initial(e, cache), s);
    var evs :| Valid(e, Initial(e, cache), evs) && After(e, Initial(e, cache), evs) == s;
    assert ReachedBy(e, s, cache, evs);
  }

  /** For every engine with at least three blocks, every key and all settings that allow two tokens, a valid run with two
      requests of that key ends with a batch on which a check fails. */
  lemma EqualKeysAreUnsafe(c: Case, cache: seq<KV>) returns (s: State)
    requires Fits(c) && |cache| == c.e.numBlocks * c.e.blockSize
    ensures Reachable(c.e, s) && s.reqs == Reqs(c.key) && s.phase == Ready
    ensures Named(s) && Unfinished(s.mem.seqs, s.seqBatch) && !Passes(c.e, s)
  {
    var start := Initial(c.e, cache);
    var d := ToSecondBuild(c, cache);
    FourthRound(c, d);
    MoreSteps(c.e, start, StillPreemptable(c, d), Stripped(c, d));
    FifthRound(c, d);
    MoreSteps(c.e, start, Stripped(c, d), Doomed(c, d, Building));
    SecondEnd(c, d);
    MoreSteps(c.e, start, Doomed(c, d, Building), Doomed(c, d, Ready));
    s := Doomed(c, d, Ready);
    DoomedFails(c, d);
    ReachedFromStart(c.e, cache, s);
  }

  // ----- a name that outlives the build

  function Cancelled(c: Case, cache: seq<KV>): State
    requires Fits(c)
  {
    At(c, [], Long0(c).Cancel(), With(Long1(c), Middle(c) + [Last(c)]), cache, {0}, [1], [0, 1], Building)
  }

  /** Request 0, finished by now, is taken off the front of the list, and request 1 is left on it. */
  function Leftover(c: Case, cache: seq<KV>, phase: Phase): State
    requires Fits(c)
  {
    Cancelled(c, cache).(heap := {}, batch := [1, 0], preemptable := [1], phase := phase)
  }

  lemma CancelFirst(c: Case, cache: seq<KV>)
    requires Fits(c)
    ensures Reaches(c.e, StillPreemptable(c, cache), Cancelled(c, cache))
  {
    var s := StillPreemptable(c, cache);
    assert s.mem.seqs[0 := s.mem.seqs[0].Cancel()] == Cancelled(c, cache).mem.seqs;
    OneStep(c.e, s, Cancel(0), Cancelled(c, cache));
  }

  lemma ScheduleCancelled(c: Case, cache: seq<KV>)
    requires Fits(c)
    ensures Reaches(c.e, Cancelled(c, cache), Leftover(c, cache, Building))
  {
    var s := Cancelled(c, cache);
    assert [0][..0] == [];
    assert AllocateAll(s.mem, [], c.e.blockSize) == Attempt(s.mem, [], true);
    assert AllocateAll(s.mem, [0], c.e.blockSize) == Attempt(s.mem, [], true);
    assert s.heap - {0} == {} && [0, 1][1..] == [1] && [1] + [] == [1];
    OneStep(c.e, s, Iterate(0), Leftover(c, cache, Building));
  }

  /** Likewise, a valid run leaves a batched request on the list of preemptable ones after the build, from where the next
      build takes it up again. */
  lemma EqualKeysLeaveStaleNames(c: Case, cache: seq<KV>) returns (s: State)
    requires Fits(c) && |cache| == c.e.numBlocks * c.e.blockSize
    ensures Reachable(c.e, s) && s.reqs == Reqs(c.key) && s.phase == Ready && s.preemptable == [1] && 1 in s.batch
  {
    var start := Initial(c.e, cache);
    var d := ToSecondBuild(c, cache);
    CancelFirst(c, d);
    MoreSteps(c.e, start, StillPreemptable(c, d), Cancelled(c, d));
    ScheduleCancelled(c, d);
    MoreSteps(c.e, start, Cancelled(c, d), Leftover(c, d, Building));
    OneStep(c.e, Leftover(c, d, Building), End(0), Leftover(c, d, Ready));
    MoreSteps(c.e, start, Leftover(c, d, Building), Leftover(c, d, Ready));
    s := Leftover(c, d, Ready);
    ReachedFromStart(c.e, cache, s);
  }

  // ----- the exact condition

  predicate HasKeys(reqs: seq<Request>, a: Key, b: Key) {
    && |reqs| == 2
    && reqs[0].priority == a.priority && reqs[0].created == a.created
    && reqs[1].priority == b.priority && reqs[1].created == b.created
  }

  /** In every run of the engine that accepts two requests with these keys, no name is left on the preemptable list after
      a build, and every batch that no cancellation has hit passes the checks. */
  ghost predicate SafeOn(e: Engine, a: Key, b: Key) {
    forall s :: Reachable(e, s) && HasKeys(s.reqs, a, b) ==> SafeState(e, s)
  }

  ghost predicate SafeState(e: Engine, s: State) {
    s.phase == Ready ==> s.preemptable == [] && (Unfinished(s.mem.seqs, s.seqBatch) ==> Named(s) && Passes(e, s))
  }

  /** On every engine with at least three blocks, two requests are safe together if and only if their keys differ. */
  lemma SafeIffKeysDiffer(e: Engine, a: Key, b: Key)
    requires Roomy(e)
    ensures SafeOn(e, a, b) <==> a != b
  {
    if a != b {
      forall s | Reachable(e, s) && HasKeys(s.reqs, a, b) ensures SafeState(e, s) {
        ReachableInv(e, s);
        if s.phase == Ready { ChecksPass(e, s); }
      }
    } else {
      assert e.numBlocks * e.blockSize >= 0;
      var s := EqualKeysAreUnsafe(Case(e, a, Settings(128, 2, false, 0)), seq(e.numBlocks * e.blockSize, _ => KV([], [])));
      assert Reachable(e, s) && HasKeys(s.reqs, a, b) && !SafeState(e, s);
    }
  }
}
