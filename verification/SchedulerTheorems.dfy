/** Theorems about every run of the engine. */
module SchedulerTheorems {
  import opened Arith
  import opened Sequences
  import opened BlockMemory
  import opened BatchInputs
  import opened BatchFaithful
  import opened PagedExecution
  import opened SchedulerState
  import opened SchedulerMemory
  import opened SchedulerInvariants
  import opened SchedulerLoop
  import opened SchedulerExecution
  import opened SequenceLife

  // ----- runs

  /** Every event of the run is enabled when it happens. */
  ghost predicate Valid(e: Engine, s: State, evs: seq<Event>)
    decreases |evs|
  {
    evs == [] || (Enabled(e, s, evs[0]) && Valid(e, Next(e, s, evs[0]), evs[1..]))
  }

  ghost function After(e: Engine, s: State, evs: seq<Event>): State
    requires Valid(e, s, evs)
    decreases |evs|
  {
    if evs == [] then s else After(e, Next(e, s, evs[0]), evs[1..])
  }

  /** Some event leads from s to t. The number w plays no role: Steps is sealed by quantifying over it, so that a proof
      unfolds the step only where it mentions StepAt. Reaches below is sealed in the same way. */
  ghost predicate StepAt(e: Engine, s: State, t: State, w: nat) {
    exists ev :: Enabled(e, s, ev) && Next(e, s, ev) == t
  }

  ghost predicate Steps(e: Engine, s: State, t: State) { forall w :: StepAt(e, s, t, w) }

  ghost predicate Path(e: Engine, states: seq<State>) {
    states != [] && forall i :: 0 <= i < |states| - 1 ==> Steps(e, states[i], states[i + 1])
  }

  ghost predicate PathAt(e: Engine, s: State, t: State, w: nat) {
    exists states :: Path(e, states) && states[0] == s && states[|states| - 1] == t
  }

  /** Some run leads from s to t. */
  ghost predicate Reaches(e: Engine, s: State, t: State) { forall w :: PathAt(e, s, t, w) }

  lemma OneStep(e: Engine, s: State, ev: Event, t: State)
    requires Enabled(e, s, ev) && Next(e, s, ev) == t
    ensures Reaches(e, s, t)
  {
    assert Steps(e, s, t);
    assert Path(e, [s, t]) && [s, t][0] == s && [s, t][1] == t;
  }

  lemma PathJoin(e: Engine, a: seq<State>, b: seq<State>)
    requires Path(e, a) && Path(e, b) && a[|a| - 1] == b[0]
    ensures Path(e, a + b[1..])
  {
    var c, n := a + b[1..], |a| - 1;
    forall i | 0 <= i < |c| - 1 ensures Steps(e, c[i], c[i + 1]) {
      if i < n {
        assert Steps(e, a[i], a[i + 1]);
      } else {
        assert Steps(e, b[i - n], b[i - n + 1]);
      }
    }
  }

  lemma MoreSteps(e: Engine, s: State, t: State, u: State)
    requires Reaches(e, s, t) && Reaches(e, t, u)
    ensures Reaches(e, s, u)
  {
    assert PathAt(e, s, t, 0) && PathAt(e, t, u, 0);
    var a :| Path(e, a) && a[0] == s && a[|a| - 1] == t;
    var b :| Path(e, b) && b[0] == t && b[|b| - 1] == u;
    PathJoin(e, a, b);
    var c := a + b[1..];
    assert c[0] == s && c[|c| - 1] == u;
  }

  lemma RunFrom(e: Engine, s: State, ev: Event, t: State, evs: seq<Event>)
    requires Enabled(e, s, ev) && Next(e, s, ev) == t && Valid(e, t, evs)
    ensures Valid(e, s, [ev] + evs) && After(e, s, [ev] + evs) == After(e, t, evs)
  {
    assert ([ev] + evs)[1..] == evs;
  }

  lemma {:induction false} PathIsRun(e: Engine, states: seq<State>) returns (evs: seq<Event>)
    requires Path(e, states)
    ensures Valid(e, states[0], evs) && After(e, states[0], evs) == states[|states| - 1]
    decreases |states|
  {
    if |states| == 1 {
      evs := [];
    } else {
      assert Path(e, states[1..]) by {
        assert forall i :: 0 <= i < |states| - 2 ==> states[1..][i] == states[i + 1];
      }
      var rest := PathIsRun(e, states[1..]);
      assert Steps(e, states[0], states[1]) && StepAt(e, states[0], states[1], 0);
      var ev :| Enabled(e, states[0], ev) && Next(e, states[0], ev) == states[1];
      RunFrom(e, states[0], ev, states[1], rest);
      evs := [ev] + rest;
    }
  }

  /** What is reached is reached by a run of events. */
  lemma ReachesByRun(e: Engine, s: State, t: State)
    requires Reaches(e, s, t)
    ensures exists evs :: Valid(e, s, evs) && After(e, s, evs) == t
  {
    assert PathAt(e, s, t, 0);
    var states :| Path(e, states) && states[0] == s && states[|states| - 1] == t;
    var evs := PathIsRun(e, states);
  }

  ghost predicate LeadsAt(e: Engine, s: State, run: seq<Event>, t: State, w: nat) {
    Valid(e, s, run) && After(e, s, run) == t
  }

  /** This run leads from s to t; sealed likewise. */
  ghost predicate Leads(e: Engine, s: State, run: seq<Event>, t: State) { forall w :: LeadsAt(e, s, run, t, w) }

  lemma LeadsNowhere(e: Engine, s: State)
    ensures Leads(e, s, [], s)
  {
  }

  lemma LeadsOne(e: Engine, s: State, ev: Event, t: State)
    requires Enabled(e, s, ev) && Next(e, s, ev) == t
    ensures Leads(e, s, [ev], t)
  {
    RunFrom(e, s, ev, t, []);
    assert [ev] + [] == [ev];
  }

  lemma {:induction false} RunsJoin(e: Engine, s: State, run: seq<Event>, more: seq<Event>)
    requires Valid(e, s, run) && Valid(e, After(e, s, run), more)
    ensures Valid(e, s, run + more) && After(e, s, run + more) == After(e, After(e, s, run), more)
    decreases |run|
  {
    HeadFirst(run, more);
    if run != [] {
      var t := Next(e, s, run[0]);
      RunsJoin(e, t, run[1..], more);
      RunFrom(e, s, run[0], t, run[1..] + more);
    }
  }

  lemma HeadFirst(run: seq<Event>, more: seq<Event>)
    ensures run == [] ==> run + more == more
    ensures run != [] ==> run + more == [run[0]] + (run[1..] + more)
  {
  }

  lemma LeadsMore(e: Engine, s: State, run: seq<Event>, t: State, more: seq<Event>, u: State)
    requires Leads(e, s, run, t) && Leads(e, t, more, u)
    ensures Leads(e, s, run + more, u)
  {
    assert LeadsAt(e, s, run, t, 0) && LeadsAt(e, t, more, u, 0);
    RunsJoin(e, s, run, more);
  }

  lemma InitialInv(e: Engine, cache: seq<KV>)
    requires e.blockSize > 0 && |cache| == e.numBlocks * e.blockSize
    ensures Inv(e, Initial(e, cache))
  {
    InitialPool(e.numBlocks);
  }

  lemma StepKeeps(e: Engine, s: State, ev: Event)
    requires Inv(e, s) && Enabled(e, s, ev) && KeysDistinct(s.reqs)
    ensures Inv(e, Next(e, s, ev))
  {
    match ev
    case Arrive(prompts, priority, created) => ArriveKeeps(e, s, prompts, priority, created);
    case Cancel(k) => CancelKeeps(e, s, k);
    case Begin => BeginKeeps(e, s);
    case Iterate(c) => IterateKeeps(e, s, c);
    case End(c) => EndKeeps(e, s, c);
    case Execute(sample) => ExecuteKeeps(e, s, sample);
  }

  lemma {:induction false} RequestsGrow(e: Engine, s: State, evs: seq<Event>)
    requires Valid(e, s, evs)
    ensures s.reqs <= After(e, s, evs).reqs
    decreases |evs|
  {
    if evs != [] {
      RequestsGrow(e, Next(e, s, evs[0]), evs[1..]);
      assert s.reqs <= Next(e, s, evs[0]).reqs;
    }
  }

  /** The invariant holds in every state of every run in which no two accepted requests have the same key. */
  lemma {:induction false} RunKeeps(e: Engine, s: State, evs: seq<Event>)
    requires Inv(e, s) && Valid(e, s, evs) && KeysDistinct(After(e, s, evs).reqs)
    ensures Inv(e, After(e, s, evs))
    decreases |evs|
  {
    if evs != [] {
      RequestsGrow(e, s, evs);
      StepKeeps(e, s, evs[0]);
      RunKeeps(e, Next(e, s, evs[0]), evs[1..]);
    }
  }

  /** States the engine can be in. */
  ghost predicate Reachable(e: Engine, s: State) {
    exists cache, evs :: ReachedBy(e, s, cache, evs)
  }

  ghost predicate ReachedBy(e: Engine, s: State, cache: seq<KV>, evs: seq<Event>) {
    && e.blockSize > 0 && |cache| == e.numBlocks * e.blockSize
    && Valid(e, Initial(e, cache), evs) && s == After(e, Initial(e, cache), evs)
  }

  lemma ReachableInv(e: Engine, s: State)
    requires Reachable(e, s) && KeysDistinct(s.reqs)
    ensures Inv(e, s)
  {
    var cache, evs :| ReachedBy(e, s, cache, evs);
    InitialInv(e, cache);
    RunKeeps(e, Initial(e, cache), evs);
  }

  // ----- the paged cache behaves like a private one

  /** In the pass over the batch, sequence i reads through its block table exactly the K/V of its own
      token prefixes: the cached ones before, all of them after its own slots are written. Its sample is
      drawn at its own last token, and its attention sees its private cache. */
  predicate ReadsPrivately(f: Network, cache: seq<KV>, batch: seq<SeqState>, blockSize: nat, i: nat) {
    && blockSize > 0 && RunnableBatch(batch, blockSize) && i < |batch|
    && var x, t := Flatten(batch, blockSize), batch[i];
    && Executable(x, cache, blockSize)
    && t.tokens != [] && CachedPrefix(f, cache, t, blockSize)
    && var cache' := Forward(f, x, cache, blockSize);
    && Readable(cache', blockSize, t.blocks, |t.tokens|)
    && ReadTable(cache', blockSize, t.blocks, |t.tokens|) == PrivateKV(f, t.tokens)
    && Executable(x, cache', blockSize)
    && 0 <= x.seqIndices[i] < |x.rows| && 0 <= x.sampleIdx[x.seqIndices[i]] < |x.tokens|
    && x.tokens[x.sampleIdx[x.seqIndices[i]]] == t.tokens[|t.tokens| - 1]
    && x.params[x.seqIndices[i]] == t.settings.sampling
    && Context(f, x, cache', blockSize, x.seqIndices[i]) == PrivateKV(f, t.tokens)
  }

  lemma BatchReadsPrivately(f: Network, cache: seq<KV>, batch: seq<SeqState>, blockSize: nat, numBlocks: nat, i: nat)
    requires BatchReady(f, cache, batch, blockSize, numBlocks) && RunnableBatch(batch, blockSize) && i < |batch|
    ensures ReadsPrivately(f, cache, batch, blockSize, i)
  {
    ReadyExecutable(f, cache, batch, blockSize, numBlocks);
    ForwardRefines(f, cache, batch, blockSize, numBlocks, i);
    OutputRouting(f, cache, batch, blockSize, numBlocks, i);
  }

  /** Whenever a batch is ready to execute, the checks of prepare_inputs pass if and only if no sequence of it has been
      cancelled since it was granted its slots; and then every sequence of it reads privately, whatever was preempted,
      recomputed or recycled before. */
  lemma PagedCacheIsPrivate(e: Engine, s: State)
    requires Reachable(e, s) && KeysDistinct(s.reqs) && s.phase == Ready
    ensures Named(s) && (Passes(e, s) <==> Unfinished(s.mem.seqs, s.seqBatch))
    ensures Passes(e, s) ==>
              forall i :: 0 <= i < |s.seqBatch| ==> ReadsPrivately(e.f, s.cache, BatchOf(s), e.blockSize, i)
  {
    ReachableInv(e, s);
    ChecksPass(e, s);
    ReadyBatch(e, s);
    if Passes(e, s) {
      forall i | 0 <= i < |s.seqBatch| ensures ReadsPrivately(e.f, s.cache, BatchOf(s), e.blockSize, i) {
        BatchReadsPrivately(e.f, s.cache, BatchOf(s), e.blockSize, e.numBlocks, i);
      }
    }
  }

  /** The token drawn from sampling parameters, the last token and the K/V of all tokens. */
  type Draw = (int, int, seq<KV>) -> int

  /** What a sequence generates on its own, one token per step, with its own sampling parameters. */
  ghost function Solo(f: Network, g: Draw, sampling: int, prompt: seq<int>, n: nat): (tokens: seq<int>)
    requires prompt != []
    ensures |tokens| == |prompt| + n
  {
    if n == 0 then prompt
    else
      var tokens := Solo(f, g, sampling, prompt, n - 1);
      tokens + [g(sampling, tokens[|tokens| - 1], PrivateKV(f, tokens))]
  }

  /** Every execution of the run samples by g, whatever the row. */
  ghost predicate SamplesBy(evs: seq<Event>, g: Draw) {
    forall i :: 0 <= i < |evs| && evs[i].Execute? ==> DrawsBy(evs[i].sample, g)
  }

  ghost predicate DrawsBy(sample: Sampler, g: Draw) {
    forall j, a, t, kvs :: sample(j, a, t, kvs) == g(a, t, kvs)
  }

  /** t is a prefix of what its prompt generates alone. */
  ghost predicate OnItsOwn(f: Network, g: Draw, t: SeqState) {
    && 0 < t.promptLen <= |t.tokens|
    && t.tokens == Solo(f, g, t.settings.sampling, t.tokens[..t.promptLen], |t.tokens| - t.promptLen)
  }

  ghost predicate AllOnTheirOwn(f: Network, g: Draw, seqs: seq<SeqState>) {
    forall k :: 0 <= k < |seqs| ==> OnItsOwn(f, g, seqs[k])
  }

  /** The token g draws for t. */
  ghost function Drawn(f: Network, g: Draw, t: SeqState): int
    requires t.tokens != []
  {
    g(t.settings.sampling, t.tokens[|t.tokens| - 1], PrivateKV(f, t.tokens))
  }

  lemma OnItsOwnStep(f: Network, g: Draw, t: SeqState, token: int)
    requires OnItsOwn(f, g, t) && token == Drawn(f, g, t)
    ensures OnItsOwn(f, g, t.Append(token).CheckStop())
  {
    var t' := t.Append(token).CheckStop();
    CheckedText(t.Append(token));
    assert t'.tokens[..t.promptLen] == t.tokens[..t.promptLen];
    SoloStep(f, g, t.settings.sampling, t.tokens[..t.promptLen], |t.tokens| - t.promptLen);
  }

  lemma CheckedText(t: SeqState)
    ensures t.CheckStop().tokens == t.tokens && t.CheckStop().promptLen == t.promptLen && t.CheckStop().settings == t.settings
  {
  }

  lemma SoloStep(f: Network, g: Draw, sampling: int, prompt: seq<int>, n: nat)
    requires prompt != []
    ensures var tokens := Solo(f, g, sampling, prompt, n);
            Solo(f, g, sampling, prompt, n + 1) == tokens + [g(sampling, tokens[|tokens| - 1], PrivateKV(f, tokens))]
  {
  }

  lemma SampleIsOwn(e: Engine, s: State, sample: Sampler, g: Draw, i: nat)
    requires Inv(e, s) && Enabled(e, s, Execute(sample)) && i < |s.seqBatch| && DrawsBy(sample, g)
    ensures var t := s.mem.seqs[s.seqBatch[i]];
            t.tokens != [] && Samples(e, s, sample)[i] == Drawn(e.f, g, t)
  {
    ReadyBatch(e, s);
    OutputRouting(e.f, s.cache, BatchOf(s), e.blockSize, e.numBlocks, i);
  }

  lemma ExecuteOnTheirOwn(e: Engine, s: State, sample: Sampler, g: Draw)
    requires Inv(e, s) && Enabled(e, s, Execute(sample)) && AllOnTheirOwn(e.f, g, s.mem.seqs) && DrawsBy(sample, g)
    ensures AllOnTheirOwn(e.f, g, DoExecute(e, s, sample).mem.seqs)
  {
    var tokens := Samples(e, s, sample);
    forall i | 0 <= i < |s.seqBatch|
      ensures s.mem.seqs[s.seqBatch[i]].tokens != [] && tokens[i] == Drawn(e.f, g, s.mem.seqs[s.seqBatch[i]])
    {
      SampleIsOwn(e, s, sample, g, i);
    }
    AppendOnTheirOwn(e.f, g, s.mem.seqs, s.seqBatch, tokens);
  }

  lemma AppendOnTheirOwn(f: Network, g: Draw, seqs: seq<SeqState>, ids: seq<nat>, tokens: seq<int>)
    requires |ids| == |tokens| && Known(seqs, ids) && NoDup(ids) && AllOnTheirOwn(f, g, seqs)
    requires forall i :: 0 <= i < |ids| ==> seqs[ids[i]].tokens != [] && tokens[i] == Drawn(f, g, seqs[ids[i]])
    ensures AllOnTheirOwn(f, g, AppendAll(seqs, ids, tokens))
  {
    forall k | 0 <= k < |seqs| ensures OnItsOwn(f, g, AppendAll(seqs, ids, tokens)[k]) {
      if k in ids {
        var i :| 0 <= i < |ids| && ids[i] == k;
        AppendAllMember(seqs, ids, tokens, i);
        OnItsOwnStep(f, g, seqs[k], tokens[i]);
      } else {
        AppendAllOther(seqs, ids, tokens, k);
      }
    }
  }

  lemma StepOnTheirOwn(e: Engine, s: State, ev: Event, g: Draw)
    requires Inv(e, s) && Enabled(e, s, ev) && AllOnTheirOwn(e.f, g, s.mem.seqs)
    requires ev.Execute? ==> DrawsBy(ev.sample, g)
    ensures AllOnTheirOwn(e.f, g, Next(e, s, ev).mem.seqs)
  {
    if ev.Execute? {
      ExecuteOnTheirOwn(e, s, ev.sample, g);
    } else {
      StepText(e, s, ev);
      SameTextsOwn(e.f, g, s.mem.seqs, Next(e, s, ev).mem.seqs);
    }
  }

  lemma SameTextsOwn(f: Network, g: Draw, seqs: seq<SeqState>, seqs': seq<SeqState>)
    requires AllOnTheirOwn(f, g, seqs) && SameTexts(seqs, seqs')
    requires forall k :: |seqs| <= k < |seqs'| ==>
               seqs'[k].tokens != [] && seqs'[k] == NewSequence(seqs'[k].tokens, seqs'[k].settings)
    ensures AllOnTheirOwn(f, g, seqs')
  {
    forall k | 0 <= k < |seqs'| ensures OnItsOwn(f, g, seqs'[k]) {
      if k < |seqs| {
        assert SameText(seqs[k], seqs'[k]) && OnItsOwn(f, g, seqs[k]);
      } else {
        assert seqs'[k].tokens[..seqs'[k].promptLen] == seqs'[k].tokens;
      }
    }
  }

  /** Scheduling is transparent: when a draw depends only on the sequence's sampling parameters, its last token and what
      its attention sees, the tokens of every sequence in every run are those it would generate alone, whatever it shared
      batches and blocks with. */
  lemma {:induction false} RunOnTheirOwn(e: Engine, s: State, evs: seq<Event>, g: Draw)
    requires Inv(e, s) && Valid(e, s, evs) && KeysDistinct(After(e, s, evs).reqs)
    requires SamplesBy(evs, g) && AllOnTheirOwn(e.f, g, s.mem.seqs)
    ensures AllOnTheirOwn(e.f, g, After(e, s, evs).mem.seqs)
    decreases |evs|
  {
    if evs != [] {
      RequestsGrow(e, s, evs);
      StepKeeps(e, s, evs[0]);
      StepOnTheirOwn(e, s, evs[0], g);
      assert SamplesBy(evs[1..], g);
      RunOnTheirOwn(e, Next(e, s, evs[0]), evs[1..], g);
    }
  }

  lemma SchedulingIsTransparent(e: Engine, cache: seq<KV>, evs: seq<Event>, g: Draw)
    requires e.blockSize > 0 && |cache| == e.numBlocks * e.blockSize
    requires Valid(e, Initial(e, cache), evs) && KeysDistinct(After(e, Initial(e, cache), evs).reqs)
    requires SamplesBy(evs, g)
    ensures AllOnTheirOwn(e.f, g, After(e, Initial(e, cache), evs).mem.seqs)
  {
    InitialInv(e, cache);
    RunOnTheirOwn(e, Initial(e, cache), evs, g);
  }
}
