/** When a cancellation reaches a sequence whose batch is on its way to the engine (src/request/sequence.h,
    src/engine/utils.cpp): the one way in which a check of prepare_inputs can fail. */
module Cancellation {
  import opened Sequences
  import opened BatchInputs
  import opened PagedExecution
  import opened SchedulerState
  import opened SchedulerMemory
  import opened SchedulerInvariants
  import opened SchedulerLoop
  import opened SchedulerExecution
  import opened SchedulerTheorems
  import opened SchedulerGuarantees

  /** Cancelling sequence k when a batch is ready fails a check exactly when k is in the batch. */
  lemma CancelTripsExactly(e: Engine, s: State, k: nat)
    requires Inv(e, s) && s.phase == Ready && Live(s) && k < |s.mem.seqs|
    ensures Enabled(e, s, Cancel(k)) && Named(Next(e, s, Cancel(k)))
    ensures Passes(e, Next(e, s, Cancel(k))) <==> k !in s.seqBatch
  {
    InvNamed(e, s);
    CancelKeeps(e, s, k);
    ChecksPass(e, Next(e, s, Cancel(k)));
  }

  /** The event cancels a sequence of the batch under construction or ready to run. */
  predicate HitsBatch(s: State, ev: Event) { ev.Cancel? && s.phase != Idle && ev.k in s.seqBatch }

  /** What a round does to the list of batched sequences. */
  lemma IterateBatch(e: Engine, s: State, c: nat)
    requires Enabled(e, s, Iterate(c))
    ensures var a, s' := AllocateAll(s.mem, s.reqs[c].seqs, e.blockSize), DoIterate(e, s, c);
            s'.seqBatch == s.seqBatch || (s'.seqBatch == s.seqBatch + a.granted && s'.mem == a.m)
  {
  }

  lemma IterateLive(e: Engine, s: State, c: nat)
    requires Inv(e, s) && Enabled(e, s, Iterate(c)) && Unfinished(s.mem.seqs, s.seqBatch)
    ensures Unfinished(DoIterate(e, s, c).mem.seqs, DoIterate(e, s, c).seqBatch)
  {
    AllocateAllSafe(e, s.mem, s.reqs[c].seqs);
    BatchKeepsBlocks(e, s, c);
    IterateBatch(e, s, c);
    StillUnfinished(s.mem.seqs, s.seqBatch, DoIterate(e, s, c).mem.seqs);
  }

  lemma StillUnfinished(seqs: seq<SeqState>, ids: seq<nat>, seqs': seq<SeqState>)
    requires Unfinished(seqs, ids) && forall k <- ids :: k < |seqs| && k < |seqs'| && seqs'[k].Finished() == seqs[k].Finished()
    ensures Unfinished(seqs', ids)
  {
  }

  /** No event but such a cancellation takes a live sequence out of a batch. */
  lemma LiveKept(e: Engine, s: State, ev: Event)
    requires Inv(e, s) && Enabled(e, s, ev) && Live(s) && !HitsBatch(s, ev)
    ensures Live(Next(e, s, ev))
  {
    match ev
    case Arrive(prompts, priority, created) =>
      if s.phase != Idle { StillUnfinished(s.mem.seqs, s.seqBatch, Next(e, s, ev).mem.seqs); }
    case Cancel(k) =>
      if s.phase != Idle { StillUnfinished(s.mem.seqs, s.seqBatch, Next(e, s, ev).mem.seqs); }
    case Begin => assert Next(e, s, ev).seqBatch == [];
    case Iterate(c) => IterateLive(e, s, c);
    case End(c) =>
    case Execute(_) => assert Next(e, s, ev).phase == Idle;
  }

  /** No cancellation of the run hits a batch between the grant of its slots and its execution. */
  ghost predicate Spared(e: Engine, s: State, evs: seq<Event>)
    requires Valid(e, s, evs)
    decreases |evs|
  {
    evs == [] || (!HitsBatch(s, evs[0]) && Spared(e, Next(e, s, evs[0]), evs[1..]))
  }

  lemma {:induction false} SparedRunsLive(e: Engine, s: State, evs: seq<Event>)
    requires Inv(e, s) && Live(s) && Valid(e, s, evs) && Spared(e, s, evs) && KeysDistinct(After(e, s, evs).reqs)
    ensures Inv(e, After(e, s, evs)) && Live(After(e, s, evs))
    decreases |evs|
  {
    if evs != [] {
      RequestsGrow(e, s, evs);
      StepKeeps(e, s, evs[0]);
      LiveKept(e, s, evs[0]);
      SparedRunsLive(e, Next(e, s, evs[0]), evs[1..]);
    }
  }

  /** In a run whose cancellations all come outside that window, every check passes on every batch. */
  lemma SparedRunsPass(e: Engine, cache: seq<KV>, evs: seq<Event>)
    requires e.blockSize > 0 && |cache| == e.numBlocks * e.blockSize && Valid(e, Initial(e, cache), evs)
    requires Spared(e, Initial(e, cache), evs) && KeysDistinct(After(e, Initial(e, cache), evs).reqs)
    ensures var s := After(e, Initial(e, cache), evs); s.phase == Ready ==> Named(s) && Passes(e, s)
  {
    var s := After(e, Initial(e, cache), evs);
    InitialInv(e, cache);
    SparedRunsLive(e, Initial(e, cache), evs);
    if s.phase == Ready { ChecksPass(e, s); }
  }
}
