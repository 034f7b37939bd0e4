/** What the events of a run do to one sequence. */
module SequenceLife {
  import opened Arith
  import opened Sequences
  import opened BlockMemory
  import opened BatchInputs
  import opened BatchFaithful
  import opened PagedExecution
  import opened SchedulerState
  import opened SchedulerMemory
  import opened SchedulerExecution

  /** Everything but memory and cancellation is the same, and a cancellation stays. */
  predicate SameText(a: SeqState, b: SeqState) {
    && b.tokens == a.tokens && b.promptLen == a.promptLen && b.settings == a.settings
    && b.stopped == a.stopped && b.reason == a.reason && (a.cancelled ==> b.cancelled)
  }

  predicate SameTexts(seqs: seq<SeqState>, seqs': seq<SeqState>) {
    |seqs| <= |seqs'| && forall k :: 0 <= k < |seqs| ==> SameText(seqs[k], seqs'[k])
  }

  lemma {:induction false} AllocateText(m: Memory, ids: seq<nat>, blockSize: nat)
    requires Known(m.seqs, ids) && blockSize > 0
    ensures SameTexts(m.seqs, AllocateAll(m, ids, blockSize).m.seqs)
  {
    if ids != [] { AllocateText(m, ids[..|ids| - 1], blockSize); }
  }

  lemma {:induction false} ReleaseText(m: Memory, ids: seq<nat>)
    requires Known(m.seqs, ids)
    ensures SameTexts(m.seqs, ReleaseAll(m, ids).seqs)
  {
    if ids != [] { ReleaseText(m, ids[..|ids| - 1]); }
  }

  lemma {:induction false} RecycleText(reqs: seq<Request>, m: Memory, heap: set<nat>, done: seq<nat>, batch: seq<nat>)
    requires KnownAll(m.seqs, reqs) && forall i :: 0 <= i < |batch| ==> batch[i] < |reqs|
    ensures SameTexts(m.seqs, RecycleBatch(reqs, m, heap, done, batch).m.seqs)
  {
    if batch != [] {
      RecycleText(reqs, m, heap, done, batch[1..]);
      ReleaseText(RecycleBatch(reqs, m, heap, done, batch[1..]).m, reqs[batch[0]].seqs);
    }
  }

  lemma IterateText(e: Engine, s: State, c: nat)
    requires Enabled(e, s, Iterate(c))
    ensures SameTexts(s.mem.seqs, DoIterate(e, s, c).mem.seqs)
    ensures |DoIterate(e, s, c).mem.seqs| == |s.mem.seqs|
  {
    var a := AllocateAll(s.mem, s.reqs[c].seqs, e.blockSize);
    AllocateText(s.mem, s.reqs[c].seqs, e.blockSize);
    if !a.all && s.preemptable != [] {
      ReleaseText(a.m, s.reqs[s.preemptable[|s.preemptable| - 1]].seqs);
    }
  }

  /** Only an execution changes what a sequence says or why it stopped; new sequences start afresh. */
  lemma StepText(e: Engine, s: State, ev: Event)
    requires Enabled(e, s, ev) && !ev.Execute?
    ensures SameTexts(s.mem.seqs, Next(e, s, ev).mem.seqs)
    ensures forall k :: |s.mem.seqs| <= k < |Next(e, s, ev).mem.seqs| ==>
              var t := Next(e, s, ev).mem.seqs[k]; t.tokens != [] && t == NewSequence(t.tokens, t.settings)
  {
    match ev
    case Arrive(_, _, _) =>
    case Cancel(_) =>
    case Begin => RecycleText(s.reqs, s.mem, s.heap + Elements(s.intake), s.done, s.batch);
    case Iterate(c) => IterateText(e, s, c);
    case End(c) =>
      if s.seqBatch == [] && s.heap != {} { ReleaseText(s.mem, s.reqs[c].seqs); }
  }

  /** How a sequence may change over time: tokens are only added, never after it is finished, and a
      finish reason never changes. */
  predicate Evolves(a: SeqState, b: SeqState) {
    && a.tokens <= b.tokens && b.promptLen == a.promptLen && b.settings == a.settings
    && (a.stopped ==> b.stopped && b.reason == a.reason)
    && (a.Finished() ==> b.Finished() && b.tokens == a.tokens)
  }

  lemma AppendEvolves(t: SeqState, token: int)
    requires !t.Finished()
    ensures Evolves(t, t.Append(token).CheckStop()) && |t.Append(token).CheckStop().tokens| == |t.tokens| + 1
  {
  }

  lemma ExecuteEvolves(e: Engine, s: State, sample: Sampler, k: nat)
    requires Enabled(e, s, Execute(sample)) && k < |s.mem.seqs| && NoDup(s.seqBatch)
    ensures |DoExecute(e, s, sample).mem.seqs| == |s.mem.seqs|
    ensures var t := DoExecute(e, s, sample).mem.seqs[k];
            Evolves(s.mem.seqs[k], t) && |t.tokens| == |s.mem.seqs[k].tokens| + if k in s.seqBatch then 1 else 0
  {
    var tokens := Samples(e, s, sample);
    if k !in s.seqBatch {
      AppendAllOther(s.mem.seqs, s.seqBatch, tokens, k);
    } else {
      var i :| 0 <= i < |s.seqBatch| && s.seqBatch[i] == k;
      AppendAllMember(s.mem.seqs, s.seqBatch, tokens, i);
      assert BatchOf(s)[i] in BatchOf(s) && Runnable(BatchOf(s)[i], e.blockSize);
      AppendEvolves(s.mem.seqs[k], tokens[i]);
    }
  }

  lemma StepEvolves(e: Engine, s: State, ev: Event, k: nat)
    requires Enabled(e, s, ev) && k < |s.mem.seqs| && (ev.Execute? ==> NoDup(s.seqBatch))
    ensures k < |Next(e, s, ev).mem.seqs|
    ensures Evolves(s.mem.seqs[k], Next(e, s, ev).mem.seqs[k])
    ensures |Next(e, s, ev).mem.seqs[k].tokens|
         == |s.mem.seqs[k].tokens| + if ev.Execute? && k in s.seqBatch then 1 else 0
  {
    if ev.Execute? {
      ExecuteEvolves(e, s, ev.sample, k);
    } else {
      StepText(e, s, ev);
      assert SameText(s.mem.seqs[k], Next(e, s, ev).mem.seqs[k]);
    }
  }
}
