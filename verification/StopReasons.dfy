/** Why sequences stop, over whole runs (src/request/sequence.cpp, check_stopping_creteria). */
module StopReasons {
  import opened Sequences
  import opened PagedExecution
  import opened BatchInputs
  import opened SchedulerState
  import opened SchedulerMemory
  import opened SchedulerInvariants
  import opened SchedulerExecution
  import opened SequenceLife
  import opened SchedulerTheorems

  /** A sequence is stopped for the reason it carries, and a live one has no reason to stop. */
  predicate Explained(t: SeqState) {
    && t.promptLen <= |t.tokens|
    && (t.stopped ==> (LimitReached(t) && t.reason == Length) || (!LimitReached(t) && EndsInEos(t) && t.reason == Stop))
    && (!t.stopped ==> t.reason == NoReason && (|t.tokens| > t.promptLen ==> !LimitReached(t) && !EndsInEos(t)))
  }

  predicate AllExplained(seqs: seq<SeqState>) { forall k :: 0 <= k < |seqs| ==> Explained(seqs[k]) }

  lemma AppendExplained(t: SeqState, token: int)
    requires Explained(t) && !t.stopped
    ensures Explained(t.Append(token).CheckStop())
  {
    StopsExactly(t.Append(token));
  }

  lemma SameExplained(a: SeqState, b: SeqState)
    requires Explained(a) && SameText(a, b)
    ensures Explained(b)
  {
  }

  lemma ExecuteExplained(e: Engine, s: State, sample: Sampler)
    requires Inv(e, s) && Enabled(e, s, Execute(sample)) && AllExplained(s.mem.seqs)
    ensures AllExplained(DoExecute(e, s, sample).mem.seqs)
  {
    var tokens, seqs' := Samples(e, s, sample), DoExecute(e, s, sample).mem.seqs;
    forall k | 0 <= k < |s.mem.seqs| ensures Explained(seqs'[k]) {
      if k in s.seqBatch {
        var i :| 0 <= i < |s.seqBatch| && s.seqBatch[i] == k;
        assert BatchOf(s)[i] in BatchOf(s) && Runnable(BatchOf(s)[i], e.blockSize);
        AppendAllMember(s.mem.seqs, s.seqBatch, tokens, i);
        AppendExplained(s.mem.seqs[k], tokens[i]);
      } else {
        AppendAllOther(s.mem.seqs, s.seqBatch, tokens, k);
      }
    }
  }

  lemma StepExplained(e: Engine, s: State, ev: Event)
    requires Inv(e, s) && Enabled(e, s, ev) && AllExplained(s.mem.seqs)
    ensures AllExplained(Next(e, s, ev).mem.seqs)
  {
    if ev.Execute? {
      ExecuteExplained(e, s, ev.sample);
    } else {
      StepText(e, s, ev);
      OthersExplained(s.mem.seqs, Next(e, s, ev).mem.seqs);
    }
  }

  lemma OthersExplained(seqs: seq<SeqState>, seqs': seq<SeqState>)
    requires AllExplained(seqs) && SameTexts(seqs, seqs')
    requires forall k :: |seqs| <= k < |seqs'| ==> seqs'[k] == NewSequence(seqs'[k].tokens, seqs'[k].settings)
    ensures AllExplained(seqs')
  {
    forall k | 0 <= k < |seqs'| ensures Explained(seqs'[k]) {
      if k < |seqs| { SameExplained(seqs[k], seqs'[k]); }
    }
  }

  lemma {:induction false} RunExplained(e: Engine, s: State, evs: seq<Event>)
    requires Inv(e, s) && AllExplained(s.mem.seqs) && Valid(e, s, evs) && KeysDistinct(After(e, s, evs).reqs)
    ensures AllExplained(After(e, s, evs).mem.seqs)
    decreases |evs|
  {
    if evs != [] {
      RequestsGrow(e, s, evs);
      StepKeeps(e, s, evs[0]);
      StepExplained(e, s, evs[0]);
      RunExplained(e, Next(e, s, evs[0]), evs[1..]);
    }
  }

  /** In every run, a sequence that has stopped has used up its limit or ends in the end-of-sentence token, and carries
      the reason that applies; a live one that has generated something has neither. */
  lemma StopsForAReason(e: Engine, cache: seq<KV>, evs: seq<Event>, k: nat)
    requires e.blockSize > 0 && |cache| == e.numBlocks * e.blockSize && Valid(e, Initial(e, cache), evs)
    requires KeysDistinct(After(e, Initial(e, cache), evs).reqs) && k < |After(e, Initial(e, cache), evs).mem.seqs|
    ensures var t := After(e, Initial(e, cache), evs).mem.seqs[k];
            && (|t.tokens| > t.promptLen ==> (t.stopped <==> LimitReached(t) || EndsInEos(t)))
            && (t.stopped ==> t.reason == if LimitReached(t) then Length else Stop)
            && (!t.stopped ==> t.reason == NoReason)
  {
    InitialInv(e, cache);
    RunExplained(e, Initial(e, cache), evs);
    assert Explained(After(e, Initial(e, cache), evs).mem.seqs[k]);
  }
}
